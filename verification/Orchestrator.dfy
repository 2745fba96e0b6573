/**
 * The orchestrator's side of a poll: what its calls do to the numbering, the buffered events and
 * the three channels, and how far one poll carries it.
 */
module Orchestrator {
  import opened Types

  type Mail = map<string, seq<Option<string>>>

  /**
   * A running orchestrator: its position (the payloads its awaits have yielded), its handles, the
   * buffered events it shares with the executor, and the sending ends of the three channels.
   */
  datatype Thread = Thread(
    gen: nat,
    body: Program,
    trace: seq<string>,
    nextId: nat,
    slots: seq<Slot>,
    received: Mail,
    actionTx: seq<(int, Action)>,
    taskTx: seq<(int, Sender)>,
    eventTx: seq<(string, Sender)>,
    status: Status)

  function Fresh(gen: nat, body: Program, received: Mail): Thread {
    Thread(gen, body, [], 0, [], received, [], [], [], Blocked)
  }

  /** Take the oldest entry of a name's queue; an emptied queue is removed. */
  function PopQueue<T>(queues: map<string, seq<T>>, name: string): map<string, seq<T>>
    requires name in queues && queues[name] != []
  {
    if |queues[name]| > 1 then queues[name := queues[name][1..]] else queues - {name}
  }

  function PushQueue<T>(queues: map<string, seq<T>>, name: string, entry: T): map<string, seq<T>> {
    queues[name := (if name in queues then queues[name] else []) + [entry]]
  }

  function DoOp(env: Env, t: Thread, op: Op): Thread {
    if t.status.Panicked? then t else
    match op
    case StartTask(call) =>
      var id := t.nextId + 1;
      t.(nextId := id,
         actionTx := t.actionTx + [(id, Action(id, Schedule(call)))],
         taskTx := t.taskTx + [(id, Sender(t.gen, |t.slots|))],
         slots := t.slots + [Empty])
    case StartSignal(rawName) =>
      var name := env.lower(rawName);
      if name in t.received then
        if t.received[name] == [] || t.received[name][0] == None then
          t.(status := Panicked(MissingPayload))
        else
          t.(received := PopQueue(t.received, name),
             slots := t.slots + [Sent(t.received[name][0])])
      else
        t.(eventTx := t.eventTx + [(name, Sender(t.gen, |t.slots|))],
           slots := t.slots + [Empty])
  }

  function DoOps(env: Env, t: Thread, ops: seq<Op>): Thread {
    if ops == [] then t else DoOp(env, DoOps(env, t, ops[..|ops| - 1]), ops[|ops| - 1])
  }

  /** Make the calls of the burst the orchestrator has just reached. */
  function Enter(env: Env, t: Thread): Thread {
    DoOps(env, t, t.body(t.trace).ops)
  }

  function SentSlots(slots: seq<Slot>): set<nat> {
    set h: nat | h < |slots| && slots[h].Sent?
  }

  function Buffered(received: Mail): set<(string, nat)> {
    set n, k: nat | n in received && k < |received[n]| :: (n, k)
  }

  /** Payloads that are delivered or buffered and not yet consumed: each await a poll passes uses one up. */
  function Tokens(t: Thread): nat {
    |SentSlots(t.slots)| + |Buffered(t.received)|
  }

  lemma PopTokens(received: Mail, name: string)
    requires name in received && received[name] != []
    ensures |Buffered(PopQueue(received, name))| == |Buffered(received)| - 1
  {
    var last := (name, |received[name]| - 1);
    assert last in Buffered(received);
    assert Buffered(PopQueue(received, name)) == Buffered(received) - {last};
  }

  lemma DoOpTokens(env: Env, t: Thread, op: Op)
    ensures Tokens(DoOp(env, t, op)) == Tokens(t)
  {
    var r := DoOp(env, t, op);
    if !r.status.Panicked? {
      if r.slots[|t.slots|] == Empty {
        assert SentSlots(r.slots) == SentSlots(t.slots);
      } else {
        assert SentSlots(r.slots) == SentSlots(t.slots) + {|t.slots|};
        PopTokens(t.received, env.lower(op.name));
      }
    }
  }

  lemma {:induction false} DoOpsTokens(env: Env, t: Thread, ops: seq<Op>)
    ensures Tokens(DoOps(env, t, ops)) == Tokens(t)
  {
    if ops != [] {
      DoOpsTokens(env, t, ops[..|ops| - 1]);
      DoOpTokens(env, DoOps(env, t, ops[..|ops| - 1]), ops[|ops| - 1]);
    }
  }

  /** The await on `handle` yields `payload`: consume it and move to the next burst. */
  function Consume(t: Thread, handle: nat, payload: string): Thread
    requires handle < |t.slots|
  {
    t.(slots := t.slots[handle := Consumed], trace := t.trace + [payload])
  }

  lemma ConsumeTokens(env: Env, t: Thread, handle: nat, payload: string)
    requires handle < |t.slots| && t.slots[handle].Sent?
    ensures Tokens(Enter(env, Consume(t, handle, payload))) < Tokens(t)
  {
    var t1 := Consume(t, handle, payload);
    assert SentSlots(t1.slots) == SentSlots(t.slots) - {handle};
    DoOpsTokens(env, t1, t1.body(t1.trace).ops);
  }

  /** One poll of an orchestrator standing at an await: run it to its first unresolved await, or to its end. */
  function Resume(env: Env, t: Thread): Thread
    decreases Tokens(t)
  {
    if !t.status.Blocked? then t else
    match t.body(t.trace).tail
    case Return(outcome) => t.(status := Returned(outcome))
    case Await(handle) =>
      if handle >= |t.slots| then t.(status := Panicked(HandleReused)) else
      match t.slots[handle]
      case Empty => t
      case SenderDropped => t
      case Consumed => t.(status := Panicked(HandleReused))
      case Sent(None) => t.(status := Panicked(MissingPayload))
      case Sent(Some(payload)) =>
        ConsumeTokens(env, t, handle, payload);
        Resume(env, Enter(env, Consume(t, handle, payload)))
  }

  /** The first poll of a newly called orchestrator. */
  function Launch(env: Env, gen: nat, body: Program, received: Mail): Thread {
    Resume(env, Enter(env, Fresh(gen, body, received)))
  }
}
