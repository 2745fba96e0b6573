/**
 * The poll/drain executor against the meaning of the program: the relation that every event
 * boundary keeps, and its preservation by one call, one poll and one drain.
 */
module Simulation {
  import opened Types
  import opened Orchestrator
  import opened Replay
  import opened Meaning

  /** What the receiving end of handle `h` shows, given the inputs heard and the handles awaited. */
  function SlotOf(env: Env, ops: seq<Op>, awaited: set<nat>, i: Inputs, h: nat): Slot
    requires h < |ops|
  {
    if h in awaited then Consumed else
    match RefOf(env, ops, h)
    case TaskRef(id) =>
      if id !in i.resolved then Empty
      else if i.resolved[id].Some? then Sent(i.resolved[id]) else SenderDropped
    case SignalRef(name, k) =>
      if k < |i.Raised(name)| then Sent(Some(i.Raised(name)[k])) else Empty
  }

  predicate SlotFits(env: Env, slots: seq<Slot>, awaited: set<nat>, ops: seq<Op>, i: Inputs, h: nat)
    requires h < |ops|
  {
    h < |slots| && slots[h] == SlotOf(env, ops, awaited, i, h)
  }

  ghost predicate SlotsShow(env: Env, slots: seq<Slot>, awaited: set<nat>, ops: seq<Op>, i: Inputs) {
    && |slots| == |ops|
    && forall h: nat {:trigger SlotFits(env, slots, awaited, ops, i, h)} ::
         h < |ops| ==> SlotFits(env, slots, awaited, ops, i, h)
  }

  predicate TaskFits(m: map<int, Sender>, gen: nat, ops: seq<Op>, resolved: map<int, Option<string>>, id: int) {
    && (id in m <==> 1 <= id <= TaskCount(ops) && id !in resolved)
    && (id in m ==> m[id] == Sender(gen, TaskHandles(ops)[id - 1]))
  }

  /** The pending tasks are exactly the issued ids that have not been resolved. */
  ghost predicate TasksShow(m: map<int, Sender>, gen: nat, ops: seq<Op>, resolved: map<int, Option<string>>) {
    forall id :: TaskFits(m, gen, ops, resolved, id)
  }

  function Addressed(gen: nat, handles: seq<nat>): seq<Sender> {
    seq(|handles|, j requires 0 <= j < |handles| => Sender(gen, handles[j]))
  }

  function Wrapped(inputs: seq<string>): seq<Option<string>> {
    seq(|inputs|, j requires 0 <= j < |inputs| => Some(inputs[j]))
  }

  /** The waiters for a name are the waits beyond the raised inputs, oldest first. */
  ghost predicate WaitersShowFor(env: Env, m: map<string, seq<Sender>>, gen: nat, ops: seq<Op>, i: Inputs,
                                 name: string)
  {
    && (name in m <==> |i.Raised(name)| < WaitCount(env, ops, name))
    && (name in m ==> m[name] == Addressed(gen, WaitHandles(env, ops, name)[|i.Raised(name)|..]))
  }

  /** The buffer for a name is the raised inputs beyond the waits, oldest first. */
  ghost predicate MailShowsFor(env: Env, m: Mail, ops: seq<Op>, i: Inputs, name: string) {
    && (name in m <==> WaitCount(env, ops, name) < |i.Raised(name)|)
    && (name in m ==> m[name] == Wrapped(i.Raised(name)[WaitCount(env, ops, name)..]))
  }

  ghost predicate WaitersShow(env: Env, m: map<string, seq<Sender>>, gen: nat, ops: seq<Op>, i: Inputs) {
    forall name :: WaitersShowFor(env, m, gen, ops, i, name)
  }

  ghost predicate MailShows(env: Env, m: Mail, ops: seq<Op>, i: Inputs) {
    forall name :: MailShowsFor(env, m, ops, i, name)
  }

  predicate ActionFits(q: seq<(int, Action)>, ops: seq<Op>, drained: nat, j: nat)
    requires j < |q| && drained + |q| == TaskCount(ops)
  {
    q[j] == (drained + 1 + j, Action(drained + 1 + j, Schedule(CallOf(ops, drained + 1 + j))))
  }

  /** The undrained actions are the schedulings of the ids beyond `drained`, in id order. */
  ghost predicate ActionsShow(q: seq<(int, Action)>, ops: seq<Op>, drained: nat) {
    && drained + |q| == TaskCount(ops)
    && forall j: nat {:trigger ActionFits(q, ops, drained, j)} :: j < |q| ==> ActionFits(q, ops, drained, j)
  }

  ghost predicate ResolvedIssued(ops: seq<Op>, i: Inputs) {
    forall id :: id in i.resolved ==> 1 <= id <= TaskCount(ops)
  }

  /**
   * The state shows the calls `ops` and the inputs `i`. Undrained channels count as drained, so
   * that the relation also holds in the middle of a poll.
   */
  ghost predicate Shows(env: Env, s: State, ops: seq<Op>, i: Inputs, drained: nat) {
    && s.thread.nextId == TaskCount(ops)
    && ResolvedIssued(ops, i)
    && SlotsShow(env, s.thread.slots, Awaited(s.thread.body, s.thread.trace), ops, i)
    && TasksShow(DrainInto(s.pendingTasks, s.thread.taskTx), s.thread.gen, ops, i.resolved)
    && WaitersShow(env, DrainEvents(s.pendingEvents, s.thread.eventTx), s.thread.gen, ops, i)
    && MailShows(env, s.thread.received, ops, i)
    && ActionsShow(s.thread.actionTx, ops, drained)
  }

  ghost predicate AwaitedIssued(t: Thread, ops: seq<Op>) {
    forall h :: h in Awaited(t.body, t.trace) ==> h < |ops|
  }

  // One call.

  lemma SnocOps(ops: seq<Op>, op: Op)
    ensures (ops + [op])[..|ops|] == ops
  {
  }

  lemma SlotsOp(env: Env, slots: seq<Slot>, awaited: set<nat>, slot: Slot, ops: seq<Op>, op: Op, i: Inputs)
    requires SlotsShow(env, slots, awaited, ops, i)
    requires forall h :: h in awaited ==> h < |ops|
    requires slot == SlotOf(env, ops + [op], {}, i, |ops|)
    ensures SlotsShow(env, slots + [slot], awaited, ops + [op], i)
  {
    forall h: nat | h < |ops + [op]|
      ensures SlotFits(env, slots + [slot], awaited, ops + [op], i, h)
    {
      if h < |ops| {
        RefStable(env, ops, [op], h);
        assert SlotFits(env, slots, awaited, ops, i, h);
      }
    }
  }

  lemma TasksOp(m: map<int, Sender>, gen: nat, ops: seq<Op>, op: Op, i: Inputs)
    requires TasksShow(m, gen, ops, i.resolved) && ResolvedIssued(ops, i)
    ensures TasksShow(if op.StartTask? then m[TaskCount(ops) + 1 := Sender(gen, |ops|)] else m,
                      gen, ops + [op], i.resolved)
    ensures ResolvedIssued(ops + [op], i)
  {
    SnocOps(ops, op);
    var m' := if op.StartTask? then m[TaskCount(ops) + 1 := Sender(gen, |ops|)] else m;
    forall id ensures TaskFits(m', gen, ops + [op], i.resolved, id) {
      assert TaskFits(m, gen, ops, i.resolved, id);
    }
  }

  lemma WaitersOp(env: Env, m: map<string, seq<Sender>>, gen: nat, ops: seq<Op>, op: Op, i: Inputs)
    requires WaitersShow(env, m, gen, ops, i)
    ensures var m' :=
              if op.StartSignal? && |i.Raised(env.lower(op.name))| <= WaitCount(env, ops, env.lower(op.name))
              then PushQueue(m, env.lower(op.name), Sender(gen, |ops|)) else m;
            WaitersShow(env, m', gen, ops + [op], i)
  {
    var m' :=
      if op.StartSignal? && |i.Raised(env.lower(op.name))| <= WaitCount(env, ops, env.lower(op.name))
      then PushQueue(m, env.lower(op.name), Sender(gen, |ops|)) else m;
    forall name ensures WaitersShowFor(env, m', gen, ops + [op], i, name) {
      assert WaitersShowFor(env, m, gen, ops, i, name);
      SnocOps(ops, op);
    }
  }

  lemma MailOp(env: Env, m: Mail, ops: seq<Op>, op: Op, i: Inputs)
    requires MailShows(env, m, ops, i)
    ensures op.StartSignal? && env.lower(op.name) in m ==> m[env.lower(op.name)] != []
    ensures var m' := if op.StartSignal? && env.lower(op.name) in m then PopQueue(m, env.lower(op.name)) else m;
            MailShows(env, m', ops + [op], i)
  {
    if op.StartSignal? {
      assert MailShowsFor(env, m, ops, i, env.lower(op.name));
    }
    var m' := if op.StartSignal? && env.lower(op.name) in m then PopQueue(m, env.lower(op.name)) else m;
    forall name ensures MailShowsFor(env, m', ops + [op], i, name) {
      assert MailShowsFor(env, m, ops, i, name);
      SnocOps(ops, op);
    }
  }

  lemma ActionsOp(q: seq<(int, Action)>, ops: seq<Op>, op: Op, drained: nat)
    requires ActionsShow(q, ops, drained)
    ensures var id := TaskCount(ops) + 1;
            var q' := if op.StartTask? then q + [(id, Action(id, Schedule(op.call)))] else q;
            ActionsShow(q', ops + [op], drained)
  {
    var id := TaskCount(ops) + 1;
    var q' := if op.StartTask? then q + [(id, Action(id, Schedule(op.call)))] else q;
    SnocOps(ops, op);
    TaskHandlesSound(ops);
    forall j: nat | j < |q'| ensures ActionFits(q', ops + [op], drained, j) {
      if j < |q| {
        assert ActionFits(q, ops, drained, j);
      }
    }
  }

  lemma ShowsTask(env: Env, s: State, op: Op, ops: seq<Op>, i: Inputs, drained: nat)
    requires Shows(env, s, ops, i, drained) && AwaitedIssued(s.thread, ops)
    requires s.thread.status.Blocked? && op.StartTask?
    ensures Shows(env, s.(thread := DoOp(env, s.thread, op)), ops + [op], i, drained)
  {
    var t := s.thread;
    var t' := DoOp(env, t, op);
    SnocOps(ops, op);
    SlotsOp(env, t.slots, Awaited(t.body, t.trace), t'.slots[|ops|], ops, op, i);
    assert t'.taskTx[..|t'.taskTx| - 1] == t.taskTx;
    TasksOp(DrainInto(s.pendingTasks, t.taskTx), t.gen, ops, op, i);
    WaitersOp(env, DrainEvents(s.pendingEvents, t.eventTx), t.gen, ops, op, i);
    MailOp(env, t.received, ops, op, i);
    ActionsOp(t.actionTx, ops, op, drained);
  }

  /** A wait whose name has a buffered input takes the oldest one. */
  lemma ShowsBuffered(env: Env, s: State, op: Op, ops: seq<Op>, i: Inputs, drained: nat)
    requires Shows(env, s, ops, i, drained) && AwaitedIssued(s.thread, ops)
    requires s.thread.status.Blocked? && op.StartSignal? && env.lower(op.name) in s.thread.received
    ensures var t := DoOp(env, s.thread, op);
            t.status.Blocked? && Shows(env, s.(thread := t), ops + [op], i, drained)
  {
    hide WaitHandles, TaskHandles;
    var t, name := s.thread, env.lower(op.name);
    assert MailShowsFor(env, t.received, ops, i, name);
    SnocOps(ops, op);
    TaskOpsSame(ops, op);
    SlotsOp(env, t.slots, Awaited(t.body, t.trace), Sent(t.received[name][0]), ops, op, i);
    TasksOp(DrainInto(s.pendingTasks, t.taskTx), t.gen, ops, op, i);
    WaitersOp(env, DrainEvents(s.pendingEvents, t.eventTx), t.gen, ops, op, i);
    MailOp(env, t.received, ops, op, i);
    ActionsOp(t.actionTx, ops, op, drained);
  }

  /** A wait whose name has no buffered input registers a waiter. */
  lemma ShowsWaiting(env: Env, s: State, op: Op, ops: seq<Op>, i: Inputs, drained: nat)
    requires Shows(env, s, ops, i, drained) && AwaitedIssued(s.thread, ops)
    requires s.thread.status.Blocked? && op.StartSignal? && env.lower(op.name) !in s.thread.received
    ensures var t := DoOp(env, s.thread, op);
            t.status.Blocked? && Shows(env, s.(thread := t), ops + [op], i, drained)
  {
    hide WaitHandles, TaskHandles;
    var t, name := s.thread, env.lower(op.name);
    var t' := DoOp(env, t, op);
    assert MailShowsFor(env, t.received, ops, i, name);
    SnocOps(ops, op);
    TaskOpsSame(ops, op);
    SlotsOp(env, t.slots, Awaited(t.body, t.trace), Empty, ops, op, i);
    TasksOp(DrainInto(s.pendingTasks, t.taskTx), t.gen, ops, op, i);
    WaitersOp(env, DrainEvents(s.pendingEvents, t.eventTx), t.gen, ops, op, i);
    MailOp(env, t.received, ops, op, i);
    ActionsOp(t.actionTx, ops, op, drained);
    assert t'.eventTx[..|t'.eventTx| - 1] == t.eventTx;
  }

  lemma TaskOpsSame(ops: seq<Op>, op: Op)
    requires op.StartSignal?
    ensures TaskCount(ops + [op]) == TaskCount(ops)
  {
    SnocOps(ops, op);
  }

  lemma ShowsOp(env: Env, s: State, op: Op, ops: seq<Op>, i: Inputs, drained: nat)
    requires Shows(env, s, ops, i, drained) && AwaitedIssued(s.thread, ops)
    requires s.thread.status.Blocked?
    ensures var t := DoOp(env, s.thread, op);
            t.status.Blocked? && Shows(env, s.(thread := t), ops + [op], i, drained)
  {
    if op.StartTask? {
      ShowsTask(env, s, op, ops, i, drained);
    } else if env.lower(op.name) in s.thread.received {
      ShowsBuffered(env, s, op, ops, i, drained);
    } else {
      ShowsWaiting(env, s, op, ops, i, drained);
    }
  }

  lemma {:induction false} ShowsOps(env: Env, s: State, burst: seq<Op>, ops: seq<Op>, i: Inputs, drained: nat)
    requires Shows(env, s, ops, i, drained) && AwaitedIssued(s.thread, ops)
    requires s.thread.status.Blocked?
    ensures var t := DoOps(env, s.thread, burst);
            && t.status.Blocked? && t.gen == s.thread.gen && t.body == s.thread.body && t.trace == s.thread.trace
            && Shows(env, s.(thread := t), ops + burst, i, drained)
  {
    if burst == [] {
      assert ops + burst == ops;
    } else {
      var before := burst[..|burst| - 1];
      ShowsOps(env, s, before, ops, i, drained);
      ShowsOp(env, s.(thread := DoOps(env, s.thread, before)), burst[|burst| - 1], ops + before, i, drained);
      assert ops + before + [burst[|burst| - 1]] == ops + burst;
    }
  }

  // One await, and one poll.

  lemma SlotConsumed(env: Env, slots: seq<Slot>, awaited: set<nat>, h: nat, ops: seq<Op>, i: Inputs)
    requires SlotsShow(env, slots, awaited, ops, i) && h < |ops|
    ensures SlotsShow(env, slots[h := Consumed], awaited + {h}, ops, i)
  {
    var slots', awaited' := slots[h := Consumed], awaited + {h};
    forall g: nat | g < |ops| ensures SlotFits(env, slots', awaited', ops, i, g) {
      assert SlotFits(env, slots, awaited, ops, i, g);
    }
  }

  lemma ShowsConsume(env: Env, s: State, h: nat, payload: string, ops: seq<Op>, i: Inputs, drained: nat)
    requires Shows(env, s, ops, i, drained)
    requires s.thread.body(s.thread.trace).tail == Await(h) && h < |ops|
    ensures Shows(env, s.(thread := Consume(s.thread, h, payload)), ops, i, drained)
    ensures Awaited(s.thread.body, s.thread.trace + [payload]) == Awaited(s.thread.body, s.thread.trace) + {h}
  {
    assert (s.thread.trace + [payload])[..|s.thread.trace|] == s.thread.trace;
    SlotConsumed(env, s.thread.slots, Awaited(s.thread.body, s.thread.trace), h, ops, i);
  }

  /** The relation at a point where the orchestrator stands at the tail of a burst. */
  ghost predicate At(env: Env, s: State, i: Inputs, drained: nat) {
    var t := s.thread;
    && Shows(env, s, OpsAt(t.body, t.trace), i, drained)
    && AwaitedIssued(t, OpsAt(t.body, t.trace))
    && Follows(env, t.body, i, t.trace)
  }

  lemma AtNextBurst(env: Env, s: State, h: nat, payload: string, i: Inputs, drained: nat)
    requires At(env, s, i, drained) && s.thread.status.Blocked?
    requires s.thread.body(s.thread.trace).tail == Await(h) && h < |s.thread.slots|
    requires s.thread.slots[h] == Sent(Some(payload))
    ensures var t := Enter(env, Consume(s.thread, h, payload));
            && t.status.Blocked? && t.trace == s.thread.trace + [payload]
            && t.gen == s.thread.gen && t.body == s.thread.body
            && At(env, s.(thread := t), i, drained)
  {
    var t := s.thread;
    var p, ops := t.body, OpsAt(t.body, t.trace);
    var next := t.trace + [payload];
    assert next[..|t.trace|] == t.trace;
    assert SlotFits(env, t.slots, Awaited(p, t.trace), ops, i, h);
    ShowsConsume(env, s, h, payload, ops, i, drained);
    ShowsOps(env, s.(thread := Consume(t, h, payload)), p(next).ops, ops, i, drained);
    assert OpsAt(p, next) == ops + p(next).ops;
  }

  /** `t` is where one poll of `s` should leave the orchestrator: settled on the inputs, and without a fault. */
  ghost predicate Polled(env: Env, s: State, i: Inputs, drained: nat, t: Thread) {
    && At(env, s.(thread := t), i, drained)
    && t.gen == s.thread.gen && t.body == s.thread.body && s.thread.trace <= t.trace
    && Settles(env, t.body, i, t.trace)
    && t.status == (match t.body(t.trace).tail { case Await(_) => Blocked case Return(o) => Returned(o) })
  }

  /** Where the poll stops: at an await whose handle waits, or at the end. */
  lemma PollStops(env: Env, s: State, i: Inputs, drained: nat)
    requires At(env, s, i, drained) && s.thread.status.Blocked? && Affine(s.thread.body)
    requires var tail := s.thread.body(s.thread.trace).tail;
             tail.Await? ==> tail.handle < |s.thread.slots| && !s.thread.slots[tail.handle].Sent?
    ensures Polled(env, s, i, drained, Resume(env, s.thread))
  {
    var t := s.thread;
    var ops := OpsAt(t.body, t.trace);
    if t.body(t.trace).tail.Await? {
      var h := t.body(t.trace).tail.handle;
      AwaitedOnce(env, t.body, i, t.trace, h);
      assert SlotFits(env, t.slots, Awaited(t.body, t.trace), ops, i, h);
      assert Resume(env, t) == t;
    }
  }

  /** Where the poll goes on: the await yields a payload. */
  lemma PollGoesOn(env: Env, s: State, i: Inputs, drained: nat)
    requires At(env, s, i, drained) && s.thread.status.Blocked? && Affine(s.thread.body)
    requires s.thread.body(s.thread.trace).tail.Await?
    ensures var h := s.thread.body(s.thread.trace).tail.handle;
            && h < |s.thread.slots|
            && (s.thread.slots[h].Sent? ==> s.thread.slots[h].payload.Some?)
  {
    var t := s.thread;
    var h := t.body(t.trace).tail.handle;
    AwaitedOnce(env, t.body, i, t.trace, h);
    assert SlotFits(env, t.slots, Awaited(t.body, t.trace), OpsAt(t.body, t.trace), i, h);
  }

  /**
   * One poll: it carries the orchestrator from wherever it stands to where the inputs heard so far
   * leave it, without a fault.
   */
  lemma {:induction false} PollSettles(env: Env, s: State, i: Inputs, drained: nat)
    requires At(env, s, i, drained) && s.thread.status.Blocked? && Affine(s.thread.body)
    ensures Polled(env, s, i, drained, Resume(env, s.thread))
    decreases Tokens(s.thread)
  {
    var t := s.thread;
    match t.body(t.trace).tail
    case Return(_) => PollStops(env, s, i, drained);
    case Await(h) =>
      PollGoesOn(env, s, i, drained);
      if t.slots[h].Sent? {
        var payload := t.slots[h].payload.value;
        var next := Enter(env, Consume(t, h, payload));
        ConsumeTokens(env, t, h, payload);
        AtNextBurst(env, s, h, payload, i, drained);
        PollSettles(env, s.(thread := next), i, drained);
        assert Resume(env, t) == Resume(env, next);
        assert s.(thread := next).(thread := Resume(env, next)) == s.(thread := Resume(env, next));
      } else {
        PollStops(env, s, i, drained);
      }
  }
}
