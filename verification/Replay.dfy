/** The executor: one history event at a time, then a drain of the three channels. */
module Replay {
  import opened Types
  import opened Orchestrator

  datatype State = State(
    sequenceNumber: int,
    pendingActions: map<int, Action>,
    pendingTasks: map<int, Sender>,
    pendingEvents: map<string, seq<Sender>>,
    thread: Thread)

  /** No orchestrator has been started: nothing to poll, but raised events can already be buffered. */
  function Idle(): Thread {
    Fresh(0, (trace: seq<string>) => Burst([], Return(Error)), map[]).(status := Absent)
  }

  function Init(): State {
    State(0, map[], map[], map[], Idle())
  }

  function WithFault(s: State, fault: Fault): State {
    s.(thread := s.thread.(status := Panicked(fault)))
  }

  function CompletionKind(outcome: Outcome): ActionKind {
    match outcome
    case Output(value) => Complete(Completed, Some(value))
    case ContinueAsNew => Complete(ContinuedAsNew, None)
    case Error => Complete(Failed, None)
  }

  function Completion(id: int, outcome: Outcome): Action {
    Action(id, CompletionKind(outcome))
  }

  /** Insert an action under an id minted by the executor's own counter. */
  function Mint(s: State, kind: ActionKind): State {
    var id := s.sequenceNumber + 1;
    s.(sequenceNumber := id, pendingActions := s.pendingActions[id := Action(id, kind)])
  }

  /** Poll the orchestrator; one that returns gets a completion under a minted id. */
  function Poll(env: Env, s: State): State {
    match s.thread.status
    case Absent => WithFault(s, PolledWithoutFuture)
    case Returned(_) => WithFault(s, PolledAfterReturn)
    case Panicked(_) => s
    case Blocked =>
      var t := Resume(env, s.thread);
      if t.status.Returned? then
        Mint(s.(thread := t), CompletionKind(t.status.outcome))
      else s.(thread := t)
  }

  /** The ExecutionCompleted branch: poll if there is an orchestrator, and ignore what it returns. */
  function PollQuietly(env: Env, s: State): State {
    match s.thread.status
    case Absent => s
    case Returned(_) => WithFault(s, PolledAfterReturn)
    case Panicked(_) => s
    case Blocked => s.(thread := Resume(env, s.thread))
  }

  /** The receiver of a handle lives as long as the orchestrator that holds it is neither finished nor replaced. */
  predicate ReceiverLives(t: Thread, to: Sender) {
    t.status.Blocked? && to.gen == t.gen && to.slot < |t.slots| && t.slots[to.slot] == Empty
  }

  /** Send on a one-shot channel; a send whose receiver is gone is unwrapped by every caller. */
  function Send(t: Thread, to: Sender, payload: Option<string>): Thread {
    if ReceiverLives(t, to) then t.(slots := t.slots[to.slot := Sent(payload)])
    else t.(status := Panicked(ReceiverGone))
  }

  function DropSender(t: Thread, to: Sender): Thread {
    if to.gen == t.gen && to.slot < |t.slots| && t.slots[to.slot] == Empty
    then t.(slots := t.slots[to.slot := SenderDropped]) else t
  }

  /** A resolution removes the task it names and unblocks it; without a payload the sender is dropped. */
  function Deliver(s: State, id: int, payload: Option<string>): State {
    if id !in s.pendingTasks then s else
    var to := s.pendingTasks[id];
    s.(pendingTasks := s.pendingTasks - {id},
       thread := if payload.Some? then Send(s.thread, to, payload) else DropSender(s.thread, to))
  }

  /** EventRaised: unblock and poll the oldest waiter for the name, or buffer the input. */
  function Raise(env: Env, s: State, name: string, input: Option<string>): State {
    if name in s.pendingEvents then
      if s.pendingEvents[name] == [] then WithFault(s, MissingPayload) else
      Poll(env, s.(pendingEvents := PopQueue(s.pendingEvents, name),
                   thread := Send(s.thread, s.pendingEvents[name][0], input)))
    else
      s.(thread := s.thread.(received := PushQueue(s.thread.received, name, input)))
  }

  /** ExecutionStarted: call and poll a registered orchestrator; one that is ready at once is dropped. */
  function Start(env: Env, s: State, name: string, input: Option<string>): State {
    if name !in env.registry then s else
    var t := Launch(env, s.thread.gen + 1, env.registry[name](input), s.thread.received);
    match t.status
    case Blocked => s.(thread := t)
    case Panicked(fault) => WithFault(s, fault)
    case _ => s.(thread := s.thread.(received := t.received))
  }

  function ProcessEvent(env: Env, s: State, e: Event): State {
    match e
    case ExecutionStarted(name, input) => Start(env, s, name, input)
    case ExecutionCompleted => PollQuietly(env, s)
    case ExecutionTerminated => Mint(s, Complete(Terminated, None))
    case TaskScheduled(id) => s.(pendingActions := s.pendingActions - {id})
    case SubOrchestrationInstanceCreated(id) => s.(pendingActions := s.pendingActions - {id})
    case TimerCreated(id) => s.(pendingActions := s.pendingActions - {id})
    case TaskFailed(id, failure) => Deliver(s, id, failure)
    case TaskCompleted(id, result) => Poll(env, Deliver(s, id, result))
    case SubOrchestrationInstanceCompleted(id, result) => Poll(env, Deliver(s, id, result))
    case SubOrchestrationInstanceFailed(id, failure) => Poll(env, Deliver(s, id, failure))
    case TimerFired(id, hasFireAt) => Poll(env, Deliver(s, id, if hasFireAt then Some("") else None))
    case EventRaised(name, input) => Raise(env, s, env.lower(name), input)
    case Inert => s
  }

  /** Insert what a channel holds, in the order it was sent. */
  function DrainInto<V>(m: map<int, V>, q: seq<(int, V)>): map<int, V> {
    if q == [] then m
    else DrainInto(m, q[..|q| - 1])[q[|q| - 1].0 := q[|q| - 1].1]
  }

  /** The executor adopts the last positive id it drains as its own counter. */
  function DrainCounter(n: int, q: seq<(int, Action)>): int {
    if q == [] then n
    else if q[|q| - 1].0 > 0 then q[|q| - 1].0
    else DrainCounter(n, q[..|q| - 1])
  }

  function DrainEvents<V>(m: map<string, seq<V>>, q: seq<(string, V)>): map<string, seq<V>> {
    if q == [] then m
    else PushQueue(DrainEvents(m, q[..|q| - 1]), q[|q| - 1].0, q[|q| - 1].1)
  }

  function Drain(s: State): State {
    State(DrainCounter(s.sequenceNumber, s.thread.actionTx),
          DrainInto(s.pendingActions, s.thread.actionTx),
          DrainInto(s.pendingTasks, s.thread.taskTx),
          DrainEvents(s.pendingEvents, s.thread.eventTx),
          s.thread.(actionTx := [], taskTx := [], eventTx := []))
  }

  /** One turn of the event loop. A panic unwinds the whole execution, so nothing happens after it. */
  function Step(env: Env, s: State, e: Event): State {
    if s.thread.status.Panicked? then s else
    var s' := ProcessEvent(env, s, e);
    if s'.thread.status.Panicked? then s' else Drain(s')
  }

  function RunFrom(env: Env, s: State, events: seq<Event>): State {
    if events == [] then s
    else Step(env, RunFrom(env, s, events[..|events| - 1]), events[|events| - 1])
  }

  function Run(env: Env, history: seq<Event>): State {
    RunFrom(env, Init(), history)
  }

  /** The outcome of one execution: a panic, or the pending actions in no particular order. */
  datatype Response = Crashed(fault: Fault) | Reply(actions: set<Action>)

  function ValuesOf(actions: map<int, Action>): set<Action> {
    set id | id in actions :: actions[id]
  }

  function Respond(s: State): Response {
    if s.thread.status.Panicked? then Crashed(s.thread.status.fault)
    else Reply(ValuesOf(s.pendingActions))
  }

  function Execute(env: Env, oldEvents: seq<Event>, newEvents: seq<Event>): Response {
    Respond(RunFrom(env, RunFrom(env, Init(), oldEvents), newEvents))
  }

  lemma {:induction false} RunFromSplit(env: Env, s: State, a: seq<Event>, b: seq<Event>)
    ensures RunFrom(env, s, a + b) == RunFrom(env, RunFrom(env, s, a), b)
  {
    if b == [] {
      assert a + b == a;
    } else {
      assert (a + b)[..|a + b| - 1] == a + b[..|b| - 1];
      RunFromSplit(env, s, a, b[..|b| - 1]);
    }
  }

  /**
   * The answer of an execution: it panics exactly when the run does, and otherwise answers an action
   * exactly when the run has left it pending under some id.
   */
  lemma {:induction false} AnswerExactly(env: Env, past: seq<Event>, recent: seq<Event>)
    ensures var s, r := Run(env, past + recent), Execute(env, past, recent);
            && (r.Crashed? <==> s.thread.status.Panicked?)
            && (r.Crashed? ==> s.thread.status == Panicked(r.fault))
            && (r.Reply? ==> forall a ::
                  a in r.actions <==> exists id :: id in s.pendingActions && s.pendingActions[id] == a)
  {
    hide Step;
    RunFromSplit(env, Init(), past, recent);
  }

  lemma RunSnoc(env: Env, h: seq<Event>, e: Event)
    ensures Run(env, h + [e]) == Step(env, Run(env, h), e)
  {
    assert (h + [e])[..|h|] == h;
  }

  /** The actions an execution returns do not depend on where its history is split into old and new events. */
  lemma SplitIndependence(env: Env, old1: seq<Event>, new1: seq<Event>, old2: seq<Event>, new2: seq<Event>)
    requires old1 + new1 == old2 + new2
    ensures Execute(env, old1, new1) == Execute(env, old2, new2) == Respond(Run(env, old1 + new1))
  {
    RunFromSplit(env, Init(), old1, new1);
    RunFromSplit(env, Init(), old2, new2);
  }
}
