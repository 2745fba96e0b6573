/** What holds at every event boundary of an admissible history, and what one event does to it. */
module Boundaries {
  import opened Types
  import opened Orchestrator
  import opened Replay
  import opened Meaning
  import opened Simulation

  /** Registered orchestrators obey the ownership discipline of handles. */
  ghost predicate WellOwned(env: Env) {
    forall name :: name in env.registry ==> forall input :: Affine(env.registry[name](input))
  }

  predicate IsStart(env: Env, e: Event) {
    e.ExecutionStarted? && e.name in env.registry
  }

  /**
   * Raised events carry an input, and a registered orchestrator is started only when there is none,
   * and is still pending after its first poll.
   */
  predicate AdmissibleEvent(env: Env, s: State, e: Event) {
    && (e.EventRaised? ==> e.input.Some?)
    && (IsStart(env, e) ==> s.thread.status.Absent? && !Step(env, s, e).thread.status.Absent?)
  }

  ghost predicate Admissible(env: Env, h: seq<Event>) {
    forall n: nat {:trigger h[n]} :: n < |h| ==> AdmissibleEvent(env, Run(env, h[..n]), h[n])
  }

  // What resolutions tell, one event type at a time.

  /** The event resolves this task with this text; a fired timer tells the empty one. */
  predicate Carries(e: Event, id: int, text: string) {
    || e == TaskCompleted(id, Some(text)) || e == TaskFailed(id, Some(text))
    || e == SubOrchestrationInstanceCompleted(id, Some(text)) || e == SubOrchestrationInstanceFailed(id, Some(text))
    || (e == TimerFired(id, true) && text == "")
  }

  /** The event resolves this task and tells nothing. */
  predicate Hollow(e: Event, id: int) {
    || e == TaskCompleted(id, None) || e == TaskFailed(id, None)
    || e == SubOrchestrationInstanceCompleted(id, None) || e == SubOrchestrationInstanceFailed(id, None)
    || e == TimerFired(id, false)
  }

  predicate Tells(e: Event, id: int, payload: Option<string>) {
    match payload
    case None => Hollow(e, id)
    case Some(text) => Carries(e, id, text)
  }

  /** Every resolution tells one thing of one task, and nothing else tells anything. */
  lemma ResolutionTells(e: Event, id: int, payload: Option<string>)
    ensures Tells(e, id, payload) <==> e.Resolves(id) && payload == e.Payload()
  {
  }

  /** The inputs after one more has been raised for a name. */
  function Raising(i: Inputs, name: string, input: string): Inputs {
    i.(raised := i.raised[name := i.Raised(name) + [input]])
  }

  /** What an event adds to the inputs, when ids 1..issued have been issued. The first resolution of an id wins. */
  function Hear(env: Env, i: Inputs, issued: nat, e: Event): Inputs {
    if e.IsResolution() then
      if 1 <= e.taskId <= issued && e.taskId !in i.resolved
      then i.(resolved := i.resolved[e.taskId := e.Payload()]) else i
    else if e.EventRaised? && e.input.Some? then Raising(i, env.lower(e.name), e.input.value)
    else i
  }

  function Silence(): Inputs {
    Inputs(map[], map[])
  }

  /** Everything the orchestrator has been told by the end of a history. */
  function Heard(env: Env, h: seq<Event>): Inputs {
    if h == [] then Silence()
    else
      var before := h[..|h| - 1];
      Hear(env, Heard(env, before), Run(env, before).thread.nextId, h[|h| - 1])
  }

  ghost predicate Drained(t: Thread) {
    t.actionTx == [] && t.taskTx == [] && t.eventTx == []
  }

  ghost predicate StatusFits(t: Thread) {
    match t.status
    case Absent => Affine(t.body) && t.body == Idle().body && t.trace == []
    case Blocked => Affine(t.body) && t.body(t.trace).tail.Await?
    case Returned(outcome) => Affine(t.body) && t.body(t.trace).tail == Return(outcome)
    case Panicked(_) => false
  }

  /** The invariant of event boundaries. */
  ghost predicate Boundary(env: Env, s: State, i: Inputs) {
    Drained(s.thread) && StatusFits(s.thread) && At(env, s, i, s.thread.nextId)
  }

  ghost predicate Settled(env: Env, s: State, i: Inputs) {
    Settles(env, s.thread.body, i, s.thread.trace)
  }

  /** The events, other than a start, that poll the orchestrator. */
  predicate Polls(env: Env, s: State, e: Event) {
    || e.IsPollingResolution() || e.ExecutionCompleted?
    || (e.EventRaised? && env.lower(e.name) in s.pendingEvents)
  }

  /** The events on which an unwrap or expect fires. */
  predicate Faults(env: Env, s: State, e: Event) {
    match s.thread.status
    case Absent => e.IsPollingResolution()
    case Returned(_) =>
      || e.ExecutionCompleted?
      || e.IsPollingResolution()
      || (e.TaskFailed? && e.taskId in s.pendingTasks && e.failure.Some?)
      || (e.EventRaised? && env.lower(e.name) in s.pendingEvents)
    case _ => false
  }

  lemma InitBoundary(env: Env)
    ensures Boundary(env, Init(), Silence())
  {
    assert OpsAt(Idle().body, []) == [];
    forall name
      ensures WaitersShowFor(env, map[], 0, [], Silence(), name) && MailShowsFor(env, map[], [], Silence(), name)
    {
    }
  }

  lemma DrainKeepsAt(env: Env, s: State, i: Inputs, drained: nat)
    requires At(env, s, i, drained)
    ensures Drained(Drain(s).thread) && At(env, Drain(s), i, s.thread.nextId)
  {
  }

  /** An awaited handle has yielded: it is never one that still waits. */
  lemma {:induction false} AwaitedYielded(env: Env, p: Program, i: Inputs, trace: seq<string>, h: nat)
    requires Follows(env, p, i, trace) && h in Awaited(p, trace)
    ensures h < |OpsAt(p, trace)| && Value(i, RefOf(env, OpsAt(p, trace), h)).Some?
  {
    var before := trace[..|trace| - 1];
    if h in Awaited(p, before) {
      AwaitedYielded(env, p, i, before, h);
    }
    RefStable(env, OpsAt(p, before), p(trace).ops, h);
  }

  // Deliveries.

  /** Sending to a waiting handle changes that slot to what the new inputs say, and no other. */
  lemma SlotFilled(env: Env, slots: seq<Slot>, awaited: set<nat>, to: nat, slot: Slot, ops: seq<Op>,
                   i: Inputs, more: Inputs)
    requires SlotsShow(env, slots, awaited, ops, i) && to < |ops| && to !in awaited
    requires SlotOf(env, ops, {}, more, to) == slot
    requires forall h: nat :: h < |ops| && h != to ==>
               SlotOf(env, ops, {}, more, h) == SlotOf(env, ops, {}, i, h)
    ensures SlotsShow(env, slots[to := slot], awaited, ops, more)
  {
    var slots' := slots[to := slot];
    forall h: nat | h < |ops|
      ensures SlotFits(env, slots', awaited, ops, more, h)
    {
      assert SlotFits(env, slots, awaited, ops, i, h);
      assert SlotOf(env, ops, {}, more, h) == SlotOf(env, ops, awaited, more, h) || h in awaited;
    }
  }

  /** Waiters and buffers depend on the raised inputs only. */
  lemma MailboxFrame(env: Env, w: map<string, seq<Sender>>, m: Mail, gen: nat, ops: seq<Op>, i: Inputs, more: Inputs)
    requires WaitersShow(env, w, gen, ops, i) && MailShows(env, m, ops, i) && more.raised == i.raised
    ensures WaitersShow(env, w, gen, ops, more) && MailShows(env, m, ops, more)
  {
    forall name
      ensures WaitersShowFor(env, w, gen, ops, more, name) && MailShowsFor(env, m, ops, more, name)
    {
      assert WaitersShowFor(env, w, gen, ops, i, name) && MailShowsFor(env, m, ops, i, name);
    }
  }

  /** The slot of a pending task waits, and resolving that task changes what no other handle shows. */
  lemma PendingTaskWaits(env: Env, s: State, i: Inputs, id: int, payload: Option<string>)
    requires Boundary(env, s, i) && id in s.pendingTasks
    ensures var ops := OpsAt(s.thread.body, s.thread.trace);
            var more := i.(resolved := i.resolved[id := payload]);
            && 1 <= id <= TaskCount(ops)
            && var to := TaskHandles(ops)[id - 1];
            && s.pendingTasks[id] == Sender(s.thread.gen, to) && to < |ops|
            && to !in Awaited(s.thread.body, s.thread.trace) && s.thread.slots[to] == Empty
            && SlotOf(env, ops, {}, more, to) == (if payload.Some? then Sent(payload) else SenderDropped)
            && (forall h: nat :: h < |ops| && h != to ==>
                  SlotOf(env, ops, {}, more, h) == SlotOf(env, ops, {}, i, h))
  {
    var t := s.thread;
    var ops := OpsAt(t.body, t.trace);
    assert TaskFits(s.pendingTasks, t.gen, ops, i.resolved, id);
    var to := TaskHandles(ops)[id - 1];
    TaskPlace(env, ops, id);
    assert SlotFits(env, t.slots, Awaited(t.body, t.trace), ops, i, to);
    if to in Awaited(t.body, t.trace) { AwaitedYielded(env, t.body, i, t.trace, to); }
    forall h: nat | h < |ops| && h != to
      ensures RefOf(env, ops, h) != TaskRef(id)
    {
      if h < to { RefsDistinct(env, ops, h, to); } else { RefsDistinct(env, ops, to, h); }
    }
  }

  lemma TaskResolved(m: map<int, Sender>, gen: nat, ops: seq<Op>, resolved: map<int, Option<string>>,
                     id: int, payload: Option<string>)
    requires TasksShow(m, gen, ops, resolved)
    ensures TasksShow(m - {id}, gen, ops, resolved[id := payload])
  {
    var m', resolved' := m - {id}, resolved[id := payload];
    forall other ensures TaskFits(m', gen, ops, resolved', other) {
      assert TaskFits(m, gen, ops, resolved, other);
    }
  }

  lemma DeliverShows(env: Env, s: State, i: Inputs, e: Event)
    requires Boundary(env, s, i) && e.IsResolution()
    requires s.thread.status.Blocked? || e.Payload().None? || e.taskId !in s.pendingTasks
    ensures var s' := Deliver(s, e.taskId, e.Payload());
            && s'.thread == s.thread.(slots := s'.thread.slots)
            && At(env, s', Hear(env, i, s.thread.nextId, e), s.thread.nextId)
  {
    var t, id := s.thread, e.taskId;
    var ops := OpsAt(t.body, t.trace);
    var more := Hear(env, i, t.nextId, e);
    var s' := Deliver(s, id, e.Payload());
    assert DrainInto(s.pendingTasks, []) == s.pendingTasks;
    assert TaskFits(s.pendingTasks, t.gen, ops, i.resolved, id);
    if id in s.pendingTasks {
      var to := TaskHandles(ops)[id - 1];
      TaskResolved(s.pendingTasks, t.gen, ops, i.resolved, id, e.Payload());
      PendingTaskWaits(env, s, i, id, e.Payload());
      var slot := if e.Payload().Some? then Sent(e.Payload()) else SenderDropped;
      SlotFilled(env, t.slots, Awaited(t.body, t.trace), to, slot, ops, i, more);
      MailboxFrame(env, s.pendingEvents, t.received, t.gen, ops, i, more);
      FollowsMonotone(env, t.body, i, more, t.trace);
    }
  }

  /** TaskFailed leaves what it tells at the handle of its task: its text, or that the sender is gone. */
  lemma FailureShown(env: Env, s: State, i: Inputs, e: Event)
    requires Boundary(env, s, i) && e.TaskFailed? && s.thread.status.Blocked? && e.taskId in s.pendingTasks
    ensures var to := s.pendingTasks[e.taskId].slot;
            && to < |s.thread.slots|
            && Step(env, s, e) == s.(pendingTasks := s.pendingTasks - {e.taskId},
                                     thread := s.thread.(slots := Step(env, s, e).thread.slots))
            && (Hollow(e, e.taskId) ==> Step(env, s, e).thread.slots == s.thread.slots[to := SenderDropped])
            && (forall text :: Carries(e, e.taskId, text) ==>
                  Step(env, s, e).thread.slots == s.thread.slots[to := Sent(Some(text))])
  {
    PendingTaskWaits(env, s, i, e.taskId, e.failure);
    var s1 := Deliver(s, e.taskId, e.failure);
    assert ProcessEvent(env, s, e) == s1;
    assert Drain(s1) == s1;
  }

  // Raised events.

  lemma RaiseSlots(env: Env, s: State, i: Inputs, name: string, input: string)
    requires Boundary(env, s, i) && name in s.pendingEvents
    ensures var ops := OpsAt(s.thread.body, s.thread.trace);
            var more := Raising(i, name, input);
            && s.pendingEvents[name] != []
            && |i.Raised(name)| < WaitCount(env, ops, name)
            && var to := WaitHandles(env, ops, name)[|i.Raised(name)|];
            && s.pendingEvents[name][0] == Sender(s.thread.gen, to) && to < |ops|
            && to !in Awaited(s.thread.body, s.thread.trace) && s.thread.slots[to] == Empty
            && SlotsShow(env, s.thread.slots[to := Sent(Some(input))], Awaited(s.thread.body, s.thread.trace),
                         ops, more)
  {
    var t := s.thread;
    var ops := OpsAt(t.body, t.trace);
    var more := Raising(i, name, input);
    var k := |i.Raised(name)|;
    assert DrainEvents(s.pendingEvents, []) == s.pendingEvents;
    assert WaitersShowFor(env, s.pendingEvents, t.gen, ops, i, name);
    var to := WaitHandles(env, ops, name)[k];
    WaitPlace(env, ops, name, k);
    assert SlotFits(env, t.slots, Awaited(t.body, t.trace), ops, i, to);
    if to in Awaited(t.body, t.trace) { AwaitedYielded(env, t.body, i, t.trace, to); }
    forall h: nat | h < |ops| && h != to
      ensures RefOf(env, ops, h) != SignalRef(name, k)
    {
      if h < to { RefsDistinct(env, ops, h, to); } else { RefsDistinct(env, ops, to, h); }
    }
    SlotFilled(env, t.slots, Awaited(t.body, t.trace), to, Sent(Some(input)), ops, i, more);
  }

  lemma WaiterPopped(env: Env, w: map<string, seq<Sender>>, m: Mail, gen: nat, ops: seq<Op>, i: Inputs,
                     name: string, input: string)
    requires WaitersShow(env, w, gen, ops, i) && MailShows(env, m, ops, i) && name in w
    ensures w[name] != []
    ensures WaitersShow(env, PopQueue(w, name), gen, ops, Raising(i, name, input))
    ensures MailShows(env, m, ops, Raising(i, name, input))
  {
    var more := Raising(i, name, input);
    assert WaitersShowFor(env, w, gen, ops, i, name);
    forall other
      ensures WaitersShowFor(env, PopQueue(w, name), gen, ops, more, other)
      ensures MailShowsFor(env, m, ops, more, other)
    {
      assert WaitersShowFor(env, w, gen, ops, i, other) && MailShowsFor(env, m, ops, i, other);
    }
  }

  lemma MailPushed(env: Env, w: map<string, seq<Sender>>, m: Mail, gen: nat, ops: seq<Op>, i: Inputs,
                   name: string, input: string)
    requires WaitersShow(env, w, gen, ops, i) && MailShows(env, m, ops, i) && name !in w
    ensures WaitersShow(env, w, gen, ops, Raising(i, name, input))
    ensures MailShows(env, PushQueue(m, name, Some(input)), ops, Raising(i, name, input))
  {
    var more := Raising(i, name, input);
    forall other
      ensures WaitersShowFor(env, w, gen, ops, more, other)
      ensures MailShowsFor(env, PushQueue(m, name, Some(input)), ops, more, other)
    {
      assert WaitersShowFor(env, w, gen, ops, i, other) && MailShowsFor(env, m, ops, i, other);
    }
  }

  lemma WaiterServed(env: Env, s: State, ops: seq<Op>, i: Inputs, drained: nat, name: string, input: string, to: nat)
    requires Shows(env, s, ops, i, drained) && Drained(s.thread) && name in s.pendingEvents
    requires to < |s.thread.slots|
    requires SlotsShow(env, s.thread.slots[to := Sent(Some(input))], Awaited(s.thread.body, s.thread.trace),
                       ops, Raising(i, name, input))
    ensures s.pendingEvents[name] != []
    ensures Shows(env, s.(pendingEvents := PopQueue(s.pendingEvents, name),
                          thread := s.thread.(slots := s.thread.slots[to := Sent(Some(input))])),
                  ops, Raising(i, name, input), drained)
  {
    assert DrainEvents(s.pendingEvents, []) == s.pendingEvents;
    WaiterPopped(env, s.pendingEvents, s.thread.received, s.thread.gen, ops, i, name, input);
  }

  lemma RaiseToWaiter(env: Env, s: State, i: Inputs, name: string, input: string)
    requires Boundary(env, s, i) && name in s.pendingEvents && s.thread.status.Blocked?
    ensures s.pendingEvents[name] != []
    ensures var s' := s.(pendingEvents := PopQueue(s.pendingEvents, name),
                         thread := Send(s.thread, s.pendingEvents[name][0], Some(input)));
            && s'.thread == s.thread.(slots := s'.thread.slots)
            && At(env, s', Raising(i, name, input), s.thread.nextId)
  {
    var t := s.thread;
    var ops := OpsAt(t.body, t.trace);
    RaiseSlots(env, s, i, name, input);
    FollowsMonotone(env, t.body, i, Raising(i, name, input), t.trace);
    WaiterServed(env, s, ops, i, t.nextId, name, input, WaitHandles(env, ops, name)[|i.Raised(name)|]);
  }

  /** A buffered input is seen by no handle yet. */
  lemma BufferUnseen(env: Env, slots: seq<Slot>, awaited: set<nat>, ops: seq<Op>, i: Inputs,
                     name: string, input: string)
    requires SlotsShow(env, slots, awaited, ops, i) && WaitCount(env, ops, name) <= |i.Raised(name)|
    ensures SlotsShow(env, slots, awaited, ops, Raising(i, name, input))
    ensures forall h: nat :: h < |ops| ==>
              Value(Raising(i, name, input), RefOf(env, ops, h)) == Value(i, RefOf(env, ops, h))
  {
    var more := Raising(i, name, input);
    forall h: nat | h < |ops|
      ensures Value(more, RefOf(env, ops, h)) == Value(i, RefOf(env, ops, h))
      ensures SlotFits(env, slots, awaited, ops, more, h)
    {
      RefPlace(env, ops, h);
      assert SlotFits(env, slots, awaited, ops, i, h);
    }
  }

  lemma InputBuffered(env: Env, s: State, ops: seq<Op>, i: Inputs, drained: nat, name: string, input: string)
    requires Shows(env, s, ops, i, drained) && Drained(s.thread) && name !in s.pendingEvents
    ensures Shows(env, s.(thread := s.thread.(received := PushQueue(s.thread.received, name, Some(input)))),
                  ops, Raising(i, name, input), drained)
    ensures forall h: nat :: h < |ops| ==>
              Value(Raising(i, name, input), RefOf(env, ops, h)) == Value(i, RefOf(env, ops, h))
  {
    assert DrainEvents(s.pendingEvents, []) == s.pendingEvents;
    assert WaitersShowFor(env, s.pendingEvents, s.thread.gen, ops, i, name);
    BufferUnseen(env, s.thread.slots, Awaited(s.thread.body, s.thread.trace), ops, i, name, input);
    MailPushed(env, s.pendingEvents, s.thread.received, s.thread.gen, ops, i, name, input);
  }

  lemma RaiseToBuffer(env: Env, s: State, i: Inputs, name: string, input: string)
    requires Boundary(env, s, i) && name !in s.pendingEvents
    ensures var s' := s.(thread := s.thread.(received := PushQueue(s.thread.received, name, Some(input))));
            && Boundary(env, s', Raising(i, name, input))
            && (Settled(env, s, i) ==> Settled(env, s', Raising(i, name, input)))
  {
    var t := s.thread;
    FollowsMonotone(env, t.body, i, Raising(i, name, input), t.trace);
    InputBuffered(env, s, OpsAt(t.body, t.trace), i, t.nextId, name, input);
  }

  // One event.

  /** Poll then drain, from a state that is at a boundary but for an unpolled delivery. */
  lemma PollDrains(env: Env, s: State, i: Inputs, quiet: bool)
    requires At(env, s, i, s.thread.nextId) && s.thread.status.Blocked? && Affine(s.thread.body)
    ensures var s1 := if quiet then PollQuietly(env, s) else Poll(env, s);
            var s' := Drain(s1);
            && !s1.thread.status.Panicked?
            && Boundary(env, s', i) && Settled(env, s', i)
            && s'.thread.gen == s.thread.gen && s'.thread.body == s.thread.body
            && s.thread.trace <= s'.thread.trace
            && !s'.thread.status.Absent?
            && ActionsShow(s1.thread.actionTx, OpsAt(s'.thread.body, s'.thread.trace), s.thread.nextId)
  {
    PollSettles(env, s, i, s.thread.nextId);
    var t := Resume(env, s.thread);
    var s1 := if quiet then PollQuietly(env, s) else Poll(env, s);
    assert s1.thread == t;
    assert At(env, s.(thread := t), i, s.thread.nextId);
    assert At(env, s1, i, s.thread.nextId);
    DrainKeepsAt(env, s1, i, s.thread.nextId);
  }

  /** TaskFailed delivers and does not poll. */
  lemma StepUnpolled(env: Env, s: State, i: Inputs, e: Event)
    requires Boundary(env, s, i) && e.TaskFailed? && s.thread.status.Blocked?
    ensures var s' := Step(env, s, e);
            var more := Hear(env, i, s.thread.nextId, e);
            && Boundary(env, s', more) && Issues(env, s, e, s')
            && s'.thread == s.thread.(slots := s'.thread.slots)
            && (Settled(env, s, i) && more == i ==> Settled(env, s', more))
  {
    hide Resume, SlotsShow, TasksShow, WaitersShow, MailShows, Follows, Deliver, Hear;
    var s1 := Deliver(s, e.taskId, e.Payload());
    DeliverShows(env, s, i, e);
    assert ProcessEvent(env, s, e) == s1;
    DrainKeepsAt(env, s1, Hear(env, i, s.thread.nextId, e), s.thread.nextId);
  }

  /** Every other resolution delivers and polls. */
  lemma StepPolling(env: Env, s: State, i: Inputs, e: Event)
    requires Boundary(env, s, i) && e.IsPollingResolution() && s.thread.status.Blocked?
    ensures var s' := Step(env, s, e);
            var more := Hear(env, i, s.thread.nextId, e);
            && Boundary(env, s', more) && Issues(env, s, e, s')
            && !s'.thread.status.Absent?
            && s'.thread.gen == s.thread.gen && s'.thread.body == s.thread.body
            && s.thread.trace <= s'.thread.trace && Settled(env, s', more)
  {
    hide At, Poll, PollQuietly, Drain, Deliver, Hear, ActionsShow, Settles;
    var s1 := Deliver(s, e.taskId, e.Payload());
    DeliverShows(env, s, i, e);
    assert ProcessEvent(env, s, e) == Poll(env, s1);
    PollDrains(env, s1, Hear(env, i, s.thread.nextId, e), false);
  }

  lemma StepResolution(env: Env, s: State, i: Inputs, e: Event)
    requires Boundary(env, s, i) && e.IsResolution() && s.thread.status.Blocked?
    ensures var s' := Step(env, s, e);
            var more := Hear(env, i, s.thread.nextId, e);
            && Boundary(env, s', more) && Issues(env, s, e, s')
            && !s'.thread.status.Absent?
            && s'.thread.gen == s.thread.gen && s'.thread.body == s.thread.body
            && s.thread.trace <= s'.thread.trace
            && (e.IsPollingResolution() || (Settled(env, s, i) && more == i) ==> Settled(env, s', more))
  {
    hide Step, Boundary, Issues, Settled, Hear;
    if e.TaskFailed? {
      StepUnpolled(env, s, i, e);
    } else {
      StepPolling(env, s, i, e);
    }
  }

  lemma StepRaise(env: Env, s: State, i: Inputs, e: Event)
    requires Boundary(env, s, i) && e.EventRaised? && e.input.Some? && !Faults(env, s, e)
    ensures var s' := Step(env, s, e);
            var more := Hear(env, i, s.thread.nextId, e);
            && Boundary(env, s', more) && Issues(env, s, e, s')
            && (s'.thread.status.Absent? <==> s.thread.status.Absent?)
            && s'.thread.gen == s.thread.gen && s'.thread.body == s.thread.body
            && s.thread.trace <= s'.thread.trace
            && (Settled(env, s, i) || Polls(env, s, e) ==> Settled(env, s', more))
  {
    var name, input := env.lower(e.name), e.input.value;
    if name in s.pendingEvents {
      assert s.thread.status.Blocked? by {
        if s.thread.status.Absent? { AbsentIdle(env, s, i, name); }
      }
      RaiseToWaiter(env, s, i, name, input);
      var s1 := s.(pendingEvents := PopQueue(s.pendingEvents, name),
                   thread := Send(s.thread, s.pendingEvents[name][0], Some(input)));
      PollDrains(env, s1, Raising(i, name, input), false);
    } else {
      RaiseToBuffer(env, s, i, name, input);
    }
  }

  /** Before the start nothing has been issued and nothing waits. */
  lemma AbsentIdle(env: Env, s: State, i: Inputs, name: string)
    requires Boundary(env, s, i) && s.thread.status.Absent?
    ensures s.pendingTasks == map[] && name !in s.pendingEvents && s.thread.nextId == 0 && s.thread.slots == []
    ensures i.resolved == map[]
  {
    assert OpsAt(Idle().body, []) == [];
    assert WaitersShowFor(env, s.pendingEvents, s.thread.gen, [], i, name);
    forall id ensures id !in s.pendingTasks {
      assert TaskFits(s.pendingTasks, s.thread.gen, [], i.resolved, id);
    }
    forall id ensures id !in i.resolved {
    }
  }

  lemma LaunchAt(env: Env, s: State, i: Inputs, body: Program)
    requires Boundary(env, s, i) && s.thread.status.Absent?
    ensures var t := Enter(env, Fresh(s.thread.gen + 1, body, s.thread.received));
            && t.status.Blocked? && t.body == body && t.trace == [] && t.gen == s.thread.gen + 1
            && At(env, s.(thread := t), i, 0)
  {
    var t0 := Fresh(s.thread.gen + 1, body, s.thread.received);
    var s0 := s.(thread := t0);
    AbsentIdle(env, s, i, "");
    assert OpsAt(Idle().body, []) == [];
    forall id ensures TaskFits(map[], t0.gen, [], map[], id) {
    }
    forall name
      ensures WaitersShowFor(env, s.pendingEvents, t0.gen, [], i, name)
    {
      assert WaitersShowFor(env, s.pendingEvents, s.thread.gen, [], i, name);
    }
    assert Shows(env, s0, [], i, 0);
    ShowsOps(env, s0, body([]).ops, [], i, 0);
    assert OpsAt(body, []) == [] + body([]).ops;
  }

  lemma LaunchSettles(env: Env, s: State, i: Inputs, body: Program)
    requires Boundary(env, s, i) && s.thread.status.Absent? && Affine(body)
    ensures var t := Launch(env, s.thread.gen + 1, body, s.thread.received);
            && At(env, s.(thread := t), i, 0) && Settles(env, body, i, t.trace) && t.body == body
            && t.status == (match body(t.trace).tail { case Await(_) => Blocked case Return(o) => Returned(o) })
  {
    var t := Enter(env, Fresh(s.thread.gen + 1, body, s.thread.received));
    LaunchAt(env, s, i, body);
    PollSettles(env, s.(thread := t), i, 0);
    assert s.(thread := t).(thread := Resume(env, t)) == s.(thread := Resume(env, t));
  }

  lemma StartStep(env: Env, s: State, e: Event)
    requires IsStart(env, e) && s.thread.status.Absent?
    ensures var t := Launch(env, s.thread.gen + 1, env.registry[e.name](e.input), s.thread.received);
            && (t.status.Blocked? ==> ProcessEvent(env, s, e) == s.(thread := t)
                                      && Step(env, s, e) == Drain(s.(thread := t)))
            && (t.status.Returned? ==> Step(env, s, e).thread.status.Absent?)
  {
    assert ProcessEvent(env, s, e) == Start(env, s, e.name, e.input);
  }

  /** A launched orchestrator that is blocked is at a boundary once its channels are drained. */
  lemma LaunchDrains(env: Env, s: State, i: Inputs, body: Program)
    requires Boundary(env, s, i) && s.thread.status.Absent? && Affine(body)
    requires Launch(env, s.thread.gen + 1, body, s.thread.received).status.Blocked?
    ensures var s1 := s.(thread := Launch(env, s.thread.gen + 1, body, s.thread.received));
            var s' := Drain(s1);
            && Boundary(env, s', i) && Settled(env, s', i)
            && s'.thread.status.Blocked? && s'.thread.body == body && s.thread.nextId == 0
            && ActionsShow(s1.thread.actionTx, OpsAt(s'.thread.body, s'.thread.trace), 0)
  {
    LaunchSettles(env, s, i, body);
    AbsentIdle(env, s, i, "");
    DrainKeepsAt(env, s.(thread := Launch(env, s.thread.gen + 1, body, s.thread.received)), i, 0);
  }

  lemma StepStart(env: Env, s: State, i: Inputs, e: Event)
    requires WellOwned(env) && Boundary(env, s, i) && IsStart(env, e) && s.thread.status.Absent?
    requires !Step(env, s, e).thread.status.Absent?
    ensures var s' := Step(env, s, e);
            && Boundary(env, s', i) && Settled(env, s', i) && Issues(env, s, e, s')
            && s'.thread.status.Blocked?
            && s'.thread.body == env.registry[e.name](e.input)
  {
    StartStep(env, s, e);
    LaunchSettles(env, s, i, env.registry[e.name](e.input));
    LaunchDrains(env, s, i, env.registry[e.name](e.input));
  }

  /** Events that reach neither the orchestrator nor its channels. */
  lemma StepAside(env: Env, s: State, i: Inputs, e: Event)
    requires Boundary(env, s, i) && !e.IsResolution() && !e.EventRaised? && !IsStart(env, e)
    requires e.ExecutionCompleted? ==> s.thread.status.Absent?
    ensures var s' := Step(env, s, e);
            && Boundary(env, s', i) && Issues(env, s, e, s')
            && s'.thread == s.thread && (Settled(env, s, i) ==> Settled(env, s', i))
  {
    var s1 := ProcessEvent(env, s, e);
    assert s1.thread == s.thread && s1.pendingTasks == s.pendingTasks && s1.pendingEvents == s.pendingEvents;
    assert At(env, s1, i, s.thread.nextId);
    DrainKeepsAt(env, s1, i, s.thread.nextId);
  }

  /** A resolution that faults nothing and finds no blocked orchestrator drops at most the sender of its task. */
  lemma StepLateResolution(env: Env, s: State, i: Inputs, e: Event)
    requires Boundary(env, s, i) && e.IsResolution() && !s.thread.status.Blocked? && !Faults(env, s, e)
    ensures var s' := Step(env, s, e);
            && s'.thread == s.thread.(slots := s'.thread.slots)
            && Boundary(env, s', Hear(env, i, s.thread.nextId, e)) && Issues(env, s, e, s')
            && (s.thread.status.Absent? && Settled(env, s, i) ==> Settled(env, s', Hear(env, i, s.thread.nextId, e)))
  {
    if s.thread.status.Absent? { AbsentIdle(env, s, i, ""); }
    DeliverShows(env, s, i, e);
    DrainKeepsAt(env, Deliver(s, e.taskId, e.Payload()), Hear(env, i, s.thread.nextId, e), s.thread.nextId);
  }

  lemma PollFaults(env: Env, s: State)
    requires !s.thread.status.Blocked?
    ensures Poll(env, s).thread.status.Panicked?
  {
  }

  lemma FaultFires(env: Env, s: State, e: Event)
    requires Faults(env, s, e) && (s.thread.status.Absent? ==> s.pendingTasks == map[])
    ensures Step(env, s, e).thread.status.Panicked?
  {
    if e.IsPollingResolution() {
      var s1 := Deliver(s, e.taskId, e.Payload());
      assert !s1.thread.status.Blocked?;
      PollFaults(env, s1);
      assert ProcessEvent(env, s, e) == Poll(env, s1);
    } else if e.EventRaised? {
      var name := env.lower(e.name);
      assert ProcessEvent(env, s, e) == Raise(env, s, name, e.input);
      if s.pendingEvents[name] != [] {
        PollFaults(env, s.(pendingEvents := PopQueue(s.pendingEvents, name),
                           thread := Send(s.thread, s.pendingEvents[name][0], e.input)));
      }
    }
  }

  /** What the event left in the actions channel: the schedulings of exactly the ids it issued, in order. */
  ghost predicate Issues(env: Env, s: State, e: Event, s': State) {
    && Step(env, s, e) == Drain(ProcessEvent(env, s, e)) == s'
    && ActionsShow(ProcessEvent(env, s, e).thread.actionTx, OpsAt(s'.thread.body, s'.thread.trace), s.thread.nextId)
  }

  /** How one event moves the boundary: what every step of an admissible history keeps. */
  ghost predicate Advances(env: Env, s: State, i: Inputs, e: Event, s': State) {
    var more := Hear(env, i, s.thread.nextId, e);
    && Boundary(env, s', more)
    && Issues(env, s, e, s')
    && (s'.thread.status.Absent? <==> s.thread.status.Absent? && !IsStart(env, e))
    && (!s.thread.status.Absent? ==>
          s'.thread.gen == s.thread.gen && s'.thread.body == s.thread.body && s.thread.trace <= s'.thread.trace)
    && (s.thread.status.Absent? && IsStart(env, e) ==> s'.thread.body == env.registry[e.name](e.input))
    && (Settled(env, s, i) && !(e.TaskFailed? && more != i) ==> Settled(env, s', more))
    && (Polls(env, s, e) || IsStart(env, e) ==> s'.thread.status.Absent? || Settled(env, s', more))
  }

  /** One admissible event either fires an unwrap or expect, exactly when `Faults` says so, or keeps the invariant. */
  lemma StepAdvances(env: Env, s: State, i: Inputs, e: Event)
    requires WellOwned(env) && Boundary(env, s, i) && AdmissibleEvent(env, s, e)
    ensures Step(env, s, e).thread.status.Panicked? <==> Faults(env, s, e)
    ensures !Faults(env, s, e) ==> Advances(env, s, i, e, Step(env, s, e))
  {
    if Faults(env, s, e) {
      if s.thread.status.Absent? { AbsentIdle(env, s, i, ""); }
      FaultFires(env, s, e);
    } else if e.IsResolution() {
      if s.thread.status.Blocked? {
        StepResolution(env, s, i, e);
      } else {
        StepLateResolution(env, s, i, e);
      }
    } else if e.EventRaised? {
      StepRaise(env, s, i, e);
    } else if IsStart(env, e) {
      StepStart(env, s, i, e);
    } else if e.ExecutionCompleted? && s.thread.status.Blocked? {
      PollDrains(env, s, i, true);
    } else {
      StepAside(env, s, i, e);
    }
  }
}
