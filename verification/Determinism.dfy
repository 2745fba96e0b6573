/** The order and the polling of deliveries do not matter; idle events are stutters; logs only grow. */
module Determinism {
  import opened Types
  import opened Orchestrator
  import opened Replay
  import opened Meaning
  import opened Simulation
  import opened Boundaries
  import opened Refinement
  import opened Actions
  import opened Completions

  // A boundary is determined by the program, its position and the inputs heard.

  lemma ThreadDetermined(env: Env, a: State, b: State, i: Inputs)
    requires Boundary(env, a, i) && Boundary(env, b, i)
    requires a.thread.gen == b.thread.gen && a.thread.body == b.thread.body && a.thread.trace == b.thread.trace
    requires a.thread.status.Absent? <==> b.thread.status.Absent?
    ensures a.thread == b.thread
  {
    var t, u := a.thread, b.thread;
    var ops := OpsAt(t.body, t.trace);
    forall h: nat | h < |ops| ensures t.slots[h] == u.slots[h] {
      assert SlotFits(env, t.slots, Awaited(t.body, t.trace), ops, i, h);
      assert SlotFits(env, u.slots, Awaited(u.body, u.trace), ops, i, h);
    }
    forall name
      ensures name in t.received <==> name in u.received
      ensures name in t.received ==> t.received[name] == u.received[name]
    {
      assert MailShowsFor(env, t.received, ops, i, name) && MailShowsFor(env, u.received, ops, i, name);
    }
    assert t.received == u.received;
    assert t.slots == u.slots;
  }

  lemma PendingDetermined(env: Env, a: State, b: State, i: Inputs)
    requires Boundary(env, a, i) && Boundary(env, b, i)
    requires a.thread.gen == b.thread.gen && a.thread.body == b.thread.body && a.thread.trace == b.thread.trace
    ensures a.pendingTasks == b.pendingTasks && a.pendingEvents == b.pendingEvents
  {
    var t := a.thread;
    var ops := OpsAt(t.body, t.trace);
    forall id
      ensures id in a.pendingTasks <==> id in b.pendingTasks
      ensures id in a.pendingTasks ==> a.pendingTasks[id] == b.pendingTasks[id]
    {
      assert TaskFits(a.pendingTasks, t.gen, ops, i.resolved, id);
      assert TaskFits(b.pendingTasks, t.gen, ops, i.resolved, id);
    }
    forall name
      ensures name in a.pendingEvents <==> name in b.pendingEvents
      ensures name in a.pendingEvents ==> a.pendingEvents[name] == b.pendingEvents[name]
    {
      assert WaitersShowFor(env, a.pendingEvents, t.gen, ops, i, name);
      assert WaitersShowFor(env, b.pendingEvents, t.gen, ops, i, name);
    }
  }

  // Batches of deliveries.

  /** A batch resolves distinct tasks. */
  ghost predicate IsBatch(es: seq<Event>) {
    && (forall e :: e in es ==> e.IsResolution())
    && forall j: nat, k: nat ::
         j < k < |es| && es[j].IsResolution() && es[k].IsResolution() ==> es[j].taskId != es[k].taskId
  }

  /** What the batch answers, by task id. */
  function Answers(es: seq<Event>): map<int, Option<string>> {
    if es == [] then map[]
    else
      var e := es[|es| - 1];
      if e.IsResolution() then Answers(es[..|es| - 1])[e.taskId := e.Payload()] else Answers(es[..|es| - 1])
  }

  lemma {:induction false} AnswersAre(es: seq<Event>, id: int)
    requires IsBatch(es)
    ensures id in Answers(es) <==> exists j: nat :: j < |es| && es[j].Resolves(id)
    ensures forall j: nat :: j < |es| && es[j].Resolves(id) ==> id in Answers(es) && Answers(es)[id] == es[j].Payload()
  {
    if es != [] {
      var before := es[..|es| - 1];
      assert forall e :: e in before ==> e in es;
      assert es[|es| - 1] in es;
      AnswersAre(before, id);
      assert forall j: nat :: j < |before| ==> before[j] == es[j];
      assert es[|es| - 1].Resolves(id) || !es[|es| - 1].Resolves(id);
    }
  }

  lemma BatchPrefix(es: seq<Event>)
    requires IsBatch(es) && es != []
    ensures IsBatch(es[..|es| - 1]) && es[|es| - 1].IsResolution()
    ensures es[|es| - 1].taskId !in Answers(es[..|es| - 1])
  {
    var before := es[..|es| - 1];
    assert forall e :: e in before ==> e in es;
    assert es[|es| - 1] in es;
    assert forall j: nat :: j < |before| ==> before[j] == es[j];
    AnswersAre(before, es[|es| - 1].taskId);
  }

  /** Every task the batch resolves has been issued and is still pending. */
  ghost predicate Outstanding(s: State, es: seq<Event>) {
    forall e :: e in es && e.IsResolution() ==> e.taskId in s.pendingTasks
  }

  function Answered(i: Inputs, es: seq<Event>): Inputs {
    i.(resolved := i.resolved + Answers(es))
  }

  predicate EndsPolled(es: seq<Event>) {
    es != [] && es[|es| - 1].IsPollingResolution()
  }

  function LogOf(s: State): seq<Op> {
    OpsAt(s.thread.body, s.thread.trace)
  }

  /** Nothing but the schedulings of newly issued ids has been added to the pending actions. */
  ghost predicate ActionsGrow(s: State, s': State, log': seq<Op>) {
    var n, n' := s.thread.nextId, s'.thread.nextId;
    && n <= n' == TaskCount(log')
    && s'.pendingActions == s.pendingActions + Issued(log', n, n')
    && s'.sequenceNumber == if n < n' then n' else s.sequenceNumber
  }

  ghost predicate SameRun(s: State, s': State) {
    && s'.thread.gen == s.thread.gen && s'.thread.body == s.thread.body
    && s.thread.trace <= s'.thread.trace && s.thread.nextId <= s'.thread.nextId
  }

  /** What deliveries leave behind: a boundary further along the same run, and schedulings of the ids it issued. */
  ghost predicate Reached(env: Env, s: State, i: Inputs, s': State) {
    && Boundary(env, s', i) && SameRun(s, s') && !s'.thread.status.Absent?
    && (s'.thread.status.Blocked? ==> ActionsGrow(s, s', LogOf(s')))
  }

  lemma IssuedJoin(env: Env, ops: seq<Op>, more: seq<Op>, from: nat, mid: nat)
    requires ops <= more && from <= mid == TaskCount(ops)
    ensures mid <= TaskCount(more)
    ensures Issued(ops, from, mid) + Issued(more, mid, TaskCount(more)) == Issued(more, from, TaskCount(more))
  {
    HandlesGrow(env, ops, more, "");
    forall id: nat | from < id <= mid ensures CallOf(ops, id) == CallOf(more, id) {
      CallStable(env, ops, more, id);
    }
  }

  lemma ActionsGrowNot(s: State, log: seq<Op>)
    requires s.thread.nextId == TaskCount(log)
    ensures ActionsGrow(s, s, log)
  {
    assert s.pendingActions + Issued(log, s.thread.nextId, s.thread.nextId) == s.pendingActions;
  }

  lemma ActionsGrowJoin(env: Env, s0: State, s: State, s': State, log: seq<Op>, log': seq<Op>)
    requires ActionsGrow(s0, s, log) && ActionsGrow(s, s', log') && log <= log'
    ensures ActionsGrow(s0, s', log')
  {
    IssuedJoin(env, log, log', s0.thread.nextId, s.thread.nextId);
    var a, b := Issued(log, s0.thread.nextId, s.thread.nextId), Issued(log', s.thread.nextId, s'.thread.nextId);
    assert s0.pendingActions + a + b == s0.pendingActions + (a + b);
  }

  /** Events that neither confirm nor terminate. */
  predicate Plain(e: Event) {
    !e.IsConfirmation() && !e.ExecutionTerminated?
  }

  lemma NothingMinted(s: State, e: Event, s': State)
    requires Plain(e) && s'.thread.status.Blocked?
    ensures !Mints(s, e, s') && Recorded(s, e, s') == s.pendingActions
  {
  }

  lemma BatchStep(env: Env, s: State, i: Inputs, e: Event)
    requires WellOwned(env) && Boundary(env, s, i) && !s.thread.status.Absent? && Plain(e)
    requires AdmissibleEvent(env, s, e) && !Step(env, s, e).thread.status.Panicked?
    ensures var s', more := Step(env, s, e), Hear(env, i, s.thread.nextId, e);
            && Reached(env, s, more, s')
            && (s.thread.status.Returned? ==> s'.thread.status.Returned?)
            && (Polls(env, s, e) ==> Settled(env, s', more))
  {
    hide Step, Recorded, Mints, OpsAt, Awaited, Follows, Faults, Issued;
    StepAdvances(env, s, i, e);
    StepActions(env, s, i, e);
    if s.thread.status.Returned? {
      ReturnedStep(env, s, i, e);
    }
    if Step(env, s, e).thread.status.Blocked? {
      NothingMinted(s, e, Step(env, s, e));
    }
  }

  lemma ReachedStep(env: Env, s: State, s1: State, i: Inputs, e: Event)
    requires WellOwned(env) && Reached(env, s, i, s1) && Plain(e)
    requires AdmissibleEvent(env, s1, e) && !Step(env, s1, e).thread.status.Panicked?
    ensures var s', more := Step(env, s1, e), Hear(env, i, s1.thread.nextId, e);
            Reached(env, s, more, s') && (Polls(env, s1, e) ==> Settled(env, s', more))
  {
    hide Step;
    BatchStep(env, s1, i, e);
    var s' := Step(env, s1, e);
    OpsGrow(s1.thread.body, s1.thread.trace, s'.thread.trace);
    if s'.thread.status.Blocked? {
      ActionsGrowJoin(env, s, s1, s', LogOf(s1), LogOf(s'));
    }
  }

  lemma ReachedSelf(env: Env, s: State, i: Inputs)
    requires Boundary(env, s, i) && s.thread.status.Blocked?
    ensures Reached(env, s, i, s)
  {
    ActionsGrowNot(s, LogOf(s));
  }

  /** A batch of deliveries to a blocked orchestrator. */
  lemma {:induction false} BatchReaches(env: Env, s: State, i: Inputs, es: seq<Event>) returns (more: Inputs)
    requires WellOwned(env) && Boundary(env, s, i) && s.thread.status.Blocked? && IsBatch(es)
    requires !RunFrom(env, s, es).thread.status.Panicked?
    ensures Reached(env, s, more, RunFrom(env, s, es))
    ensures Outstanding(s, es) ==> more == Answered(i, es)
    ensures EndsPolled(es) ==> Settled(env, RunFrom(env, s, es), more)
  {
    hide Step, Boundary, Settled;
    if es == [] {
      more := i;
      assert Answered(i, es) == i;
      ReachedSelf(env, s, i);
    } else {
      var before, e := es[..|es| - 1], es[|es| - 1];
      var s1 := RunFrom(env, s, before);
      BatchPrefix(es);
      PanicSticks(env, s1, e);
      var mid := BatchReaches(env, s, i, before);
      more := Hear(env, mid, s1.thread.nextId, e);
      ReachedStep(env, s, s1, mid, e);
      if Outstanding(s, es) {
        OutstandingHeard(env, s, i, es, s1.thread.nextId);
      }
    }
  }

  /** The last delivery of a batch is heard, since its task was outstanding and nothing before it resolves it. */
  lemma OutstandingHeard(env: Env, s: State, i: Inputs, es: seq<Event>, issued: nat)
    requires Boundary(env, s, i) && IsBatch(es) && es != [] && Outstanding(s, es) && s.thread.nextId <= issued
    ensures Outstanding(s, es[..|es| - 1])
    ensures Hear(env, Answered(i, es[..|es| - 1]), issued, es[|es| - 1]) == Answered(i, es)
  {
    var before, e := es[..|es| - 1], es[|es| - 1];
    assert forall e' :: e' in before ==> e' in es;
    BatchPrefix(es);
    assert e in es;
    assert TaskFits(s.pendingTasks, s.thread.gen, LogOf(s), i.resolved, e.taskId);
    assert (i.resolved + Answers(before))[e.taskId := e.Payload()] == i.resolved + Answers(es);
  }

  /** A delivery cannot make the orchestrator return when more inputs than it brings leave the program at an await. */
  lemma StepStaysBlocked(env: Env, s: State, i: Inputs, e: Event, total: Inputs, settled: seq<string>)
    requires WellOwned(env) && Boundary(env, s, i) && s.thread.status.Blocked? && e.IsResolution()
    requires Hear(env, i, s.thread.nextId, e).Within(total)
    requires Settles(env, s.thread.body, total, settled) && s.thread.body(settled).tail.Await?
    ensures Step(env, s, e).thread.status.Blocked?
  {
    hide Step;
    StepAdvances(env, s, i, e);
    var t := Step(env, s, e).thread;
    var more := Hear(env, i, s.thread.nextId, e);
    MeaningMonotone(env, s.thread.body, more, total, t.trace, settled);
    if t.body(t.trace).tail.Return? {
      NothingFollowsReturn(env, t.body, total, t.trace, settled);
    }
  }

  lemma AnsweredGrows(env: Env, s: State, i: Inputs, es: seq<Event>)
    requires Boundary(env, s, i) && IsBatch(es) && es != [] && Outstanding(s, es)
    ensures Answered(i, es[..|es| - 1]).Within(Answered(i, es))
  {
    var e := es[|es| - 1];
    assert e in es;
    assert TaskFits(s.pendingTasks, s.thread.gen, LogOf(s), i.resolved, e.taskId);
    BatchPrefix(es);
  }

  /** Nor can a batch of deliveries. */
  lemma {:induction false} BatchStaysBlocked(env: Env, s: State, i: Inputs, es: seq<Event>,
                                             total: Inputs, settled: seq<string>)
    requires WellOwned(env) && Boundary(env, s, i) && s.thread.status.Blocked?
    requires IsBatch(es) && Outstanding(s, es) && Answered(i, es).Within(total)
    requires Settles(env, s.thread.body, total, settled) && s.thread.body(settled).tail.Await?
    ensures RunFrom(env, s, es).thread.status.Blocked?
  {
    hide Step;
    if es != [] {
      var before := es[..|es| - 1];
      BatchPrefix(es);
      assert forall e' :: e' in before ==> e' in es;
      AnsweredGrows(env, s, i, es);
      BatchStaysBlocked(env, s, i, before, total, settled);
      var s1 := RunFrom(env, s, before);
      var mid := BatchReaches(env, s, i, before);
      OutstandingHeard(env, s, i, es, s1.thread.nextId);
      StepStaysBlocked(env, s1, mid, es[|es| - 1], total, settled);
    }
  }

  /**
   * Two batches with the same answers have the same effect on the whole state of the engine, whatever
   * their order and whichever of the deliveries poll, provided both end in a poll and the first does
   * not make the orchestrator return.
   */
  lemma {:induction false} BatchesAgree(env: Env, s: State, i: Inputs, es1: seq<Event>, es2: seq<Event>)
    requires WellOwned(env) && Boundary(env, s, i) && s.thread.status.Blocked?
    requires IsBatch(es1) && Outstanding(s, es1) && EndsPolled(es1) && RunFrom(env, s, es1).thread.status.Blocked?
    requires IsBatch(es2) && Outstanding(s, es2) && EndsPolled(es2) && Answers(es1) == Answers(es2)
    ensures RunFrom(env, s, es1) == RunFrom(env, s, es2)
  {
    hide Step, RunFrom;
    var a, b := RunFrom(env, s, es1), RunFrom(env, s, es2);
    var more := BatchReaches(env, s, i, es1);
    BatchStaysBlocked(env, s, i, es2, more, a.thread.trace);
    var also := BatchReaches(env, s, i, es2);
    assert more == also;
    MeaningUnique(env, s.thread.body, more, a.thread.trace, b.thread.trace);
    ThreadDetermined(env, a, b, more);
    PendingDetermined(env, a, b, more);
  }

  lemma PermutationAnswers(es1: seq<Event>, es2: seq<Event>)
    requires IsBatch(es1) && IsBatch(es2) && multiset(es1) == multiset(es2)
    ensures Answers(es1) == Answers(es2)
  {
    forall id
      ensures id in Answers(es1) <==> id in Answers(es2)
      ensures id in Answers(es1) ==> Answers(es1)[id] == Answers(es2)[id]
    {
      AnswersAre(es1, id);
      AnswersAre(es2, id);
      forall j: nat | j < |es1| && es1[j].Resolves(id)
        ensures exists k: nat :: k < |es2| && es2[k].Resolves(id) && es2[k] == es1[j]
      {
        assert es1[j] in multiset(es2);
      }
      forall j: nat | j < |es2| && es2[j].Resolves(id)
        ensures exists k: nat :: k < |es1| && es1[k].Resolves(id) && es1[k] == es2[j]
      {
        assert es2[j] in multiset(es1);
      }
    }
  }

  lemma PermutationOutstanding(s: State, es1: seq<Event>, es2: seq<Event>)
    requires Outstanding(s, es1) && multiset(es1) == multiset(es2)
    ensures Outstanding(s, es2)
  {
    forall e | e in es2 ensures e in es1 {
      assert e in multiset(es2);
    }
  }

  /**
   * Order independence. After any admissible history that leaves the orchestrator blocked, delivering
   * resolutions for any set of distinct outstanding tasks in any two orders leaves the engine in the
   * same state, if neither order ends in TaskFailed and one of them leaves the orchestrator blocked.
   */
  lemma {:induction false} OrderIndependence(env: Env, h: seq<Event>, es1: seq<Event>, es2: seq<Event>)
    requires WellOwned(env) && Admissible(env, h) && Run(env, h).thread.status.Blocked?
    requires IsBatch(es1) && IsBatch(es2) && multiset(es1) == multiset(es2)
    requires Outstanding(Run(env, h), es1) && EndsPolled(es1) && EndsPolled(es2)
    requires Run(env, h + es1).thread.status.Blocked?
    ensures Run(env, h + es1) == Run(env, h + es2)
  {
    hide Step, RunFrom;
    RunBoundary(env, h);
    RunFromSplit(env, Init(), h, es1);
    RunFromSplit(env, Init(), h, es2);
    PermutationAnswers(es1, es2);
    PermutationOutstanding(Run(env, h), es1, es2);
    BatchesAgree(env, Run(env, h), Heard(env, h), es1, es2);
  }

  // The order in which an orchestrator returns.

  /** What the returning poll of a batch files, and under which id. */
  ghost predicate EndsReturned(s: State, mid: State, end: State) {
    var c := mid.sequenceNumber + 1;
    && end.thread.status.Returned? && mid.thread.nextId < c
    && s.thread.nextId <= mid.thread.nextId <= end.thread.nextId == TaskCount(LogOf(end))
    && end.pendingActions == s.pendingActions[c := Completion(c, end.thread.status.outcome)]
                             + Issued(LogOf(end), s.thread.nextId, end.thread.nextId)
    && end.sequenceNumber == (if mid.thread.nextId < end.thread.nextId then end.thread.nextId else c)
    && (s.thread.nextId < mid.thread.nextId ==> c == mid.thread.nextId + 1)
    && (s.thread.nextId == mid.thread.nextId ==> c == s.sequenceNumber + 1)
  }

  lemma FiledJoin(m: map<int, Action>, first: map<int, Action>, rest: map<int, Action>, c: int, filed: Action)
    requires c !in first
    ensures (m + first)[c := filed] + rest == m[c := filed] + (first + rest)
  {
  }

  /** A polling delivery in which the orchestrator returns finds it blocked. */
  lemma ReturnsFromBlocked(env: Env, s: State, i: Inputs, e: Event)
    requires WellOwned(env) && Boundary(env, s, i) && !s.thread.status.Absent?
    requires e.IsPollingResolution() && !Step(env, s, e).thread.status.Panicked?
    ensures s.thread.status.Blocked?
  {
    hide Step;
    StepAdvances(env, s, i, e);
  }

  lemma LogsGrow(s: State, s': State)
    requires SameRun(s, s')
    ensures LogOf(s) <= LogOf(s')
  {
    OpsGrow(s.thread.body, s.thread.trace, s'.thread.trace);
  }

  /** What a polling delivery in which the orchestrator returns does to the actions. */
  lemma ReturnRecorded(env: Env, mid: State, i: Inputs, e: Event)
    requires WellOwned(env) && Boundary(env, mid, i) && mid.thread.status.Blocked?
    requires e.IsPollingResolution() && Step(env, mid, e).thread.status.Returned?
    ensures var end, c := Step(env, mid, e), mid.sequenceNumber + 1;
            && mid.thread.nextId <= end.thread.nextId == TaskCount(LogOf(end)) && LogOf(mid) <= LogOf(end)
            && end.pendingActions == mid.pendingActions[c := Completion(c, end.thread.status.outcome)]
                                     + Issued(LogOf(end), mid.thread.nextId, end.thread.nextId)
            && end.sequenceNumber == (if mid.thread.nextId < end.thread.nextId then end.thread.nextId else c)
  {
    hide Step, Boundary, Issued, OpsAt, ActionsGrow, Settled, Hear;
    ReturnAdvances(env, mid, i, e);
    StepActions(env, mid, i, e);
    LogsGrow(mid, Step(env, mid, e));
  }

  lemma ReturnAdvances(env: Env, mid: State, i: Inputs, e: Event)
    requires WellOwned(env) && Boundary(env, mid, i) && mid.thread.status.Blocked?
    requires e.IsPollingResolution() && Step(env, mid, e).thread.status.Returned?
    ensures !Faults(env, mid, e) && SameRun(mid, Step(env, mid, e))
  {
    hide Step, Boundary;
    BatchStep(env, mid, i, e);
  }

  /** The last delivery of a batch, in which the orchestrator returns. */
  lemma LastReturns(env: Env, s: State, mid: State, i: Inputs, e: Event)
    requires WellOwned(env) && Boundary(env, mid, i) && mid.thread.status.Blocked?
    requires ActionsGrow(s, mid, LogOf(mid)) && s.thread.nextId <= s.sequenceNumber
    requires e.IsPollingResolution() && Step(env, mid, e).thread.status.Returned?
    ensures EndsReturned(s, mid, Step(env, mid, e))
  {
    hide Step, Boundary, OpsAt;
    ReturnRecorded(env, mid, i, e);
    var end, c := Step(env, mid, e), mid.sequenceNumber + 1;
    IssuedJoin(env, LogOf(mid), LogOf(end), s.thread.nextId, mid.thread.nextId);
    FiledJoin(s.pendingActions, Issued(LogOf(mid), s.thread.nextId, mid.thread.nextId),
              Issued(LogOf(end), mid.thread.nextId, end.thread.nextId), c, Completion(c, end.thread.status.outcome));
  }

  /** A batch in which the orchestrator returns: it returns in the last delivery. */
  lemma {:induction false} BatchReturns(env: Env, s: State, i: Inputs, es: seq<Event>)
    requires WellOwned(env) && Boundary(env, s, i) && s.thread.status.Blocked? && s.thread.nextId <= s.sequenceNumber
    requires IsBatch(es) && EndsPolled(es) && RunFrom(env, s, es).thread.status.Returned?
    ensures EndsReturned(s, RunFrom(env, s, es[..|es| - 1]), RunFrom(env, s, es))
  {
    hide Step, Boundary, EndsReturned, SameRun, ActionsGrow;
    var before, e := es[..|es| - 1], es[|es| - 1];
    var mid := RunFrom(env, s, before);
    BatchPrefix(es);
    PanicSticks(env, mid, e);
    var more := BatchReaches(env, s, i, before);
    ReturnsFromBlocked(env, mid, more, e);
    LastReturns(env, s, mid, more, e);
  }

  /** Two returning polls, which bring the issued ids up to `issued`, both issue an action or both do not. */
  predicate IssueAlike(mid1: State, mid2: State, issued: nat) {
    mid1.thread.nextId < issued <==> mid2.thread.nextId < issued
  }

  /** They also leave the same actions and the same counter. */
  predicate FileAlike(mid1: State, mid2: State, issued: nat) {
    && IssueAlike(mid1, mid2, issued)
    && (mid1.sequenceNumber == mid2.sequenceNumber
        || (mid1.sequenceNumber < issued && mid2.sequenceNumber < issued))
  }

  /** The two states hold the same schedulings. */
  ghost predicate SameSchedulings(a: State, b: State) {
    forall id :: id <= a.thread.nextId ==>
      && (id in a.pendingActions <==> id in b.pendingActions)
      && (id in a.pendingActions ==> a.pendingActions[id] == b.pendingActions[id])
  }

  /** One return files its completion beyond the issued ids, and the other files none there. */
  lemma FiledApart(s: State, c1: int, c2: int, done1: Action, done2: Action, issued: map<int, Action>)
    requires !HasOutcome(s, c1) && c1 != c2 && c1 !in issued
    requires done1.kind.Complete? && done1.kind.status != Terminated
    ensures s.pendingActions[c1 := done1] + issued != s.pendingActions[c2 := done2] + issued
  {
    var m1, m2 := s.pendingActions[c1 := done1] + issued, s.pendingActions[c2 := done2] + issued;
    assert m1[c1] == done1;
    assert c1 in m2 ==> m2[c1] == s.pendingActions[c1];
  }

  /** Both returns file their completions under ids that issued calls take. */
  lemma FiledUnder(m: map<int, Action>, c1: int, c2: int, done1: Action, done2: Action, issued: map<int, Action>)
    requires c1 in issued && c2 in issued
    ensures m[c1 := done1] + issued == m[c2 := done2] + issued
  {
  }

  lemma EndsCompare(s: State, mid1: State, mid2: State, a: State, b: State)
    requires EndsReturned(s, mid1, a) && EndsReturned(s, mid2, b) && a.thread == b.thread
    requires forall id :: !HasOutcome(s, id)
    ensures (a.pendingActions == b.pendingActions && a.sequenceNumber == b.sequenceNumber)
            <==> FileAlike(mid1, mid2, a.thread.nextId)
  {
    hide HasOutcome, OpsAt;
    var n, c1, c2 := a.thread.nextId, mid1.sequenceNumber + 1, mid2.sequenceNumber + 1;
    var issued, outcome := Issued(LogOf(a), s.thread.nextId, n), a.thread.status.outcome;
    if c1 != c2 && c1 > n {
      FiledApart(s, c1, c2, Completion(c1, outcome), Completion(c2, outcome), issued);
    } else if c1 != c2 && c2 > n {
      FiledApart(s, c2, c1, Completion(c2, outcome), Completion(c1, outcome), issued);
    } else if c1 != c2 {
      FiledUnder(s.pendingActions, c1, c2, Completion(c1, outcome), Completion(c2, outcome), issued);
    }
  }

  lemma PlainFiling(s: State, mid1: State, mid2: State, a: State, b: State)
    requires EndsReturned(s, mid1, a) && EndsReturned(s, mid2, b) && a.thread == b.thread
    requires s.sequenceNumber == s.thread.nextId
    ensures FileAlike(mid1, mid2, a.thread.nextId) <==> IssueAlike(mid1, mid2, a.thread.nextId)
  {
    hide Issued, OpsAt;
  }

  lemma EndsSchedule(s: State, mid1: State, mid2: State, a: State, b: State)
    requires EndsReturned(s, mid1, a) && EndsReturned(s, mid2, b) && a.thread == b.thread
    ensures SameSchedulings(a, b)
  {
    hide OpsAt;
  }

  /** Two batches with the same answers that end polled, without a panic, leave the orchestrator at the same place. */
  lemma {:induction false} BatchesPlaceAlike(env: Env, s: State, i: Inputs, es1: seq<Event>, es2: seq<Event>)
    requires WellOwned(env) && Boundary(env, s, i) && s.thread.status.Blocked?
    requires IsBatch(es1) && Outstanding(s, es1) && EndsPolled(es1) && !RunFrom(env, s, es1).thread.status.Panicked?
    requires IsBatch(es2) && Outstanding(s, es2) && EndsPolled(es2) && !RunFrom(env, s, es2).thread.status.Panicked?
    requires Answers(es1) == Answers(es2)
    ensures var a, b := RunFrom(env, s, es1), RunFrom(env, s, es2);
            a.thread == b.thread && a.pendingTasks == b.pendingTasks && a.pendingEvents == b.pendingEvents
  {
    hide Step, RunFrom;
    var a, b := RunFrom(env, s, es1), RunFrom(env, s, es2);
    var more := BatchReaches(env, s, i, es1);
    var also := BatchReaches(env, s, i, es2);
    assert more == also;
    MeaningUnique(env, s.thread.body, more, a.thread.trace, b.thread.trace);
    ThreadDetermined(env, a, b, more);
    PendingDetermined(env, a, b, more);
  }

  lemma {:induction false} NoOutcomeYet(env: Env, h: seq<Event>)
    requires WellOwned(env) && Admissible(env, h) && Run(env, h).thread.status.Blocked?
    ensures forall id :: !HasOutcome(Run(env, h), id)
    ensures Run(env, h).thread.nextId <= Run(env, h).sequenceNumber
  {
    hide Run;
    TwoCounters(env, h);
    forall id ensures !HasOutcome(Run(env, h), id) {
      OutcomeAlwaysFits(env, h, id);
    }
  }

  /**
   * Order matters when the orchestrator returns. Two orders of the same resolutions that end polled and
   * do not panic leave the orchestrator, its tasks, its waiters and its schedulings alike. If it has
   * returned, they leave the whole engine alike, completion included, if and only if the last deliveries
   * of both issue an action or neither does, and the ids under which the two returns file the completion
   * are the same or both taken by issued calls; the latter goes without saying when the executor had minted
   * no id since it last drained an action.
   */
  lemma {:induction false} OrderOfReturns(env: Env, h: seq<Event>, es1: seq<Event>, es2: seq<Event>)
    requires WellOwned(env) && Admissible(env, h) && Run(env, h).thread.status.Blocked?
    requires IsBatch(es1) && IsBatch(es2) && multiset(es1) == multiset(es2)
    requires Outstanding(Run(env, h), es1) && EndsPolled(es1) && EndsPolled(es2)
    requires !Run(env, h + es1).thread.status.Panicked? && !Run(env, h + es2).thread.status.Panicked?
    ensures var a, b := Run(env, h + es1), Run(env, h + es2);
            && a.thread == b.thread && a.pendingTasks == b.pendingTasks && a.pendingEvents == b.pendingEvents
            && SameSchedulings(a, b)
            && (a.thread.status.Blocked? ==> a == b)
            && (a.thread.status.Returned? ==>
                  var mid1, mid2 := Run(env, h + es1[..|es1| - 1]), Run(env, h + es2[..|es2| - 1]);
                  && (a == b <==> FileAlike(mid1, mid2, a.thread.nextId))
                  && (Run(env, h).sequenceNumber == Run(env, h).thread.nextId ==>
                        (a == b <==> IssueAlike(mid1, mid2, a.thread.nextId))))
  {
    hide Step, RunFrom, EndsReturned, FileAlike, IssueAlike, Outstanding;
    var s := Run(env, h);
    RunBoundary(env, h);
    NoOutcomeYet(env, h);
    forall es ensures Run(env, h + es) == RunFrom(env, s, es) {
      RunFromSplit(env, Init(), h, es);
    }
    PermutationAnswers(es1, es2);
    PermutationOutstanding(s, es1, es2);
    BatchesPlaceAlike(env, s, Heard(env, h), es1, es2);
    var a, b := Run(env, h + es1), Run(env, h + es2);
    if a.thread.status.Returned? {
      BatchReturns(env, s, Heard(env, h), es1);
      BatchReturns(env, s, Heard(env, h), es2);
      var mid1, mid2 := RunFrom(env, s, es1[..|es1| - 1]), RunFrom(env, s, es2[..|es2| - 1]);
      EndsCompare(s, mid1, mid2, a, b);
      EndsSchedule(s, mid1, mid2, a, b);
      if s.sequenceNumber == s.thread.nextId {
        PlainFiling(s, mid1, mid2, a, b);
      }
    } else {
      NeverAbsent(env, s, Heard(env, h), es1);
      BatchesAgree(env, s, Heard(env, h), es1, es2);
    }
  }

  lemma {:induction false} NeverAbsent(env: Env, s: State, i: Inputs, es: seq<Event>)
    requires WellOwned(env) && Boundary(env, s, i) && s.thread.status.Blocked? && IsBatch(es)
    requires !RunFrom(env, s, es).thread.status.Panicked?
    ensures !RunFrom(env, s, es).thread.status.Absent?
  {
    hide RunFrom, Boundary;
    var more := BatchReaches(env, s, i, es);
  }

  // Poll coalescing.

  lemma DrainNothing(s: State)
    requires Drained(s.thread)
    ensures Drain(s) == s
  {
  }

  /** A TaskFailed moves the orchestrator nowhere: it is not polled. */
  lemma UnpolledStays(env: Env, s: State, i: Inputs, e: Event)
    requires Boundary(env, s, i) && s.thread.status.Blocked? && e.TaskFailed?
    ensures Step(env, s, e).thread == s.thread.(slots := Step(env, s, e).thread.slots)
    ensures Step(env, s, e).pendingEvents == s.pendingEvents
  {
    DeliverShows(env, s, i, e);
    DrainNothing(Deliver(s, e.taskId, e.Payload()));
  }

  /** The orchestrator stands at a handle that has been answered: the next poll moves it. */
  predicate Unblocked(t: Thread) {
    var tail := t.body(t.trace).tail;
    tail.Await? && tail.handle < |t.slots| && t.slots[tail.handle].Sent?
  }

  lemma BlockedPoll(env: Env, s: State, i: Inputs, drained: nat)
    requires At(env, s, i, drained) && s.thread.status.Blocked? && Affine(s.thread.body)
    requires s.thread.body(s.thread.trace).tail.Await? && !Unblocked(s.thread)
    ensures Resume(env, s.thread) == s.thread
  {
    PollGoesOn(env, s, i, drained);
    PollStops(env, s, i, drained);
  }

  lemma UnblockedYields(env: Env, s: State, i: Inputs, drained: nat)
    requires At(env, s, i, drained) && Affine(s.thread.body) && Unblocked(s.thread) && s.thread.status.Blocked?
    ensures Yield(env, s.thread.body, i, s.thread.trace).Some?
  {
    var t := s.thread;
    var h := t.body(t.trace).tail.handle;
    PollGoesOn(env, s, i, drained);
    assert SlotFits(env, t.slots, Awaited(t.body, t.trace), OpsAt(t.body, t.trace), i, h);
  }

  /** A delivery with its poll moves the orchestrator exactly when it leaves it at an answered handle. */
  lemma DeliveryMoves(env: Env, s: State, i: Inputs, e: Event)
    requires WellOwned(env) && Boundary(env, s, i) && s.thread.status.Blocked? && e.IsPollingResolution()
    ensures Step(env, s, e).thread.trace == s.thread.trace <==>
            !Unblocked(Deliver(s, e.taskId, e.Payload()).thread)
  {
    hide At, Shows, Resume, Follows, OpsAt, ActionsShow;
    var s1, mid := Deliver(s, e.taskId, e.Payload()), Hear(env, i, s.thread.nextId, e);
    DeliverShows(env, s, i, e);
    StepAdvances(env, s, i, e);
    if Unblocked(s1.thread) {
      UnblockedYields(env, s1, mid, s.thread.nextId);
    } else {
      BlockedPoll(env, s1, mid, s.thread.nextId);
      assert ProcessEvent(env, s, e) == Poll(env, s1);
    }
  }

  /** The first of two deliveries, and the late one that does not poll. */
  lemma FirstDeliveries(env: Env, s: State, i: Inputs, first: Event, late: Event)
    requires WellOwned(env) && Boundary(env, s, i) && s.thread.status.Blocked?
    requires first.IsPollingResolution() && late.TaskFailed?
    requires first.taskId == late.taskId && first.Payload() == late.Payload()
    ensures var a, b, mid := Step(env, s, first), Step(env, s, late), Hear(env, i, s.thread.nextId, first);
            && Reached(env, s, mid, a) && Settled(env, a, mid)
            && Reached(env, s, mid, b) && b.thread == s.thread.(slots := b.thread.slots)
            && b.pendingEvents == s.pendingEvents
            && (forall id :: id in mid.resolved ==> id <= s.thread.nextId)
  {
    hide Step, Boundary, Settled, ActionsGrow, Reached;
    ReachedSelf(env, s, i);
    NoFault(env, s, i, first);
    NoFault(env, s, i, late);
    ReachedStep(env, s, s, i, first);
    ReachedStep(env, s, s, i, late);
    UnpolledStays(env, s, i, late);
    BoundaryIssued(env, s, i, first);
  }

  lemma NoFault(env: Env, s: State, i: Inputs, e: Event)
    requires WellOwned(env) && Boundary(env, s, i) && s.thread.status.Blocked? && e.IsResolution()
    ensures !Step(env, s, e).thread.status.Panicked?
  {
    hide Step;
    StepAdvances(env, s, i, e);
  }

  lemma BoundaryIssued(env: Env, s: State, i: Inputs, e: Event)
    requires Boundary(env, s, i) && e.IsResolution()
    ensures forall id :: id in Hear(env, i, s.thread.nextId, e).resolved ==> id <= s.thread.nextId
  {
  }

  /** Two boundaries of one run at the same position, with the same inputs, are the same state. */
  lemma SamePlaceSameState(env: Env, s: State, more: Inputs, a: State, b: State)
    requires Reached(env, s, more, a) && a.thread.status.Blocked? && Reached(env, s, more, b)
    requires a.thread.trace == b.thread.trace
    ensures a == b
  {
    ThreadDetermined(env, a, b, more);
    PendingDetermined(env, a, b, more);
  }

  /** An event that does not poll leaves the orchestrator where it stands. */
  lemma UnpolledPlace(env: Env, s: State, i: Inputs, e: Event)
    requires WellOwned(env) && Boundary(env, s, i) && s.thread.status.Blocked?
    requires AdmissibleEvent(env, s, e) && !Polls(env, s, e)
    ensures Step(env, s, e).thread.trace == s.thread.trace
  {
    if e.TaskFailed? {
      UnpolledStays(env, s, i, e);
    } else if e.EventRaised? {
      var name := env.lower(e.name);
      DrainNothing(s.(thread := s.thread.(received := PushQueue(s.thread.received, name, e.input))));
      assert ProcessEvent(env, s, e) == Raise(env, s, name, e.input);
    } else {
      StepAside(env, s, i, e);
    }
  }

  /** A task issued only by the poll that was left out is pending where the other order has resolved it. */
  lemma IssuedTooLate(env: Env, i: Inputs, early: State, a: State, b: State, more: Inputs, id: int)
    requires Boundary(env, early, i) && Settled(env, early, i) && Boundary(env, b, i) && Settled(env, b, i)
    requires early.thread.body == b.thread.body
    requires 1 <= id <= early.thread.nextId && id !in i.resolved
    requires Boundary(env, a, more) && id in more.resolved
    ensures a != b
  {
    MeaningUnique(env, b.thread.body, i, early.thread.trace, b.thread.trace);
    assert TaskFits(a.pendingTasks, a.thread.gen, LogOf(a), more.resolved, id);
    assert TaskFits(b.pendingTasks, b.thread.gen, LogOf(b), i.resolved, id);
  }

  /** The event tells the orchestrator the same whether or not the poll has been left out. */
  predicate HeardAlike(n: nat, n': nat, e: Event) {
    !(e.IsResolution() && n < e.taskId <= n')
  }

  /** One more event, which polls or finds the orchestrator settled. */
  lemma PolledOn(env: Env, s: State, mid: Inputs, s1: State, next: Event)
    requires WellOwned(env) && Reached(env, s, mid, s1) && s1.thread.status.Blocked? && Plain(next)
    requires AdmissibleEvent(env, s1, next) && !next.TaskFailed?
    requires Settled(env, s1, mid) || Polls(env, s1, next)
    ensures var s', more := Step(env, s1, next), Hear(env, mid, s1.thread.nextId, next);
            Reached(env, s, more, s') && Settled(env, s', more)
  {
    hide Step, Boundary, Settled, SameRun, ActionsGrow, Polls, Hear, Issues;
    StepAdvances(env, s1, mid, next);
    ReachedStep(env, s, s1, mid, next);
  }

  /** After both deliveries: the next event polls, so both orders settle. */
  lemma PolledAlike(env: Env, s: State, mid: Inputs, early: State, late: State, next: Event)
    requires WellOwned(env) && s.thread.status.Blocked?
    requires Reached(env, s, mid, early) && Settled(env, early, mid) && early.thread.status.Blocked?
    requires Reached(env, s, mid, late) && late.thread == s.thread.(slots := late.thread.slots)
    requires forall id :: id in mid.resolved ==> id <= s.thread.nextId
    requires AdmissibleEvent(env, early, next) && AdmissibleEvent(env, late, next) && Polls(env, late, next)
    requires Step(env, early, next).thread.status.Blocked?
    ensures (Step(env, early, next) == Step(env, late, next))
            <==> HeardAlike(s.thread.nextId, early.thread.nextId, next)
  {
    hide Step, Boundary, ActionsGrow, Settled, Value, AdmissibleEvent;
    var a, b, n := Step(env, early, next), Step(env, late, next), s.thread.nextId;
    var more, less := Hear(env, mid, early.thread.nextId, next), Hear(env, mid, n, next);
    PolledOn(env, s, mid, early, next);
    PolledOn(env, s, mid, late, next);
    if HeardAlike(n, early.thread.nextId, next) {
      assert more == less;
      SettledSameState(env, s, more, a, b);
    } else {
      assert less == mid;
      IssuedTooLate(env, mid, early, a, b, more, next.taskId);
    }
  }

  lemma SettledSameState(env: Env, s: State, more: Inputs, a: State, b: State)
    requires Reached(env, s, more, a) && Settled(env, a, more) && a.thread.status.Blocked?
    requires Reached(env, s, more, b) && Settled(env, b, more)
    ensures a == b
  {
    hide Boundary, Settles;
    MeaningUnique(env, s.thread.body, more, a.thread.trace, b.thread.trace);
    SamePlaceSameState(env, s, more, a, b);
  }

  /** After both deliveries: the next event does not poll where a poll has been left out. */
  lemma LeftUnpolled(env: Env, mid: Inputs, early: State, late: State, next: Event)
    requires WellOwned(env) && Boundary(env, early, mid) && Boundary(env, late, mid)
    requires early.thread.status.Blocked? && late.thread.status.Blocked?
    requires late.thread.trace < early.thread.trace
    requires AdmissibleEvent(env, early, next) && AdmissibleEvent(env, late, next) && !Polls(env, late, next)
    ensures Step(env, early, next) != Step(env, late, next)
  {
    hide Step, Boundary;
    UnpolledPlace(env, late, mid, next);
    StepAdvances(env, early, mid, next);
  }

  lemma Coalesced(env: Env, s: State, i: Inputs, first: Event, late: Event, next: Event)
    requires WellOwned(env) && Boundary(env, s, i) && s.thread.status.Blocked?
    requires first.IsPollingResolution() && late.TaskFailed? && AdmissibleEvent(env, s, next)
    requires first.taskId == late.taskId && first.Payload() == late.Payload()
    requires Step(env, Step(env, s, first), next).thread.status.Blocked?
    ensures var s1 := Step(env, s, first);
            (Step(env, s1, next) == Step(env, Step(env, s, late), next))
            <==> || !Unblocked(Deliver(s, first.taskId, first.Payload()).thread)
                 || (Polls(env, s, next) && HeardAlike(s.thread.nextId, s1.thread.nextId, next))
  {
    hide Step, Boundary, Settled;
    var mid, a, b := Hear(env, i, s.thread.nextId, first), Step(env, s, first), Step(env, s, late);
    FirstDeliveries(env, s, i, first, late);
    DeliveryMoves(env, s, i, first);
    StillBlocked(env, a, mid, next);
    if a.thread.trace == s.thread.trace {
      SamePlaceSameState(env, s, mid, a, b);
    } else if Polls(env, s, next) {
      PolledAlike(env, s, mid, a, b, next);
    } else {
      LeftUnpolled(env, mid, a, b, next);
    }
  }

  /** An orchestrator that is blocked after an event was blocked before it. */
  lemma StillBlocked(env: Env, s: State, i: Inputs, e: Event)
    requires WellOwned(env) && Boundary(env, s, i) && !s.thread.status.Absent?
    requires AdmissibleEvent(env, s, e) && Step(env, s, e).thread.status.Blocked?
    ensures s.thread.status.Blocked?
  {
    hide Step;
    StepAdvances(env, s, i, e);
    if s.thread.status.Returned? {
      ReturnedStep(env, s, i, e);
    }
  }

  /**
   * Poll coalescing, exactly. Replacing a resolution that polls by the TaskFailed that brings the same
   * answer and does not is made up for by the next event, whatever it is, if and only if the answer does
   * not unblock the orchestrator, or the next event polls, even without that poll, and is no resolution
   * of a task which only that poll would have issued.
   */
  lemma {:induction false} PollCoalescing(env: Env, h: seq<Event>, first: Event, late: Event, next: Event)
    requires WellOwned(env) && Admissible(env, h) && Run(env, h).thread.status.Blocked?
    requires first.IsPollingResolution() && late.TaskFailed? && AdmissibleEvent(env, Run(env, h), next)
    requires first.taskId == late.taskId && first.Payload() == late.Payload()
    requires Run(env, h + [first] + [next]).thread.status.Blocked?
    ensures (Run(env, h + [first] + [next]) == Run(env, h + [late] + [next]))
            <==> || !Unblocked(Deliver(Run(env, h), first.taskId, first.Payload()).thread)
                 || (&& Polls(env, Run(env, h), next)
                     && HeardAlike(Run(env, h).thread.nextId, Run(env, h + [first]).thread.nextId, next))
  {
    hide Step, Run;
    RunBoundary(env, h);
    RunSnoc(env, h, first);
    RunSnoc(env, h + [first], next);
    RunSnoc(env, h, late);
    RunSnoc(env, h + [late], next);
    Coalesced(env, Run(env, h), Heard(env, h), first, late, next);
  }

  // Idle events.

  /**
   * Idle events are stutters. With no delivery left unpolled and the orchestrator blocked, a
   * resolution of an unknown or already resolved task changes nothing at all, and a confirmation
   * changes nothing but the pending action it removes.
   */
  lemma {:induction false} IdleEventsStutter(env: Env, h: seq<Event>, e: Event)
    requires WellOwned(env) && Admissible(env, h) && LastResolutionPolls(h)
    requires Run(env, h).thread.status.Blocked?
    ensures e.IsResolution() && e.taskId !in Run(env, h).pendingTasks ==> Run(env, h + [e]) == Run(env, h)
    ensures e.IsConfirmation() ==>
              Run(env, h + [e]) == Run(env, h).(pendingActions := Run(env, h).pendingActions - {e.eventId})
  {
    var s, i := Run(env, h), Heard(env, h);
    RunBoundary(env, h);
    RunSettled(env, h);
    RunSnoc(env, h, e);
    SettledPoll(env, s, i);
    DrainNothing(s);
    IdleStep(env, s, e);
  }

  lemma IdleStep(env: Env, s: State, e: Event)
    requires s.thread.status.Blocked? && Drained(s.thread) && Resume(env, s.thread) == s.thread
    ensures e.IsResolution() && e.taskId !in s.pendingTasks ==> Step(env, s, e) == s
    ensures e.IsConfirmation() ==> Step(env, s, e) == s.(pendingActions := s.pendingActions - {e.eventId})
  {
    if e.IsPollingResolution() && e.taskId !in s.pendingTasks {
      assert ProcessEvent(env, s, e) == Poll(env, s);
    }
  }

  // Prefixes.

  /** The run has gone on: the log of calls has only grown, and a started orchestrator is the same, further along. */
  ghost predicate GoesOn(s: State, s': State) {
    && LogOf(s) <= LogOf(s')
    && (!s.thread.status.Absent? ==> !s'.thread.status.Absent? && SameRun(s, s'))
  }

  lemma {:induction false} GoesOnStep(env: Env, s: State, i: Inputs, e: Event)
    requires WellOwned(env) && Boundary(env, s, i) && AdmissibleEvent(env, s, e) && !Faults(env, s, e)
    ensures GoesOn(s, Step(env, s, e))
  {
    hide Step, Recorded, Mints;
    StepAdvances(env, s, i, e);
    StepActions(env, s, i, e);
    if s.thread.status.Absent? {
      assert OpsAt(Idle().body, []) == [];
    } else {
      OpsGrow(s.thread.body, s.thread.trace, Step(env, s, e).thread.trace);
    }
  }

  /**
   * Replay is prefix-stable: what an execution has issued and where its orchestrator stands after a
   * history is a prefix of the same after any extension of it.
   */
  lemma {:induction false} LogIsPrefixStable(env: Env, h: seq<Event>, more: seq<Event>)
    requires WellOwned(env) && Admissible(env, h + more) && !Run(env, h + more).thread.status.Panicked?
    ensures !Run(env, h).thread.status.Panicked? && GoesOn(Run(env, h), Run(env, h + more))
  {
    hide Step, OpsAt, Follows, Heard, Boundary;
    if more == [] {
      assert h + more == h;
    } else {
      var longer := h + more;
      var before := longer[..|longer| - 1];
      assert before == h + more[..|more| - 1];
      AdmissiblePrefix(env, longer, |longer| - 1);
      FaultsLast(env, longer);
      RunBoundary(env, before);
      LogIsPrefixStable(env, h, more[..|more| - 1]);
      GoesOnStep(env, Run(env, before), Heard(env, before), longer[|longer| - 1]);
    }
  }
}
