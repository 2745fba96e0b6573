/** The pending actions of whole histories: reconciliation, numbering, completion and termination. */
module Actions {
  import opened Types
  import opened Orchestrator
  import opened Replay
  import opened Meaning
  import opened Simulation
  import opened Boundaries
  import opened Refinement

  /** The scheduling actions of the ids after `from`, up to `to`. */
  function Issued(ops: seq<Op>, from: nat, to: nat): map<int, Action>
    requires to <= TaskCount(ops)
  {
    map id: int | from < id <= to :: Action(id, Schedule(CallOf(ops, id)))
  }

  lemma {:induction false} DrainIssued(m: map<int, Action>, n: int, q: seq<(int, Action)>, ops: seq<Op>, from: nat)
    requires from + |q| <= TaskCount(ops)
    requires forall j: nat :: j < |q| ==>
               q[j] == (from + 1 + j, Action(from + 1 + j, Schedule(CallOf(ops, from + 1 + j))))
    ensures DrainInto(m, q) == m + Issued(ops, from, from + |q|)
    ensures DrainCounter(n, q) == if q == [] then n else from + |q|
  {
    if q != [] {
      DrainIssued(m, n, q[..|q| - 1], ops, from);
    }
  }

  lemma DrainShown(m: map<int, Action>, n: int, q: seq<(int, Action)>, ops: seq<Op>, from: nat)
    requires ActionsShow(q, ops, from)
    ensures from <= TaskCount(ops)
    ensures DrainInto(m, q) == m + Issued(ops, from, TaskCount(ops))
    ensures DrainCounter(n, q) == if from < TaskCount(ops) then TaskCount(ops) else n
  {
    forall j: nat | j < |q|
      ensures q[j] == (from + 1 + j, Action(from + 1 + j, Schedule(CallOf(ops, from + 1 + j))))
    {
      assert ActionFits(q, ops, from, j);
    }
    DrainIssued(m, n, q, ops, from);
  }

  /** The executor mints an id of its own: for a termination, or for an orchestrator that returned. */
  predicate Mints(s: State, e: Event, s': State) {
    e.ExecutionTerminated? || (s.thread.status.Blocked? && s'.thread.status.Returned? && !e.ExecutionCompleted?)
  }

  function MintedAction(s: State, e: Event, s': State): Action
    requires Mints(s, e, s')
  {
    var id := s.sequenceNumber + 1;
    if e.ExecutionTerminated? then Action(id, Complete(Terminated, None))
    else Completion(id, s'.thread.status.outcome)
  }

  /** What the event itself does to the pending actions, before the drain. */
  function Recorded(s: State, e: Event, s': State): map<int, Action> {
    if e.IsConfirmation() then s.pendingActions - {e.eventId}
    else if Mints(s, e, s') then s.pendingActions[s.sequenceNumber + 1 := MintedAction(s, e, s')]
    else s.pendingActions
  }

  lemma PollRecords(env: Env, s: State, e: Event)
    requires e.IsPollingResolution() || e.EventRaised?
    requires !Poll(env, s).thread.status.Panicked?
    ensures s.thread.status.Blocked?
    ensures var s1 := Poll(env, s);
            && s1.pendingActions == Recorded(s, e, s1)
            && s1.sequenceNumber == s.sequenceNumber + if Mints(s, e, s1) then 1 else 0
  {
  }

  lemma StartRecords(env: Env, s: State, name: string, input: Option<string>)
    ensures var s1 := Start(env, s, name, input);
            && s1.pendingActions == s.pendingActions && s1.sequenceNumber == s.sequenceNumber
            && (s1.thread.status.Returned? ==> s.thread.status.Returned?)
  {
  }

  lemma OtherRecords(env: Env, s: State, e: Event)
    requires !e.IsPollingResolution() && !e.EventRaised?
    requires !s.thread.status.Panicked? && !ProcessEvent(env, s, e).thread.status.Panicked?
    ensures var s1 := ProcessEvent(env, s, e);
            && s1.pendingActions == Recorded(s, e, s1)
            && s1.sequenceNumber == s.sequenceNumber + if Mints(s, e, s1) then 1 else 0
  {
    match e
    case ExecutionStarted(name, input) =>
      assert ProcessEvent(env, s, e) == Start(env, s, name, input);
      StartRecords(env, s, name, input);
    case _ =>
  }

  lemma {:induction false} EventRecords(env: Env, s: State, e: Event)
    requires !s.thread.status.Panicked? && !ProcessEvent(env, s, e).thread.status.Panicked?
    ensures var s1 := ProcessEvent(env, s, e);
            && s1.pendingActions == Recorded(s, e, s1)
            && s1.sequenceNumber == s.sequenceNumber + if Mints(s, e, s1) then 1 else 0
  {
    if e.IsPollingResolution() {
      var s0 := Deliver(s, e.taskId, e.Payload());
      assert ProcessEvent(env, s, e) == Poll(env, s0);
      PollRecords(env, s0, e);
    } else if e.EventRaised? {
      var name := env.lower(e.name);
      assert ProcessEvent(env, s, e) == Raise(env, s, name, e.input);
      if name in s.pendingEvents && s.pendingEvents[name] != [] {
        PollRecords(env, s.(pendingEvents := PopQueue(s.pendingEvents, name),
                            thread := Send(s.thread, s.pendingEvents[name][0], e.input)), e);
      }
    } else {
      OtherRecords(env, s, e);
    }
  }

  /** One admissible event: what it records, then the schedulings of exactly the ids it issued. */
  lemma StepActions(env: Env, s: State, i: Inputs, e: Event)
    requires WellOwned(env) && Boundary(env, s, i) && AdmissibleEvent(env, s, e) && !Faults(env, s, e)
    ensures var s' := Step(env, s, e);
            var ops', n, n' := OpsAt(s'.thread.body, s'.thread.trace), s.thread.nextId, s'.thread.nextId;
            && n <= n' == TaskCount(ops')
            && s'.pendingActions == Recorded(s, e, s') + Issued(ops', n, n')
            && s'.sequenceNumber == if n < n' then n' else s.sequenceNumber + if Mints(s, e, s') then 1 else 0
  {
    StepAdvances(env, s, i, e);
    EventRecords(env, s, e);
    var s1 := ProcessEvent(env, s, e);
    DrainShown(s1.pendingActions, s1.sequenceNumber, s1.thread.actionTx,
               OpsAt(Step(env, s, e).thread.body, Step(env, s, e).thread.trace), s.thread.nextId);
  }

  lemma {:induction false} RunActions(env: Env, h: seq<Event>)
    requires WellOwned(env) && Admissible(env, h) && h != [] && !Run(env, h).thread.status.Panicked?
    ensures var s, s', e := Run(env, h[..|h| - 1]), Run(env, h), h[|h| - 1];
            var ops, ops' := OpsAt(s.thread.body, s.thread.trace), OpsAt(s'.thread.body, s'.thread.trace);
            var n, n' := s.thread.nextId, s'.thread.nextId;
            && !s.thread.status.Panicked?
            && n == TaskCount(ops) <= n' == TaskCount(ops')
            && s'.pendingActions == Recorded(s, e, s') + Issued(ops', n, n')
            && s'.sequenceNumber == (if n < n' then n' else s.sequenceNumber + if Mints(s, e, s') then 1 else 0)
            && (n > 0 ==> ops <= ops')
  {
    var before, e := h[..|h| - 1], h[|h| - 1];
    RunAdvances(env, h);
    AdmissiblePrefix(env, h, |h| - 1);
    var s, s' := Run(env, before), Run(env, h);
    StepAdvances(env, s, Heard(env, before), e);
    StepActions(env, s, Heard(env, before), e);
    if s.thread.status.Absent? {
      AbsentIdle(env, s, Heard(env, before), "");
    } else {
      OpsGrow(s.thread.body, s.thread.trace, s'.thread.trace);
    }
  }

  lemma {:induction false} IdsStep(env: Env, h: seq<Event>)
    requires WellOwned(env) && Admissible(env, h) && h != [] && !Run(env, h).thread.status.Panicked?
    ensures Run(env, h[..|h| - 1]).thread.nextId <= Run(env, h).thread.nextId
  {
    hide Run;
    RunActions(env, h);
  }

  /** Ids issued by the orchestrator keep their calls through the rest of the history. */
  lemma {:induction false} CallsKept(env: Env, h: seq<Event>, id: nat)
    requires WellOwned(env) && Admissible(env, h) && h != [] && !Run(env, h).thread.status.Panicked?
    requires 1 <= id <= Run(env, h[..|h| - 1]).thread.nextId
    ensures var t, t' := Run(env, h[..|h| - 1]).thread, Run(env, h).thread;
            && id <= TaskCount(OpsAt(t.body, t.trace)) && id <= TaskCount(OpsAt(t'.body, t'.trace))
            && CallOf(OpsAt(t'.body, t'.trace), id) == CallOf(OpsAt(t.body, t.trace), id)
  {
    RunActions(env, h);
    var t, t' := Run(env, h[..|h| - 1]).thread, Run(env, h).thread;
    CallStable(env, OpsAt(t.body, t.trace), OpsAt(t'.body, t'.trace), id);
  }

  // Two counters.

  /** How many ids the executor has minted since it last drained an action. */
  function MintedSince(env: Env, h: seq<Event>): nat {
    if h == [] then 0 else
    var before := h[..|h| - 1];
    var s, s' := Run(env, before), Run(env, h);
    if s.thread.nextId < s'.thread.nextId then 0
    else MintedSince(env, before) + if Mints(s, h[|h| - 1], s') then 1 else 0
  }

  /**
   * The executor's counter is the orchestrator's plus the ids minted since the last drained action,
   * so it is never below an id that was issued.
   */
  lemma {:induction false} TwoCounters(env: Env, h: seq<Event>)
    requires WellOwned(env) && Admissible(env, h) && !Run(env, h).thread.status.Panicked?
    ensures Run(env, h).sequenceNumber == Run(env, h).thread.nextId + MintedSince(env, h)
    ensures Run(env, h).thread.nextId
              == TaskCount(OpsAt(Run(env, h).thread.body, Run(env, h).thread.trace))
  {
    RunBoundary(env, h);
    if h != [] {
      RunActions(env, h);
      AdmissiblePrefix(env, h, |h| - 1);
      TwoCounters(env, h[..|h| - 1]);
    }
  }

  // Reconciliation.

  /** The n-th event confirms this id, which was issued while an earlier event was processed. */
  ghost predicate ConfirmedAt(env: Env, h: seq<Event>, n: nat, id: int) {
    n < |h| && h[n].Confirms(id) && id <= Run(env, h[..n]).thread.nextId
  }

  ghost predicate Unconfirmed(env: Env, h: seq<Event>, id: int) {
    forall n: nat :: !ConfirmedAt(env, h, n, id)
  }

  lemma UnconfirmedSnoc(env: Env, h: seq<Event>, id: int)
    requires h != []
    ensures Unconfirmed(env, h, id) <==>
            Unconfirmed(env, h[..|h| - 1], id) && !ConfirmedAt(env, h, |h| - 1, id)
  {
    var before := h[..|h| - 1];
    forall n: nat | n < |h| - 1 ensures ConfirmedAt(env, h, n, id) == ConfirmedAt(env, before, n, id) {
      assert before[..n] == h[..n];
    }
    if Unconfirmed(env, h, id) {
      forall n: nat ensures !ConfirmedAt(env, before, n, id) {
        if n < |h| - 1 {
          assert !ConfirmedAt(env, h, n, id);
        }
      }
    }
  }

  /** Nothing confirms an id while it has not been issued. */
  lemma {:induction false} UnissuedUnconfirmed(env: Env, h: seq<Event>, id: int)
    requires WellOwned(env) && Admissible(env, h) && !Run(env, h).thread.status.Panicked?
    requires id > Run(env, h).thread.nextId
    ensures Unconfirmed(env, h, id)
  {
    if h != [] {
      RunActions(env, h);
      AdmissiblePrefix(env, h, |h| - 1);
      UnissuedUnconfirmed(env, h[..|h| - 1], id);
      UnconfirmedSnoc(env, h, id);
    }
  }

  /** What the pending actions hold under an id. */
  ghost predicate Reconciled(env: Env, h: seq<Event>, id: int) {
    var s := Run(env, h);
    var ops := OpsAt(s.thread.body, s.thread.trace);
    && s.thread.nextId == TaskCount(ops)
    && if 1 <= id <= s.thread.nextId then
         && (id in s.pendingActions <==> Unconfirmed(env, h, id))
         && (id in s.pendingActions ==> s.pendingActions[id] == Action(id, Schedule(CallOf(ops, id))))
       else
         id in s.pendingActions ==>
           && id > s.thread.nextId && s.pendingActions[id].id == id && s.pendingActions[id].kind.Complete?
  }

  /** What an event records under an id was there before, or is the completion it mints. */
  lemma RecordedAt(s: State, e: Event, s': State, id: int)
    ensures var r := Recorded(s, e, s');
            id in r ==>
              || (id in s.pendingActions && r[id] == s.pendingActions[id])
              || (id == s.sequenceNumber + 1 && r[id].id == id && r[id].kind.Complete?)
  {
  }

  /** An id issued earlier stays until a confirmation removes it; minting never touches it. */
  lemma {:induction false} IssuedReconciled(env: Env, h: seq<Event>, id: int)
    requires WellOwned(env) && Admissible(env, h) && h != [] && !Run(env, h).thread.status.Panicked?
    requires Reconciled(env, h[..|h| - 1], id) && 1 <= id <= Run(env, h[..|h| - 1]).thread.nextId
    ensures Reconciled(env, h, id)
  {
    hide Step, Run;
    var before, e := h[..|h| - 1], h[|h| - 1];
    RunActions(env, h);
    AdmissiblePrefix(env, h, |h| - 1);
    TwoCounters(env, before);
    UnconfirmedSnoc(env, h, id);
    CallsKept(env, h, id);
    var s, s' := Run(env, before), Run(env, h);
    var r := Recorded(s, e, s');
    assert id in r <==> id in s.pendingActions && !e.Confirms(id);
    assert id in r ==> r[id] == s.pendingActions[id];
  }

  /** An id issued by the last event is pending, whatever the executor had minted under it. */
  lemma {:induction false} FreshReconciled(env: Env, h: seq<Event>, id: int)
    requires WellOwned(env) && Admissible(env, h) && h != [] && !Run(env, h).thread.status.Panicked?
    requires Run(env, h[..|h| - 1]).thread.nextId < id <= Run(env, h).thread.nextId
    ensures Reconciled(env, h, id)
  {
    hide Step, Run;
    RunActions(env, h);
    AdmissiblePrefix(env, h, |h| - 1);
    UnconfirmedSnoc(env, h, id);
    UnissuedUnconfirmed(env, h[..|h| - 1], id);
  }

  /** Beyond the issued ids there are only completions. */
  lemma {:induction false} UnissuedReconciled(env: Env, h: seq<Event>, id: int)
    requires WellOwned(env) && Admissible(env, h) && h != [] && !Run(env, h).thread.status.Panicked?
    requires Reconciled(env, h[..|h| - 1], id) && !(1 <= id <= Run(env, h).thread.nextId)
    ensures Reconciled(env, h, id)
  {
    hide Step, Run;
    RunActions(env, h);
    AdmissiblePrefix(env, h, |h| - 1);
    TwoCounters(env, h[..|h| - 1]);
    var s, s' := Run(env, h[..|h| - 1]), Run(env, h);
    RecordedAt(s, h[|h| - 1], s', id);
  }

  /**
   * Action reconciliation. The scheduling actions returned are exactly the calls issued while some
   * event was processed with no confirmation of their id at a later position; whatever else is
   * returned is a completion under an id beyond every issued one.
   */
  lemma {:induction false} ActionsReconcile(env: Env, h: seq<Event>, id: int)
    requires WellOwned(env) && Admissible(env, h) && !Run(env, h).thread.status.Panicked?
    ensures Reconciled(env, h, id)
  {
    hide Step;
    if h == [] {
      RunBoundary(env, h);
    } else {
      RunActions(env, h);
      AdmissiblePrefix(env, h, |h| - 1);
      ActionsReconcile(env, h[..|h| - 1], id);
      if 1 <= id <= Run(env, h[..|h| - 1]).thread.nextId {
        IssuedReconciled(env, h, id);
      } else if 1 <= id <= Run(env, h).thread.nextId {
        FreshReconciled(env, h, id);
      } else {
        UnissuedReconciled(env, h, id);
      }
    }
  }
}
