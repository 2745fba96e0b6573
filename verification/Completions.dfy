/** When an orchestrator's completion, or its termination, is among the returned actions. */
module Completions {
  import opened Types
  import opened Orchestrator
  import opened Replay
  import opened Meaning
  import opened Simulation
  import opened Boundaries
  import opened Refinement
  import opened Actions

  lemma ReturnedStep(env: Env, s: State, i: Inputs, e: Event)
    requires WellOwned(env) && Boundary(env, s, i) && AdmissibleEvent(env, s, e) && !Faults(env, s, e)
    requires s.thread.status.Returned?
    ensures var t, t' := s.thread, Step(env, s, e).thread;
            && t'.status == t.status && t'.body == t.body && t'.trace == t.trace && t'.nextId == t.nextId
  {
    var s' := Step(env, s, e);
    StepAdvances(env, s, i, e);
    NothingFollowsReturn(env, s.thread.body, Hear(env, i, s.thread.nextId, e), s.thread.trace, s'.thread.trace);
  }

  /** An orchestrator that has returned stays where it is. */
  lemma {:induction false} ReturnedStays(env: Env, h: seq<Event>)
    requires WellOwned(env) && Admissible(env, h) && h != [] && !Run(env, h).thread.status.Panicked?
    requires Run(env, h[..|h| - 1]).thread.status.Returned?
    ensures var t, t' := Run(env, h[..|h| - 1]).thread, Run(env, h).thread;
            && t'.status == t.status && t'.body == t.body && t'.trace == t.trace && t'.nextId == t.nextId
  {
    hide Step;
    var before := h[..|h| - 1];
    AdmissiblePrefix(env, h, |h| - 1);
    RunBoundary(env, before);
    FaultsLast(env, h);
    ReturnedStep(env, Run(env, before), Heard(env, before), h[|h| - 1]);
  }

  ghost predicate Unterminated(h: seq<Event>) {
    forall e :: e in h ==> !e.ExecutionTerminated?
  }

  /** Until the orchestrator returns, and unless it is terminated, no completion is returned and no id is minted. */
  lemma {:induction false} NoCompletionYet(env: Env, h: seq<Event>, id: int)
    requires WellOwned(env) && Admissible(env, h) && Unterminated(h)
    requires !Run(env, h).thread.status.Panicked? && !Run(env, h).thread.status.Returned?
    ensures id in Run(env, h).pendingActions ==> Run(env, h).pendingActions[id].kind.Schedule?
    ensures Run(env, h).sequenceNumber == Run(env, h).thread.nextId
  {
    hide Step;
    if h != [] {
      var before := h[..|h| - 1];
      assert h[|h| - 1] in h;
      RunActions(env, h);
      AdmissiblePrefix(env, h, |h| - 1);
      if Run(env, before).thread.status.Returned? {
        ReturnedStays(env, h);
      }
      NoCompletionYet(env, before, id);
    }
  }

  /** The orchestrator returns while the q-th event is processed. */
  ghost predicate ReturnsAt(env: Env, h: seq<Event>, q: nat) {
    q < |h| && Run(env, h[..q]).thread.status.Blocked? && Run(env, h[..q + 1]).thread.status.Returned?
  }

  predicate HasCompletion(s: State, id: int) {
    id in s.pendingActions && s.pendingActions[id].kind.Complete?
  }

  predicate HasTermination(s: State, id: int) {
    id in s.pendingActions && s.pendingActions[id] == Action(id, Complete(Terminated, None))
  }

  /** A completion that tells what the orchestrator returned. */
  predicate HasOutcome(s: State, id: int) {
    HasCompletion(s, id) && !HasTermination(s, id)
  }

  /** The action tells the server that the orchestrator has returned this. */
  predicate TellsOutcome(a: Action, outcome: Outcome) {
    && a.kind.Complete?
    && (a.kind.status == Completed <==> outcome.Output?)
    && (a.kind.status == Failed <==> outcome == Error)
    && (a.kind.status == ContinuedAsNew <==> outcome == ContinueAsNew)
    && a.kind.result == if outcome.Output? then Some(outcome.value) else None
  }

  /** Such a completion carries its own id, and tells what was returned. */
  predicate OutcomeFits(s: State, id: int) {
    HasOutcome(s, id) ==>
      && s.thread.status.Returned? && s.pendingActions[id].id == id
      && TellsOutcome(s.pendingActions[id], s.thread.status.outcome)
  }

  // What the executor files under ids of its own.

  datatype Filed = ByReturn | ByTermination

  function Other(filed: Filed): Filed {
    if filed == ByReturn then ByTermination else ByReturn
  }

  predicate Holds(s: State, id: int, filed: Filed) {
    if filed == ByReturn then HasOutcome(s, id) else HasTermination(s, id)
  }

  /** The n-th event is a termination, filed under this id. */
  ghost predicate TerminatesAt(env: Env, h: seq<Event>, n: nat, id: int) {
    n < |h| && h[n].ExecutionTerminated? && id == Run(env, h[..n]).sequenceNumber + 1
  }

  /** The orchestrator returns in the n-th event, and its completion is filed under this id. */
  ghost predicate CompletesAt(env: Env, h: seq<Event>, n: nat, id: int) {
    ReturnsAt(env, h, n) && !h[n].ExecutionCompleted? && id == Run(env, h[..n]).sequenceNumber + 1
  }

  ghost predicate FilesAt(env: Env, h: seq<Event>, n: nat, id: int, filed: Filed) {
    if filed == ByReturn then CompletesAt(env, h, n, id) else TerminatesAt(env, h, n, id)
  }

  /** The n-th event takes away what is filed under this id, or files the other kind of completion over it. */
  ghost predicate DisplacesAt(env: Env, h: seq<Event>, n: nat, id: int, filed: Filed) {
    n < |h| && (h[n].Confirms(id) || FilesAt(env, h, n, id, Other(filed)))
  }

  /** The n-th event files a completion under this id, and no later event displaces it. */
  ghost predicate LastsFrom(env: Env, h: seq<Event>, n: nat, id: int, filed: Filed) {
    n < |h| && FilesAt(env, h, n, id, filed) && forall m: nat :: n < m ==> !DisplacesAt(env, h, m, id, filed)
  }

  lemma FilingPrefix(env: Env, h: seq<Event>, n: nat, id: int, filed: Filed)
    requires h != [] && n < |h| - 1
    ensures FilesAt(env, h[..|h| - 1], n, id, filed) == FilesAt(env, h, n, id, filed)
    ensures DisplacesAt(env, h[..|h| - 1], n, id, filed) == DisplacesAt(env, h, n, id, filed)
  {
    hide Run;
    assert h[..|h| - 1][..n] == h[..n] && h[..|h| - 1][..n + 1] == h[..n + 1];
  }

  lemma NoEventDisplaces(env: Env, h: seq<Event>, m: nat, id: int, filed: Filed)
    requires |h| <= m
    ensures !DisplacesAt(env, h, m, id, filed)
  {
  }

  lemma LastsPrefix(env: Env, h: seq<Event>, n: nat, id: int, filed: Filed)
    requires h != [] && n < |h| - 1
    ensures LastsFrom(env, h, n, id, filed) <==>
            LastsFrom(env, h[..|h| - 1], n, id, filed) && !DisplacesAt(env, h, |h| - 1, id, filed)
  {
    hide DisplacesAt, FilesAt;
    var before := h[..|h| - 1];
    FilingPrefix(env, h, n, id, filed);
    forall m: nat | n < m < |h| - 1
      ensures DisplacesAt(env, before, m, id, filed) == DisplacesAt(env, h, m, id, filed)
    {
      FilingPrefix(env, h, m, id, filed);
    }
    forall m: nat | |h| - 1 <= m ensures !DisplacesAt(env, before, m, id, filed) {
      NoEventDisplaces(env, before, m, id, filed);
    }
    forall m: nat | |h| <= m ensures !DisplacesAt(env, h, m, id, filed) {
      NoEventDisplaces(env, h, m, id, filed);
    }
  }

  lemma LastsLast(env: Env, h: seq<Event>, id: int, filed: Filed)
    requires h != []
    ensures LastsFrom(env, h, |h| - 1, id, filed) <==> FilesAt(env, h, |h| - 1, id, filed)
  {
    hide FilesAt;
    forall m: nat | |h| <= m ensures !DisplacesAt(env, h, m, id, filed) {
      NoEventDisplaces(env, h, m, id, filed);
    }
  }

  /** What an event records under an id, before the drain. */
  lemma FilingRecorded(s: State, e: Event, s': State, id: int, filed: Filed)
    requires e.IsConfirmation() ==> !Mints(s, e, s')
    ensures var r := Recorded(s, e, s');
            Holds(s.(pendingActions := r), id, filed) <==>
              if Mints(s, e, s') && id == s.sequenceNumber + 1
              then filed == if e.ExecutionTerminated? then ByTermination else ByReturn
              else Holds(s, id, filed) && !e.Confirms(id)
  {
  }

  /** The drain files only schedulings. */
  lemma FilingDrained(s: State, r: map<int, Action>, s': State, ops: seq<Op>, from: nat, id: int, filed: Filed)
    requires from <= TaskCount(ops) && s'.pendingActions == r + Issued(ops, from, TaskCount(ops))
    ensures Holds(s', id, filed) <==>
            !(from < id <= TaskCount(ops)) && Holds(s.(pendingActions := r), id, filed)
  {
  }

  /** One event: a completion is under an id afterwards if the event files it there or leaves it there. */
  lemma FilingStep(env: Env, s: State, i: Inputs, e: Event, id: int, filed: Filed)
    requires WellOwned(env) && Boundary(env, s, i) && AdmissibleEvent(env, s, e) && !Faults(env, s, e)
    ensures var s' := Step(env, s, e);
            && s.thread.nextId <= s'.thread.nextId
            && (e.ExecutionTerminated? ==>
                  s'.thread.nextId == s.thread.nextId && s'.thread.status == s.thread.status)
            && (Holds(s', id, filed) <==>
                  && !(s.thread.nextId < id <= s'.thread.nextId)
                  && if Mints(s, e, s') && id == s.sequenceNumber + 1
                     then filed == if e.ExecutionTerminated? then ByTermination else ByReturn
                     else Holds(s, id, filed) && !e.Confirms(id))
  {
    hide Step, Holds, Recorded;
    StepActions(env, s, i, e);
    if e.ExecutionTerminated? || e.IsConfirmation() {
      StepAside(env, s, i, e);
    }
    var s' := Step(env, s, e);
    FilingRecorded(s, e, s', id, filed);
    FilingDrained(s, Recorded(s, e, s'), s', OpsAt(s'.thread.body, s'.thread.trace), s.thread.nextId, id, filed);
  }

  lemma FilesLast(env: Env, h: seq<Event>, id: int, filed: Filed)
    requires h != []
    requires h[|h| - 1].ExecutionTerminated? ==>
               Run(env, h).thread.status == Run(env, h[..|h| - 1]).thread.status
    ensures var s, s', e := Run(env, h[..|h| - 1]), Run(env, h), h[|h| - 1];
            FilesAt(env, h, |h| - 1, id, filed) <==>
              && Mints(s, e, s') && id == s.sequenceNumber + 1
              && filed == if e.ExecutionTerminated? then ByTermination else ByReturn
  {
    hide Run;
    assert h[..|h| - 1 + 1] == h;
  }

  lemma FilingAtLast(env: Env, h: seq<Event>, id: int, filed: Filed)
    requires WellOwned(env) && Admissible(env, h) && h != [] && !Run(env, h).thread.status.Panicked?
    ensures var s, s' := Run(env, h[..|h| - 1]), Run(env, h);
            && s.thread.nextId <= s'.thread.nextId
            && (Holds(s', id, filed) <==>
                  && !(s.thread.nextId < id <= s'.thread.nextId)
                  && (FilesAt(env, h, |h| - 1, id, filed)
                      || (Holds(s, id, filed) && !DisplacesAt(env, h, |h| - 1, id, filed))))
            && (FilesAt(env, h, |h| - 1, id, filed) ==> s.thread.nextId < id)
  {
    hide Step, Holds, Mints;
    var before, e := h[..|h| - 1], h[|h| - 1];
    AdmissiblePrefix(env, h, |h| - 1);
    FaultsLast(env, h);
    RunBoundary(env, before);
    RunLast(env, h);
    TwoCounters(env, before);
    FilingStep(env, Run(env, before), Heard(env, before), e, id, filed);
    FilesLast(env, h, id, filed);
    FilesLast(env, h, id, Other(filed));
  }

  /**
   * What an executor has filed stays, exactly: it is pending under an id if and only if no call has been
   * issued under that id, and some event filed it there which no later event has displaced.
   */
  lemma {:induction false} FilingExactly(env: Env, h: seq<Event>, id: int, filed: Filed)
    requires WellOwned(env) && Admissible(env, h) && !Run(env, h).thread.status.Panicked?
    ensures Holds(Run(env, h), id, filed) <==>
            Run(env, h).thread.nextId < id && exists n: nat :: LastsFrom(env, h, n, id, filed)
  {
    hide Step, Admissible, DisplacesAt, FilesAt;
    if h == [] {
    } else {
      var before, last := h[..|h| - 1], |h| - 1;
      AdmissiblePrefix(env, h, last);
      FaultsLast(env, h);
      FilingExactly(env, before, id, filed);
      FilingAtLast(env, h, id, filed);
      LastsLast(env, h, id, filed);
      forall n: nat | n < last
        ensures LastsFrom(env, h, n, id, filed) <==>
                LastsFrom(env, before, n, id, filed) && !DisplacesAt(env, h, last, id, filed)
      {
        LastsPrefix(env, h, n, id, filed);
      }
    }
  }

  /** What tells an outcome tells the outcome that was returned. */
  lemma {:induction false} OutcomeAlwaysFits(env: Env, h: seq<Event>, id: int)
    requires WellOwned(env) && Admissible(env, h) && !Run(env, h).thread.status.Panicked?
    ensures OutcomeFits(Run(env, h), id)
  {
    hide Step;
    if h != [] {
      var before := h[..|h| - 1];
      RunActions(env, h);
      AdmissiblePrefix(env, h, |h| - 1);
      OutcomeAlwaysFits(env, before, id);
      if Run(env, before).thread.status.Returned? {
        ReturnedStays(env, h);
      }
      OutcomeRecorded(Run(env, before), h[|h| - 1], Run(env, h), id);
    }
  }

  lemma OutcomeRecorded(s: State, e: Event, s': State, id: int)
    requires OutcomeFits(s, id) && (s.thread.status.Returned? ==> s'.thread.status == s.thread.status)
    requires id in s'.pendingActions ==>
               || s'.pendingActions[id].kind.Schedule?
               || (id in Recorded(s, e, s') && s'.pendingActions[id] == Recorded(s, e, s')[id])
    ensures OutcomeFits(s', id)
  {
  }

  /**
   * A completion survives, exactly. The completion that tells what the orchestrator returned is pending
   * under an id if and only if no call has been issued under that id, and the return filed it there and
   * no later event confirmed the id or filed a termination over it.
   */
  lemma {:induction false} CompletionSurvivesExactly(env: Env, h: seq<Event>, id: int)
    requires WellOwned(env) && Admissible(env, h) && !Run(env, h).thread.status.Panicked?
    ensures HasOutcome(Run(env, h), id) <==>
            Run(env, h).thread.nextId < id && exists n: nat :: LastsFrom(env, h, n, id, ByReturn)
    ensures OutcomeFits(Run(env, h), id)
  {
    hide Run, LastsFrom;
    FilingExactly(env, h, id, ByReturn);
    OutcomeAlwaysFits(env, h, id);
  }

  /**
   * Termination survives, exactly. A Terminated completion is pending under an id if and only if no
   * call has been issued under that id, and some termination was filed under it which no later event
   * confirmed and no later return wrote its own completion over.
   */
  lemma {:induction false} TerminationSurvivesExactly(env: Env, h: seq<Event>, id: int)
    requires WellOwned(env) && Admissible(env, h) && !Run(env, h).thread.status.Panicked?
    ensures HasTermination(Run(env, h), id) <==>
            Run(env, h).thread.nextId < id && exists n: nat :: LastsFrom(env, h, n, id, ByTermination)
  {
    hide Run, LastsFrom;
    FilingExactly(env, h, id, ByTermination);
  }

  // Without terminations.

  /** An orchestrator that returns in the q-th event has returned ever after, and issues nothing more. */
  lemma {:induction false} ReturnedSince(env: Env, h: seq<Event>, q: nat, m: nat)
    requires WellOwned(env) && Admissible(env, h) && !Run(env, h).thread.status.Panicked?
    requires ReturnsAt(env, h, q) && q < m <= |h|
    ensures Run(env, h[..m]).thread.status.Returned?
    ensures Run(env, h[..m]).thread.nextId == Run(env, h[..q + 1]).thread.nextId
    decreases m
  {
    hide Run;
    if q + 1 < m {
      ReturnedSince(env, h, q, m - 1);
      UnfaultedPrefix(env, h, m);
      assert h[..m][..m - 1] == h[..m - 1];
      ReturnedStays(env, h[..m]);
    }
  }

  /** It returns only once. */
  lemma {:induction false} ReturnsOnce(env: Env, h: seq<Event>, q: nat, r: nat)
    requires WellOwned(env) && Admissible(env, h) && !Run(env, h).thread.status.Panicked?
    requires ReturnsAt(env, h, q) && ReturnsAt(env, h, r)
    ensures q == r
  {
    hide Run;
    if q < r {
      ReturnedSince(env, h, q, r);
    } else if r < q {
      ReturnedSince(env, h, r, q);
    }
  }

  /** No event after the q-th confirms the id. */
  ghost predicate Undisturbed(h: seq<Event>, q: nat, id: int) {
    forall m: nat :: q < m < |h| ==> !h[m].Confirms(id)
  }

  lemma UndisturbedLasts(env: Env, h: seq<Event>, q: nat, id: int)
    requires Unterminated(h) && q < |h|
    ensures LastsFrom(env, h, q, id, ByReturn) <==> CompletesAt(env, h, q, id) && Undisturbed(h, q, id)
  {
    hide Run, CompletesAt;
    assert forall m: nat :: m < |h| ==> h[m] in h;
    forall m: nat | q < m < |h| ensures DisplacesAt(env, h, m, id, ByReturn) <==> h[m].Confirms(id) {
    }
    if Undisturbed(h, q, id) {
      forall m: nat | q < m ensures !DisplacesAt(env, h, m, id, ByReturn) {
      }
    }
  }

  /** Without terminations a return files its completion under the id after the issued ones. */
  lemma {:induction false} UnterminatedReturn(env: Env, h: seq<Event>, q: nat)
    requires WellOwned(env) && Admissible(env, h) && Unterminated(h) && !Run(env, h).thread.status.Panicked?
    requires ReturnsAt(env, h, q)
    ensures Run(env, h[..q]).sequenceNumber == Run(env, h[..q]).thread.nextId <= Run(env, h).thread.nextId
    ensures Run(env, h).thread.status.Returned?
    ensures Run(env, h).thread.nextId == Run(env, h[..q + 1]).thread.nextId
  {
    hide Run, Step, WellOwned, Admissible;
    UnfaultedPrefix(env, h, q);
    assert forall e :: e in h[..q] ==> e in h;
    NoCompletionYet(env, h[..q], 0);
    ReturnedSince(env, h, q, |h|);
    UnfaultedPrefix(env, h, q + 1);
    assert h[..|h|] == h && h[..q + 1][..q] == h[..q];
    IdsStep(env, h[..q + 1]);
  }

  /**
   * Completion without terminations, exactly. Once the orchestrator has returned, its completion is
   * pending if and only if the event in which it returned was no ExecutionCompleted and issued no action,
   * and nothing confirmed its id since; it is then the only one, under the id after the issued ones, with
   * the status and result of the orchestrator's outcome.
   */
  lemma {:induction false} CompletionExactly(env: Env, h: seq<Event>, q: nat, id: int)
    requires WellOwned(env) && Admissible(env, h) && Unterminated(h) && !Run(env, h).thread.status.Panicked?
    requires ReturnsAt(env, h, q)
    ensures var s := Run(env, h);
            && s.thread.status.Returned?
            && (HasCompletion(s, id) <==>
                  && id == s.thread.nextId + 1 && !h[q].ExecutionCompleted?
                  && Run(env, h[..q]).thread.nextId == Run(env, h[..q + 1]).thread.nextId
                  && Undisturbed(h, q, id))
            && !HasTermination(s, id) && OutcomeFits(s, id)
  {
    hide Run;
    UnterminatedReturn(env, h, q);
    CompletionSurvivesExactly(env, h, id);
    TerminationSurvivesExactly(env, h, id);
    forall n: nat | CompletesAt(env, h, n, id) ensures n == q {
      ReturnsOnce(env, h, n, q);
    }
    UndisturbedLasts(env, h, q, id);
    assert forall n: nat :: !LastsFrom(env, h, n, id, ByTermination) by {
      assert forall m: nat :: m < |h| ==> h[m] in h;
    }
  }

  /** A termination and what follows it. */
  function Terminating(a: seq<Event>, b: seq<Event>): seq<Event> {
    a + [ExecutionTerminated] + b
  }

  // An orchestrator that is ready at once.

  /**
   * The case admissibility leaves out. A started orchestrator is dropped exactly when the inputs
   * raised so far already carry its program to a return. Nothing of it is then left: no completion,
   * no scheduled action, no task and no waiter; but the buffered inputs it took are gone.
   */
  lemma {:induction false} ReadyAtOnce(env: Env, h: seq<Event>, e: Event) returns (meaning: seq<string>)
    requires WellOwned(env) && Admissible(env, h) && Run(env, h).thread.status.Absent? && IsStart(env, e)
    ensures Settles(env, env.registry[e.name](e.input), Heard(env, h), meaning)
    ensures var s, s', body := Run(env, h), Run(env, h + [e]), env.registry[e.name](e.input);
            && (s'.thread.status.Absent? <==> body(meaning).tail.Return?)
            && (s'.thread.status.Absent? ==>
                  && s' == s.(thread := s.thread.(received := s'.thread.received))
                  && MailShows(env, s'.thread.received, OpsAt(body, meaning), Heard(env, h)))
  {
    hide Step, Run;
    var s, body := Run(env, h), env.registry[e.name](e.input);
    RunBoundary(env, h);
    RunSnoc(env, h, e);
    LaunchSettles(env, s, Heard(env, h), body);
    DroppedStart(env, s, e);
    meaning := Launch(env, s.thread.gen + 1, body, s.thread.received).trace;
  }

  lemma DroppedStart(env: Env, s: State, e: Event)
    requires Drained(s.thread) && s.thread.status.Absent? && IsStart(env, e)
    requires !Launch(env, s.thread.gen + 1, env.registry[e.name](e.input), s.thread.received).status.Absent?
    ensures var t := Launch(env, s.thread.gen + 1, env.registry[e.name](e.input), s.thread.received);
            && (t.status.Blocked? ==> Step(env, s, e).thread.status.Blocked?)
            && (t.status.Returned? ==> Step(env, s, e) == s.(thread := s.thread.(received := t.received)))
  {
    hide Launch;
    assert ProcessEvent(env, s, e) == Start(env, s, e.name, e.input);
    var t := Launch(env, s.thread.gen + 1, env.registry[e.name](e.input), s.thread.received);
    assert Drain(s.(thread := s.thread.(received := t.received))) == s.(thread := s.thread.(received := t.received));
  }

  /** What a termination recorded under `id` keeps promising, relative to the `issued` ids at that time. */
  predicate TerminationKept(s: State, id: int, issued: nat) {
    && issued <= s.thread.nextId
    && (s.thread.nextId == issued ==> HasTermination(s, id) && s.sequenceNumber >= id)
    && (!s.thread.status.Returned? && s.thread.nextId < id ==> HasTermination(s, id))
  }

  lemma TerminatedStep(env: Env, s: State, i: Inputs)
    requires Boundary(env, s, i) && s.sequenceNumber >= s.thread.nextId
    ensures TerminationKept(Step(env, s, ExecutionTerminated), s.sequenceNumber + 1, s.thread.nextId)
  {
  }

  lemma TerminatedNow(env: Env, a: seq<Event>)
    requires WellOwned(env) && Admissible(env, a + [ExecutionTerminated])
    requires !Run(env, a + [ExecutionTerminated]).thread.status.Panicked?
    ensures Run(env, a).thread.nextId < Run(env, a).sequenceNumber + 1
    ensures TerminationKept(Run(env, a + [ExecutionTerminated]), Run(env, a).sequenceNumber + 1,
                            Run(env, a).thread.nextId)
  {
    hide Step;
    var h := a + [ExecutionTerminated];
    assert h[..|h| - 1] == a;
    AdmissiblePrefix(env, h, |a|);
    FaultsLast(env, h);
    RunSnoc(env, a, ExecutionTerminated);
    TwoCounters(env, a);
    RunBoundary(env, a);
    TerminatedStep(env, Run(env, a), Heard(env, a));
  }

  lemma AfterTermination(env: Env, s: State, i: Inputs, e: Event, id: int, issued: nat)
    requires WellOwned(env) && Boundary(env, s, i) && AdmissibleEvent(env, s, e) && !Faults(env, s, e)
    requires TerminationKept(s, id, issued) && issued < id && !e.Confirms(id)
    ensures TerminationKept(Step(env, s, e), id, issued)
  {
    hide Step;
    var s' := Step(env, s, e);
    StepActions(env, s, i, e);
    if s.thread.status.Returned? {
      ReturnedStep(env, s, i, e);
    }
    assert HasTermination(s, id) ==> id in Recorded(s, e, s');
  }

  /**
   * Termination survives. The Terminated completion is recorded under an id beyond every issued
   * one. As long as nothing confirms that id, it stays through any events that issue no action; and
   * while the orchestrator has not returned, it stays as long as its id has not been issued.
   */
  lemma {:induction false} TerminationSurvives(env: Env, a: seq<Event>, b: seq<Event>)
    requires WellOwned(env) && Admissible(env, Terminating(a, b))
    requires !Run(env, Terminating(a, b)).thread.status.Panicked?
    requires forall e :: e in b ==> !e.Confirms(Run(env, a).sequenceNumber + 1)
    ensures Run(env, a).thread.nextId < Run(env, a).sequenceNumber + 1
    ensures TerminationKept(Run(env, Terminating(a, b)), Run(env, a).sequenceNumber + 1, Run(env, a).thread.nextId)
  {
    hide Step;
    var h := Terminating(a, b);
    var id, issued := Run(env, a).sequenceNumber + 1, Run(env, a).thread.nextId;
    if b == [] {
      assert h == a + [ExecutionTerminated];
      TerminatedNow(env, a);
    } else {
      var before, e := h[..|h| - 1], h[|h| - 1];
      var earlier := b[..|b| - 1];
      assert before == Terminating(a, earlier);
      assert forall e' :: e' in earlier ==> e' in b;
      assert e == b[|b| - 1] && b[|b| - 1] in b;
      AdmissiblePrefix(env, h, |h| - 1);
      FaultsLast(env, h);
      RunBoundary(env, before);
      RunLast(env, h);
      TerminationSurvives(env, a, earlier);
      AfterTermination(env, Run(env, before), Heard(env, before), e, id, issued);
    }
  }
}
