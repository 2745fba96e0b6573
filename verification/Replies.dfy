/** What an execution answers, action by action. */
module Replies {
  import opened Types
  import opened Orchestrator
  import opened Replay
  import opened Meaning
  import opened Boundaries
  import opened Refinement
  import opened Actions
  import opened Completions
  import opened Determinism
  import opened Invariants

  /** The action schedules the call issued under its id, which nothing has confirmed since. */
  ghost predicate DueScheduling(env: Env, h: seq<Event>, a: Action) {
    var log := LogOf(Run(env, h));
    && 1 <= a.id <= TaskCount(log) && a.kind == Schedule(CallOf(log, a.id)) && Unconfirmed(env, h, a.id)
  }

  /** The action tells the outcome that was filed under its id, and which nothing has displaced. */
  ghost predicate DueOutcome(env: Env, h: seq<Event>, a: Action) {
    var s := Run(env, h);
    && s.thread.status.Returned? && TellsOutcome(a, s.thread.status.outcome)
    && s.thread.nextId < a.id && exists n: nat :: LastsFrom(env, h, n, a.id, ByReturn)
  }

  /** The action tells of a termination that was filed under its id, and which nothing has displaced. */
  ghost predicate DueTermination(env: Env, h: seq<Event>, a: Action) {
    && a.kind == Complete(Terminated, None)
    && Run(env, h).thread.nextId < a.id && exists n: nat :: LastsFrom(env, h, n, a.id, ByTermination)
  }

  lemma SameOutcome(a: Action, b: Action, outcome: Outcome)
    requires TellsOutcome(a, outcome) && TellsOutcome(b, outcome) && a.id == b.id
    ensures a == b && a.kind.status != Terminated
  {
  }

  lemma {:induction false} OutcomeDue(env: Env, h: seq<Event>, a: Action)
    requires WellOwned(env) && Admissible(env, h) && !Run(env, h).thread.status.Panicked?
    ensures DueOutcome(env, h, a) <==> HasOutcome(Run(env, h), a.id) && Run(env, h).pendingActions[a.id] == a
  {
    hide Run, LastsFrom, TellsOutcome;
    CompletionSurvivesExactly(env, h, a.id);
    if DueOutcome(env, h, a) {
      SameOutcome(a, Run(env, h).pendingActions[a.id], Run(env, h).thread.status.outcome);
    }
  }

  lemma {:induction false} TerminationDue(env: Env, h: seq<Event>, a: Action)
    requires WellOwned(env) && Admissible(env, h) && !Run(env, h).thread.status.Panicked?
    ensures DueTermination(env, h, a) <==> HasTermination(Run(env, h), a.id) && Run(env, h).pendingActions[a.id] == a
  {
    hide Run, LastsFrom;
    TerminationSurvivesExactly(env, h, a.id);
  }

  lemma {:induction false} SchedulingDue(env: Env, h: seq<Event>, a: Action)
    requires WellOwned(env) && Admissible(env, h) && !Run(env, h).thread.status.Panicked?
    ensures DueScheduling(env, h, a) <==>
            a.id in Run(env, h).pendingActions && a.kind.Schedule? && Run(env, h).pendingActions[a.id] == a
  {
    hide Run, Unconfirmed;
    ActionsReconcile(env, h, a.id);
  }

  /**
   * The answer of an execution, exactly. It is a panic if and only if the history faults; otherwise an
   * action is answered if and only if it schedules an issued call that nothing has confirmed since, or
   * tells the outcome the orchestrator returned or a termination, as filed and displaced by nothing.
   */
  lemma {:induction false} AnswersExactly(env: Env, past: seq<Event>, recent: seq<Event>, a: Action)
    requires WellOwned(env) && Admissible(env, past + recent)
    ensures var h, r := past + recent, Execute(env, past, recent);
            && (r.Crashed? <==> exists n: nat :: FaultsAt(env, h, n))
            && (r.Reply? ==>
                  (a in r.actions <==> DueScheduling(env, h, a) || DueOutcome(env, h, a) || DueTermination(env, h, a)))
  {
    hide Run, DueScheduling, DueOutcome, DueTermination, FaultsAt, Execute;
    var h := past + recent;
    AnswerExactly(env, past, recent);
    FaultsExactly(env, h);
    if !Run(env, h).thread.status.Panicked? {
      SchedulingDue(env, h, a);
      OutcomeDue(env, h, a);
      TerminationDue(env, h, a);
      AlwaysSound(env, h);
    }
  }
}
