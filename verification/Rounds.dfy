/**
 * Many rounds against a server. In each round the server appends new events, has the whole history
 * executed from scratch, and appends a confirmation for every scheduling action it is given.
 */
module Rounds {
  import opened Types
  import opened Orchestrator
  import opened Replay
  import opened Meaning
  import opened Simulation
  import opened Boundaries
  import opened Refinement
  import opened Actions
  import opened Completions
  import opened Determinism

  datatype Round = Round(batch: seq<Event>, confirmations: seq<Event>)

  function History(rounds: seq<Round>): seq<Event> {
    if rounds == [] then []
    else
      var last := rounds[|rounds| - 1];
      History(rounds[..|rounds| - 1]) + (last.batch + last.confirmations)
  }

  /** The history a round is executed on. */
  function Asked(rounds: seq<Round>, k: nat): seq<Event>
    requires k < |rounds|
  {
    History(rounds[..k]) + rounds[k].batch
  }

  /** What the engine answers in a round, replaying everything from scratch. */
  function Answer(env: Env, rounds: seq<Round>, k: nat): Response
    requires k < |rounds|
  {
    Execute(env, History(rounds[..k]), rounds[k].batch)
  }

  function ConfirmationOf(a: Action): Event
    requires a.kind.Schedule?
  {
    match a.kind.call
    case Timer => TimerCreated(a.id)
    case Activity(_, _) => TaskScheduled(a.id)
    case SubOrchestration(_, _, _) => SubOrchestrationInstanceCreated(a.id)
  }

  /** The server confirms every scheduling action it was given, in any order, and appends nothing else. */
  ghost predicate Confirm(confirmations: seq<Event>, actions: set<Action>) {
    && (forall a :: a in actions && a.kind.Schedule? ==> ConfirmationOf(a) in confirmations)
    && (forall e :: e in confirmations ==> e.IsConfirmation())
  }

  /** The assumption on the server in one round: it appends confirmations as replies only. */
  ghost predicate HonestRound(env: Env, rounds: seq<Round>, k: nat)
    requires k < |rounds|
  {
    && (forall e :: e in rounds[k].batch ==> !e.IsConfirmation())
    && (Answer(env, rounds, k).Reply? ==> Confirm(rounds[k].confirmations, Answer(env, rounds, k).actions))
  }

  ghost predicate Honest(env: Env, rounds: seq<Round>) {
    forall k: nat {:trigger HonestRound(env, rounds, k)} :: k < |rounds| ==> HonestRound(env, rounds, k)
  }

  // One round.

  function ConfirmedIds(confirmations: seq<Event>): set<int> {
    set e | e in confirmations && e.IsConfirmation() :: e.eventId
  }

  lemma ConfirmStep(env: Env, s: State, e: Event)
    requires Drained(s.thread) && !s.thread.status.Panicked? && e.IsConfirmation()
    ensures Step(env, s, e) == s.(pendingActions := s.pendingActions - {e.eventId})
  {
    DrainNothing(s.(pendingActions := s.pendingActions - {e.eventId}));
  }

  /** Confirmations remove the actions they name and touch nothing else. */
  lemma {:induction false} ConfirmationsRemove(env: Env, s: State, confirmations: seq<Event>)
    requires Drained(s.thread) && !s.thread.status.Panicked?
    requires forall e :: e in confirmations ==> e.IsConfirmation()
    ensures RunFrom(env, s, confirmations)
              == s.(pendingActions := s.pendingActions - ConfirmedIds(confirmations))
  {
    hide Step;
    if confirmations == [] {
      assert s.pendingActions - ConfirmedIds([]) == s.pendingActions;
    } else {
      var before, e := confirmations[..|confirmations| - 1], confirmations[|confirmations| - 1];
      assert e in confirmations && forall e' :: e' in before ==> e' in confirmations;
      ConfirmationsRemove(env, s, before);
      ConfirmStep(env, RunFrom(env, s, before), e);
      assert confirmations == before + [e];
      assert ConfirmedIds(confirmations) == ConfirmedIds(before) + {e.eventId};
      assert s.pendingActions - ConfirmedIds(before) - {e.eventId} == s.pendingActions - ConfirmedIds(confirmations);
    }
  }

  // All rounds.

  lemma HistorySplit(rounds: seq<Round>, k: nat)
    requires k < |rounds|
    ensures History(rounds[..k + 1]) == Asked(rounds, k) + rounds[k].confirmations
  {
    assert rounds[..k + 1][..k] == rounds[..k];
    assert History(rounds[..k]) + (rounds[k].batch + rounds[k].confirmations)
        == History(rounds[..k]) + rounds[k].batch + rounds[k].confirmations;
  }

  lemma {:induction false} HistoryPrefix(rounds: seq<Round>, k: nat)
    requires k <= |rounds|
    ensures History(rounds[..k]) <= History(rounds)
    ensures k < |rounds| ==> Asked(rounds, k) <= History(rounds)
    decreases |rounds|
  {
    if k < |rounds| {
      var before := rounds[..|rounds| - 1];
      assert before[..k] == rounds[..k];
      HistoryPrefix(before, k);
      if k == |rounds| - 1 {
        HistorySplit(rounds, k);
        assert rounds[..k + 1] == rounds;
      }
    } else {
      assert rounds[..k] == rounds;
    }
  }

  /** Honest rounds whose run does not fault. The orchestrator may be terminated, and may return. */
  ghost predicate GoodRounds(env: Env, rounds: seq<Round>) {
    && WellOwned(env) && Honest(env, rounds) && Admissible(env, History(rounds))
    && !Run(env, History(rounds)).thread.status.Panicked?
  }

  lemma {:induction false} GoodPrefix(env: Env, rounds: seq<Round>, k: nat)
    requires GoodRounds(env, rounds) && k < |rounds|
    ensures Admissible(env, History(rounds[..k])) && !Run(env, History(rounds[..k])).thread.status.Panicked?
    ensures Admissible(env, Asked(rounds, k)) && !Run(env, Asked(rounds, k)).thread.status.Panicked?
    ensures HonestRound(env, rounds, k)
    ensures Answer(env, rounds, k) == Reply(ValuesOf(Run(env, Asked(rounds, k)).pendingActions))
  {
    hide Run, Execute, History;
    HistoryPrefix(rounds, k);
    UnfaultedPrefix(env, History(rounds), |History(rounds[..k])|);
    UnfaultedPrefix(env, History(rounds), |Asked(rounds, k)|);
    assert History(rounds)[..|History(rounds[..k])|] == History(rounds[..k]);
    assert History(rounds)[..|Asked(rounds, k)|] == Asked(rounds, k);
    SplitIndependence(env, History(rounds[..k]), rounds[k].batch, History(rounds[..k]), rounds[k].batch);
  }

  /** The ids issued by the end of round k, and those issued before it. */
  function IssuedBy(env: Env, rounds: seq<Round>, k: nat): nat
    requires k < |rounds|
  {
    Run(env, Asked(rounds, k)).thread.nextId
  }

  function IssuedBefore(env: Env, rounds: seq<Round>, k: nat): nat
    requires k < |rounds|
  {
    Run(env, History(rounds[..k])).thread.nextId
  }

  lemma {:induction false} IdsGrow(env: Env, h: seq<Event>, n: nat)
    requires WellOwned(env) && Admissible(env, h) && !Run(env, h).thread.status.Panicked? && n <= |h|
    ensures Run(env, h[..n]).thread.nextId <= Run(env, h).thread.nextId
  {
    hide Run;
    assert h[..n] + h[n..] == h;
    UnfaultedPrefix(env, h, n);
    LogIsPrefixStable(env, h[..n], h[n..]);
    TwoCounters(env, h[..n]);
    TwoCounters(env, h);
    HandlesGrow(env, LogOf(Run(env, h[..n])), LogOf(Run(env, h)), "");
  }

  /** The confirmations of a round issue nothing. */
  lemma {:induction false} NothingIssuedBetween(env: Env, rounds: seq<Round>, k: nat)
    requires GoodRounds(env, rounds) && k < |rounds|
    ensures Run(env, History(rounds[..k + 1])).thread == Run(env, Asked(rounds, k)).thread
    ensures IssuedBefore(env, rounds, k) <= IssuedBy(env, rounds, k)
  {
    hide Step, RunFrom, Execute, History;
    GoodPrefix(env, rounds, k);
    HistorySplit(rounds, k);
    RunFromSplit(env, Init(), Asked(rounds, k), rounds[k].confirmations);
    RunBoundary(env, Asked(rounds, k));
    ConfirmationsRemove(env, Run(env, Asked(rounds, k)), rounds[k].confirmations);
    IdsGrow(env, Asked(rounds, k), |History(rounds[..k])|);
    assert Asked(rounds, k)[..|History(rounds[..k])|] == History(rounds[..k]);
  }

  lemma {:induction false} IssuedByGrows(env: Env, rounds: seq<Round>, j: nat, k: nat)
    requires GoodRounds(env, rounds) && j < k < |rounds|
    ensures IssuedBy(env, rounds, j) <= IssuedBefore(env, rounds, k)
    decreases k
  {
    hide Run, Execute, History;
    NothingIssuedBetween(env, rounds, k - 1);
    if j < k - 1 {
      IssuedByGrows(env, rounds, j, k - 1);
    }
  }

  /** The round in which an id was issued. */
  lemma {:induction false} RoundOf(env: Env, rounds: seq<Round>, last: nat, id: int) returns (k: nat)
    requires GoodRounds(env, rounds) && last < |rounds| && 1 <= id <= IssuedBy(env, rounds, last)
    ensures k <= last && IssuedBefore(env, rounds, k) < id <= IssuedBy(env, rounds, k)
    decreases last
  {
    hide Run, Execute, History;
    if id > IssuedBefore(env, rounds, last) {
      k := last;
    } else if last > 0 {
      NothingIssuedBetween(env, rounds, last - 1);
      k := RoundOf(env, rounds, last - 1, id);
    } else {
      assert rounds[..0] == [];
      NothingIssuedAtFirst(env, rounds);
    }
  }

  lemma NothingIssuedAtFirst(env: Env, rounds: seq<Round>)
    requires rounds != []
    ensures IssuedBefore(env, rounds, 0) == 0
  {
    assert rounds[..0] == [];
  }

  /** A call issued in the batch of a round is pending when the round is answered: nothing can have confirmed it. */
  lemma {:induction false} PendingWhenIssued(env: Env, rounds: seq<Round>, k: nat, id: int)
    requires GoodRounds(env, rounds) && k < |rounds|
    requires IssuedBefore(env, rounds, k) < id <= IssuedBy(env, rounds, k)
    ensures id in Run(env, Asked(rounds, k)).pendingActions
  {
    hide Run, Execute, History;
    var h, past := Asked(rounds, k), History(rounds[..k]);
    GoodPrefix(env, rounds, k);
    ActionsReconcile(env, h, id);
    forall n: nat ensures !ConfirmedAt(env, h, n, id) {
      if n < |past| {
        assert h[..n] == past[..n];
        IdsGrow(env, past, n);
      } else if n < |h| {
        assert h[n] == rounds[k].batch[n - |past|];
      }
    }
  }

  /** A call issued before a round is not: the server has confirmed it in the round that issued it. */
  lemma {:induction false} ConfirmedAfterwards(env: Env, rounds: seq<Round>, j: nat, k: nat, id: int)
    requires GoodRounds(env, rounds) && j < k < |rounds|
    requires IssuedBefore(env, rounds, j) < id <= IssuedBy(env, rounds, j)
    ensures id !in Run(env, Asked(rounds, k)).pendingActions
  {
    hide Run, Execute, History;
    var h := Asked(rounds, k);
    GoodPrefix(env, rounds, k);
    IssuedByGrows(env, rounds, j, k);
    NothingIssuedBetween(env, rounds, k);
    ActionsReconcile(env, h, id);
    var n := ConfirmationPlace(env, rounds, j, k, id);
    assert ConfirmedAt(env, h, n, id);
  }

  /** Where in the history of a later round a call is confirmed. */
  lemma {:induction false} ConfirmationPlace(env: Env, rounds: seq<Round>, j: nat, k: nat, id: int) returns (n: nat)
    requires GoodRounds(env, rounds) && j < k < |rounds|
    requires IssuedBefore(env, rounds, j) < id <= IssuedBy(env, rounds, j)
    ensures ConfirmedAt(env, Asked(rounds, k), n, id)
  {
    hide Run, Execute, History;
    var h, asked, replies := Asked(rounds, k), Asked(rounds, j), rounds[j].confirmations;
    GoodPrefix(env, rounds, j);
    GoodPrefix(env, rounds, k);
    PendingWhenIssued(env, rounds, j, id);
    ActionsReconcile(env, asked, id);
    var m := Run(env, asked).pendingActions;
    assert m[id] in ValuesOf(m);
    var p: nat :| p < |replies| && replies[p] == ConfirmationOf(m[id]);
    HistorySplit(rounds, j);
    HistoryPrefix(rounds[..k], j + 1);
    assert rounds[..k][..j + 1] == rounds[..j + 1];
    assert asked + replies <= h;
    n := |asked| + p;
    assert h[n] == replies[p] && asked == h[..n][..|asked|];
    UnfaultedPrefix(env, h, n);
    IdsGrow(env, h[..n], |asked|);
  }

  function Schedulings(actions: set<Action>): set<Action> {
    set a | a in actions && a.kind.Schedule?
  }

  /** An issued id is pending in the answer of a round exactly when it was issued in that round. */
  lemma {:induction false} RoundPending(env: Env, rounds: seq<Round>, k: nat, id: int)
    requires GoodRounds(env, rounds) && k < |rounds|
    ensures var s := Run(env, Asked(rounds, k));
            && s.thread.nextId == TaskCount(LogOf(s))
            && (id in s.pendingActions && s.pendingActions[id].kind.Schedule? <==>
                  IssuedBefore(env, rounds, k) < id <= IssuedBy(env, rounds, k))
            && (IssuedBefore(env, rounds, k) < id <= IssuedBy(env, rounds, k) ==>
                  s.pendingActions[id] == Action(id, Schedule(CallOf(LogOf(s), id))))
  {
    hide Run, Execute, History;
    GoodPrefix(env, rounds, k);
    ActionsReconcile(env, Asked(rounds, k), id);
    if 1 <= id <= IssuedBy(env, rounds, k) {
      var j := RoundOf(env, rounds, k, id);
      if j < k {
        ConfirmedAfterwards(env, rounds, j, k, id);
        IssuedByGrows(env, rounds, j, k);
      } else {
        PendingWhenIssued(env, rounds, k, id);
      }
    }
  }

  /**
   * What a round returns: its schedulings are exactly those of the ids that its batch made the
   * orchestrator issue, each with its call, no matter how much history was replayed. This holds for
   * terminated orchestrators, and for the round in which an orchestrator returns and those after it.
   */
  lemma {:induction false} RoundReturns(env: Env, rounds: seq<Round>, k: nat)
    requires GoodRounds(env, rounds) && k < |rounds|
    ensures var s, n, n' := Run(env, Asked(rounds, k)), IssuedBefore(env, rounds, k), IssuedBy(env, rounds, k);
            && n <= n' == TaskCount(LogOf(s))
            && n == (if k == 0 then 0 else IssuedBy(env, rounds, k - 1))
            && Answer(env, rounds, k).Reply?
            && Schedulings(Answer(env, rounds, k).actions) == ValuesOf(Issued(LogOf(s), n, n'))
  {
    hide Run, Execute, History, LogOf;
    var s, n, n' := Run(env, Asked(rounds, k)), IssuedBefore(env, rounds, k), IssuedBy(env, rounds, k);
    GoodPrefix(env, rounds, k);
    NothingIssuedBetween(env, rounds, k);
    RoundPending(env, rounds, k, 0);
    if k > 0 {
      NothingIssuedBetween(env, rounds, k - 1);
    } else {
      NothingIssuedAtFirst(env, rounds);
    }
    var m, issued := s.pendingActions, Issued(LogOf(s), n, n');
    forall id
      ensures id in m && m[id].kind.Schedule? <==> id in issued
      ensures id in issued ==> m[id] == issued[id]
    {
      RoundPending(env, rounds, k, id);
    }
    ScheduledValues(m, issued);
  }

  lemma ScheduledValues(m: map<int, Action>, issued: map<int, Action>)
    requires forall id :: (id in m && m[id].kind.Schedule?) <==> id in issued
    requires forall id :: id in issued ==> m[id] == issued[id]
    ensures Schedulings(ValuesOf(m)) == ValuesOf(issued)
  {
    forall a ensures a in Schedulings(ValuesOf(m)) <==> a in ValuesOf(issued) {
    }
  }

  /** Before the return, and without a termination, a round returns nothing else. */
  lemma {:induction false} NothingElseReturned(env: Env, rounds: seq<Round>, k: nat)
    requires GoodRounds(env, rounds) && k < |rounds| && Unterminated(Asked(rounds, k))
    requires !Run(env, Asked(rounds, k)).thread.status.Returned?
    ensures Answer(env, rounds, k).Reply?
    ensures Schedulings(Answer(env, rounds, k).actions) == Answer(env, rounds, k).actions
  {
    hide Run, Execute, History;
    GoodPrefix(env, rounds, k);
    var m := Run(env, Asked(rounds, k)).pendingActions;
    forall id | id in m ensures m[id].kind.Schedule? {
      NoCompletionYet(env, Asked(rounds, k), id);
    }
  }

  /** A round returns a scheduling under this id. */
  ghost predicate ReturnedIn(env: Env, rounds: seq<Round>, k: nat, id: int) {
    && k < |rounds| && Answer(env, rounds, k).Reply?
    && exists a :: a in Schedulings(Answer(env, rounds, k).actions) && a.id == id
  }

  /** A round returns an id exactly when the id was issued in that round. */
  lemma {:induction false} ReturnedWhenIssued(env: Env, rounds: seq<Round>, k: nat, id: int)
    requires GoodRounds(env, rounds) && k < |rounds|
    ensures ReturnedIn(env, rounds, k, id) <==> IssuedBefore(env, rounds, k) < id <= IssuedBy(env, rounds, k)
  {
    hide Run, Execute, History, LogOf, Schedulings;
    RoundReturns(env, rounds, k);
    var m := Issued(LogOf(Run(env, Asked(rounds, k))), IssuedBefore(env, rounds, k), IssuedBy(env, rounds, k));
    if id in m {
      assert m[id] in ValuesOf(m) && m[id].id == id;
    }
  }

  /** No scheduling is ever returned twice. */
  lemma {:induction false} NeverReturnedTwice(env: Env, rounds: seq<Round>, j: nat, k: nat, id: int)
    requires GoodRounds(env, rounds) && ReturnedIn(env, rounds, j, id) && ReturnedIn(env, rounds, k, id)
    ensures j == k
  {
    hide Run, Execute, History;
    ReturnedWhenIssued(env, rounds, j, id);
    ReturnedWhenIssued(env, rounds, k, id);
    if j < k {
      IssuedByGrows(env, rounds, j, k);
    } else if k < j {
      IssuedByGrows(env, rounds, k, j);
    }
  }

  /**
   * Exactly-once scheduling over whole runs, terminated and finished ones included: the ids under which
   * schedulings are returned are exactly the issued ones, and each is returned in one round only.
   */
  lemma {:induction false} ScheduledExactlyOnce(env: Env, rounds: seq<Round>, id: int)
    requires GoodRounds(env, rounds) && rounds != []
    ensures 1 <= id <= Run(env, History(rounds)).thread.nextId <==>
            exists k: nat :: ReturnedIn(env, rounds, k, id)
    ensures forall j: nat, k: nat ::
              ReturnedIn(env, rounds, j, id) && ReturnedIn(env, rounds, k, id) ==> j == k
  {
    hide Run, Execute, History, ReturnedIn;
    var last := |rounds| - 1;
    assert rounds[..last + 1] == rounds;
    NothingIssuedBetween(env, rounds, last);
    if 1 <= id <= IssuedBy(env, rounds, last) {
      var k := RoundOf(env, rounds, last, id);
      ReturnedWhenIssued(env, rounds, k, id);
    }
    forall k: nat | ReturnedIn(env, rounds, k, id) ensures 1 <= id <= IssuedBy(env, rounds, last) {
      InRounds(env, rounds, k, id);
      ReturnedWhenIssued(env, rounds, k, id);
      if k < last {
        IssuedByGrows(env, rounds, k, last);
        NothingIssuedBetween(env, rounds, last);
      }
    }
    forall j: nat, k: nat | ReturnedIn(env, rounds, j, id) && ReturnedIn(env, rounds, k, id) ensures j == k {
      NeverReturnedTwice(env, rounds, j, k, id);
    }
  }

  lemma InRounds(env: Env, rounds: seq<Round>, k: nat, id: int)
    requires ReturnedIn(env, rounds, k, id)
    ensures k < |rounds|
  {
  }

  /** The state of an executor that is kept in memory from round to round instead of being rebuilt. */
  function InMemory(env: Env, rounds: seq<Round>): State {
    if rounds == [] then Init()
    else
      var last := rounds[|rounds| - 1];
      RunFrom(env, RunFrom(env, InMemory(env, rounds[..|rounds| - 1]), last.batch), last.confirmations)
  }

  /** Replay from scratch answers every round as an executor kept in memory would. */
  lemma {:induction false} ScratchEqualsMemory(env: Env, rounds: seq<Round>, k: nat)
    requires k < |rounds|
    ensures InMemory(env, rounds[..k]) == Run(env, History(rounds[..k]))
    ensures Answer(env, rounds, k) == Respond(RunFrom(env, InMemory(env, rounds[..k]), rounds[k].batch))
    decreases k
  {
    hide Step;
    if k > 0 {
      ScratchEqualsMemory(env, rounds, k - 1);
      assert rounds[..k][..k - 1] == rounds[..k - 1];
      HistorySplit(rounds, k - 1);
      RunFromSplit(env, Init(), History(rounds[..k - 1]), rounds[k - 1].batch);
      RunFromSplit(env, Init(), Asked(rounds, k - 1), rounds[k - 1].confirmations);
    }
  }
}
