/** Concrete runs of an orchestrator that waits for several things at once. */
module Joins {
  import opened Types
  import opened Orchestrator
  import opened Replay
  import opened Meaning
  import opened Boundaries
  import opened Refinement
  import opened Completions
  import opened Determinism
  import opened Witnesses

  function TimerAction(id: int): Action {
    Action(id, Schedule(Timer))
  }

  // Two timers, of which the first starts a third.

  function Timers(): Program {
    (trace: seq<string>) =>
      if |trace| == 0 then Burst([StartTask(Timer), StartTask(Timer)], Await(0))
      else if |trace| == 1 then Burst([StartTask(Timer)], Await(1))
      else Burst([], Return(Output("done")))
  }

  function TimersEnv(): Env {
    Env((name: string) => name, map["flow" := (input: Option<string>) => Timers()])
  }

  lemma TimersOwned()
    ensures WellOwned(TimersEnv())
  {
    forall trace: seq<string> | Timers()(trace).tail.Await?
      ensures Timers()(trace).tail.handle < |OpsAt(Timers(), trace)|
      ensures Timers()(trace).tail.handle !in Awaited(Timers(), trace)
    {
      if |trace| == 1 {
        assert trace[..0] == [];
        assert Awaited(Timers(), []) == {};
      }
    }
  }

  const TWO := map[1 := TimerAction(1), 2 := TimerAction(2)]
  const THREE := map[1 := TimerAction(1), 2 := TimerAction(2), 3 := TimerAction(3)]

  /** Both timers run. */
  function Both(): State {
    State(2, TWO, map[1 := Sender(1, 0), 2 := Sender(1, 1)], map[],
          Thread(1, Timers(), [], 2, [Empty, Empty], map[], [], [], [], Blocked))
  }

  lemma TimersLaunch()
    ensures Launch(TimersEnv(), 1, Timers(), map[])
         == Both().thread.(actionTx := [(1, TimerAction(1)), (2, TimerAction(2))],
                           taskTx := [(1, Sender(1, 0)), (2, Sender(1, 1))])
  {
    var env, t0 := TimersEnv(), Fresh(1, Timers(), map[]);
    var ops := [StartTask(Timer), StartTask(Timer)];
    assert Timers()([]).ops == ops && ops[..1] == [StartTask(Timer)] && [StartTask(Timer)][..0] == [];
    assert DoOps(env, t0, []) == t0;
    assert DoOps(env, t0, ops[..1]) == DoOp(env, t0, StartTask(Timer));
    assert Enter(env, t0) == DoOp(env, DoOp(env, t0, StartTask(Timer)), StartTask(Timer));
  }

  lemma TimersStart()
    ensures Step(TimersEnv(), Init(), START) == Both()
  {
    hide Launch, Timers;
    var t := Both().thread.(actionTx := [(1, TimerAction(1)), (2, TimerAction(2))],
                            taskTx := [(1, Sender(1, 0)), (2, Sender(1, 1))]);
    TimersLaunch();
    assert ProcessEvent(TimersEnv(), Init(), START) == Start(TimersEnv(), Init(), "flow", None);
    assert Start(TimersEnv(), Init(), "flow", None) == Init().(thread := t);
    var q, r := t.actionTx, t.taskTx;
    assert q[..1] == [q[0]] && [q[0]][..0] == [] && r[..1] == [r[0]] && [r[0]][..0] == [];
    var none: map<int, Action>, nobody: map<int, Sender> := map[], map[];
    assert DrainInto(none, []) == none && DrainInto(nobody, []) == nobody;
    assert DrainInto(none, q[..1]) == map[1 := TimerAction(1)];
    assert DrainInto(nobody, r[..1]) == map[1 := Sender(1, 0)];
    assert DrainInto(none, q) == TWO;
    assert DrainInto(nobody, r) == Both().pendingTasks;
    assert Drain(Init().(thread := t)) == Both();
  }

  /** The third timer has been started; `second` is what the handle of the second shows. */
  function Third(second: Slot): Thread {
    Thread(1, Timers(), [""], 3, [Consumed, second, Empty], map[],
           [(3, TimerAction(3))], [(3, Sender(1, 2))], [], Blocked)
  }

  function Done(): Thread {
    Thread(1, Timers(), ["", ""], 3, [Consumed, Consumed, Empty], map[], [], [], [], Returned(Output("done")))
  }

  lemma FirstFires(second: Slot)
    ensures var env, t := TimersEnv(), Both().thread.(slots := [Sent(Some("")), second]);
            Resume(env, t) == Resume(env, Third(second))
  {
    var env, t := TimersEnv(), Both().thread.(slots := [Sent(Some("")), second]);
    var t1 := Consume(t, 0, "");
    assert [] + [""] == [""];
    assert Timers()([""]).ops == [StartTask(Timer)] && [StartTask(Timer)][..0] == [];
    assert DoOps(env, t1, []) == t1;
    assert Enter(env, t1) == DoOp(env, t1, StartTask(Timer)) == Third(second);
    ConsumeTokens(env, t, 0, "");
  }

  lemma SecondFires(t: Thread)
    requires t.body == Timers() && t.trace == [""] && t.status.Blocked? && t.slots == [Consumed, Sent(Some("")), Empty]
    ensures Resume(TimersEnv(), t)
         == t.(trace := ["", ""], slots := [Consumed, Consumed, Empty], status := Returned(Output("done")))
  {
    var env, t1 := TimersEnv(), Consume(t, 1, "");
    assert [""] + [""] == ["", ""];
    assert Timers()(["", ""]).ops == [];
    assert Enter(env, t1) == t1;
    ConsumeTokens(env, t, 1, "");
    assert Resume(env, t) == Resume(env, t1);
  }

  function OneLeft(): State {
    State(3, THREE, map[2 := Sender(1, 1), 3 := Sender(1, 2)], map[], Third(Empty).(actionTx := [], taskTx := []))
  }

  lemma FirstThenThird()
    ensures Step(TimersEnv(), Both(), TimerFired(1, true)) == OneLeft()
  {
    hide Drain, Timers;
    var env, s := TimersEnv(), Both();
    var told := s.(pendingTasks := map[2 := Sender(1, 1)], thread := s.thread.(slots := [Sent(Some("")), Empty]));
    assert s.pendingTasks - {1} == map[2 := Sender(1, 1)];
    assert s.thread.slots[0 := Sent(Some(""))] == [Sent(Some("")), Empty];
    assert ProcessEvent(env, s, TimerFired(1, true)) == Poll(env, told);
    FirstFires(Empty);
    ThirdWaits();
    assert Poll(env, told) == told.(thread := Third(Empty));
    DrainCall(told.(thread := Third(Empty)), 3, TimerAction(3), Sender(1, 2));
    assert TWO[3 := TimerAction(3)] == THREE;
  }

  lemma ThirdWaits()
    ensures Resume(TimersEnv(), Third(Empty)) == Third(Empty)
  {
  }

  lemma SecondEnds()
    ensures Step(TimersEnv(), OneLeft(), TimerFired(2, true))
         == State(4, THREE[4 := Completion(4, Output("done"))], map[3 := Sender(1, 2)], map[], Done())
  {
    hide Resume, Timers;
    var env, s := TimersEnv(), OneLeft();
    var told := s.(pendingTasks := map[3 := Sender(1, 2)],
                   thread := s.thread.(slots := [Consumed, Sent(Some("")), Empty]));
    assert s.pendingTasks - {2} == map[3 := Sender(1, 2)];
    assert s.thread.slots[1 := Sent(Some(""))] == [Consumed, Sent(Some("")), Empty];
    assert ProcessEvent(env, s, TimerFired(2, true)) == Poll(env, told);
    SecondFires(told.thread);
    DrainNothing(Poll(env, told));
  }

  function SecondOnly(): State {
    State(2, TWO, map[1 := Sender(1, 0)], map[], Both().thread.(slots := [Empty, Sent(Some(""))]))
  }

  lemma SecondWaits()
    ensures Step(TimersEnv(), Both(), TimerFired(2, true)) == SecondOnly()
  {
    var env, s := TimersEnv(), Both();
    assert s.pendingTasks - {2} == map[1 := Sender(1, 0)];
    assert s.thread.slots[1 := Sent(Some(""))] == [Empty, Sent(Some(""))];
    assert Resume(env, SecondOnly().thread) == SecondOnly().thread;
    assert ProcessEvent(env, s, TimerFired(2, true)) == SecondOnly();
    DrainNothing(SecondOnly());
  }

  lemma BothEnd()
    ensures Step(TimersEnv(), SecondOnly(), TimerFired(1, true))
         == State(3, THREE, map[3 := Sender(1, 2)], map[], Done())
  {
    hide Resume, Drain, Timers;
    var env, s := TimersEnv(), SecondOnly();
    var told := s.(pendingTasks := map[], thread := s.thread.(slots := [Sent(Some("")), Sent(Some(""))]));
    assert s.pendingTasks - {1} == map[];
    assert s.thread.slots[0 := Sent(Some(""))] == [Sent(Some("")), Sent(Some(""))];
    assert ProcessEvent(env, s, TimerFired(1, true)) == Poll(env, told);
    FirstFires(Sent(Some("")));
    SecondFires(Third(Sent(Some(""))));
    var s1 := Poll(env, told);
    DrainCall(s1, 3, TimerAction(3), Sender(1, 2));
    assert s1.pendingActions[3 := TimerAction(3)] == THREE;
  }

  /**
   * The order of two results decides whether the server learns of the completion. Without a panic in
   * either order, the orchestrator ends at the same place; but in the second order it returns in a poll
   * that also starts the third timer, whose scheduling is written over the completion.
   */
  lemma {:induction false} OrdersDiffer()
    ensures WellOwned(TimersEnv()) && Admissible(TimersEnv(), [START])
    ensures Run(TimersEnv(), [START, TimerFired(1, true), TimerFired(2, true)])
         == State(4, THREE[4 := Completion(4, Output("done"))], map[3 := Sender(1, 2)], map[], Done())
    ensures Run(TimersEnv(), [START, TimerFired(2, true), TimerFired(1, true)])
         == State(3, THREE, map[3 := Sender(1, 2)], map[], Done())
  {
    hide Run, Step, Timers, WellOwned;
    var env, one, two := TimersEnv(), TimerFired(1, true), TimerFired(2, true);
    TimersOwned();
    RunNone(env);
    assert [] + [START] == [START];
    assert [START] + [one] == [START, one] && [START, one] + [two] == [START, one, two];
    assert [START] + [two] == [START, two] && [START, two] + [one] == [START, two, one];
    assert [START][..0] == [];
    TimersStart();
    RunSnoc(env, [], START);
    RunSnoc(env, [START], one);
    FirstThenThird();
    RunSnoc(env, [START, one], two);
    SecondEnds();
    RunSnoc(env, [START], two);
    SecondWaits();
    RunSnoc(env, [START, two], one);
    BothEnd();
  }

  // A timer and an event, awaited in this order.

  function Signal(): Program {
    (trace: seq<string>) =>
      if |trace| == 0 then Burst([StartTask(Timer), StartSignal("go")], Await(0))
      else if |trace| == 1 then Burst([], Await(1))
      else Burst([], Return(Output("done")))
  }

  function SignalEnv(): Env {
    Env((name: string) => name, map["flow" := (input: Option<string>) => Signal()])
  }

  lemma SignalOwned()
    ensures WellOwned(SignalEnv())
  {
    forall trace: seq<string> | Signal()(trace).tail.Await?
      ensures Signal()(trace).tail.handle < |OpsAt(Signal(), trace)|
      ensures Signal()(trace).tail.handle !in Awaited(Signal(), trace)
    {
      if |trace| == 1 {
        assert trace[..0] == [];
        assert Awaited(Signal(), []) == {};
      }
    }
  }

  /** The orchestrator with these handles, having been given `trace`. */
  function Listening(trace: seq<string>, slots: seq<Slot>): Thread {
    Thread(1, Signal(), trace, 1, slots, map[], [], [], [], Blocked)
  }

  function Heeding(trace: seq<string>, slots: seq<Slot>, tasks: map<int, Sender>, waiters: map<string, seq<Sender>>)
    : State
  {
    State(1, map[1 := TimerAction(1)], tasks, waiters, Listening(trace, slots))
  }

  const TASK := map[1 := Sender(1, 0)]
  const WAITER := map["go" := [Sender(1, 1)]]

  lemma SignalEnters(received: Mail)
    ensures var env, t0 := SignalEnv(), Fresh(1, Signal(), received);
            Enter(env, t0) == DoOp(env, DoOp(env, t0, StartTask(Timer)), StartSignal("go"))
  {
    var env, t0 := SignalEnv(), Fresh(1, Signal(), received);
    var ops := [StartTask(Timer), StartSignal("go")];
    assert Signal()([]).ops == ops && ops[..1] == [StartTask(Timer)] && [StartTask(Timer)][..0] == [];
    assert DoOps(env, t0, []) == t0;
    assert DoOps(env, t0, ops[..1]) == DoOp(env, t0, StartTask(Timer));
  }

  lemma SignalStarts()
    ensures Step(SignalEnv(), Init(), START) == Heeding([], [Empty, Empty], TASK, WAITER)
  {
    var env := SignalEnv();
    SignalEnters(map[]);
    var t := Listening([], [Empty, Empty]).(actionTx := [(1, TimerAction(1))], taskTx := [(1, Sender(1, 0))],
                                            eventTx := [("go", Sender(1, 1))]);
    assert Launch(env, 1, Signal(), map[]) == t;
    assert ProcessEvent(env, Init(), START) == Init().(thread := t);
    SignalDrains(t);
  }

  lemma SignalDrains(t: Thread)
    requires t == Listening([], [Empty, Empty]).(actionTx := [(1, TimerAction(1))], taskTx := [(1, Sender(1, 0))],
                                                 eventTx := [("go", Sender(1, 1))])
    ensures Drain(Init().(thread := t)) == Heeding([], [Empty, Empty], TASK, WAITER)
  {
    assert t.actionTx[..0] == [] && t.taskTx[..0] == [] && t.eventTx[..0] == [];
    var none: map<string, seq<Sender>> := map[];
    assert DrainEvents(none, []) == none;
    assert t.eventTx[0].0 == "go" && [] + [Sender(1, 1)] == [Sender(1, 1)];
    assert PushQueue(none, "go", Sender(1, 1)) == WAITER;
    assert DrainEvents(none, t.eventTx) == WAITER;
  }

  /** The timer fires, and the orchestrator goes on to the wait. */
  lemma TimerThenWait()
    ensures Step(SignalEnv(), Heeding([], [Empty, Empty], TASK, WAITER), TimerFired(1, true))
         == Heeding([""], [Consumed, Empty], map[], WAITER)
  {
    var env, s := SignalEnv(), Heeding([], [Empty, Empty], TASK, WAITER);
    var t := Listening([], [Sent(Some("")), Empty]);
    assert s.pendingTasks - {1} == map[];
    assert s.thread.slots[0 := Sent(Some(""))] == t.slots;
    assert ProcessEvent(env, s, TimerFired(1, true)) == Poll(env, s.(pendingTasks := map[], thread := t));
    TimerConsumed(Empty);
    var end := Heeding([""], [Consumed, Empty], map[], WAITER);
    assert Resume(env, end.thread) == end.thread;
    DrainNothing(end);
  }

  lemma TimerConsumed(second: Slot)
    ensures Resume(SignalEnv(), Listening([], [Sent(Some("")), second]))
         == Resume(SignalEnv(), Listening([""], [Consumed, second]))
  {
    var env, t := SignalEnv(), Listening([], [Sent(Some("")), second]);
    var t1 := Consume(t, 0, "");
    assert [] + [""] == [""];
    assert Signal()([""]).ops == [];
    assert Enter(env, t1) == t1 == Listening([""], [Consumed, second]);
    ConsumeTokens(env, t, 0, "");
  }

  lemma WaitPanics()
    ensures Resume(SignalEnv(), Listening([""], [Consumed, Sent(None)])).status == Panicked(MissingPayload)
  {
  }

  const EMPTY := EventRaised("go", None)

  /** The event comes while the orchestrator stands at its wait. */
  lemma PanicsAtOnce()
    ensures Step(SignalEnv(), Heeding([""], [Consumed, Empty], map[], WAITER), EMPTY).thread.status.Panicked?
  {
    var env, s := SignalEnv(), Heeding([""], [Consumed, Empty], map[], WAITER);
    assert s.thread.slots[1 := Sent(None)] == [Consumed, Sent(None)];
    WaitPanics();
    assert ProcessEvent(env, s, EMPTY) == Raise(env, s, "go", None);
  }

  /** The event comes while the orchestrator still waits for the timer. */
  lemma TakenIn()
    ensures Step(SignalEnv(), Heeding([], [Empty, Empty], TASK, WAITER), EMPTY)
         == Heeding([], [Empty, Sent(None)], TASK, map[])
  {
    var env, s := SignalEnv(), Heeding([], [Empty, Empty], TASK, WAITER);
    var end := Heeding([], [Empty, Sent(None)], TASK, map[]);
    assert s.thread.slots[1 := Sent(None)] == [Empty, Sent(None)];
    assert s.pendingEvents - {"go"} == map[];
    assert ProcessEvent(env, s, EMPTY) == Raise(env, s, "go", None);
    assert Resume(env, end.thread) == end.thread;
    DrainNothing(end);
  }

  lemma PanicsAtItsAwait()
    ensures var s := Heeding([], [Empty, Sent(None)], TASK, map[]);
            Step(SignalEnv(), s, TimerFired(1, true)).thread.status.Panicked?
  {
    var env, s := SignalEnv(), Heeding([], [Empty, Sent(None)], TASK, map[]);
    assert s.thread.slots[0 := Sent(Some(""))] == [Sent(Some("")), Sent(None)];
    TimerConsumed(Sent(None));
    WaitPanics();
    assert ProcessEvent(env, s, TimerFired(1, true)) == Poll(env, Deliver(s, 1, Some("")));
  }

  lemma PanicsAtItsWait()
    ensures !Step(SignalEnv(), Init(), EMPTY).thread.status.Panicked?
    ensures Step(SignalEnv(), Step(SignalEnv(), Init(), EMPTY), START).thread.status.Panicked?
  {
    var env, mail := SignalEnv(), map["go" := [None]];
    var s := Init().(thread := Idle().(received := mail));
    var none: Mail, blank: Option<string> := map[], None;
    assert [] + [blank] == [blank];
    assert PushQueue(none, "go", None) == mail;
    assert ProcessEvent(env, Init(), EMPTY) == Raise(env, Init(), "go", None) == s;
    DrainNothing(s);
    assert Step(env, Init(), EMPTY) == s;
    SignalEnters(mail);
    assert ProcessEvent(env, s, START) == Start(env, s, "flow", None);
  }

  lemma {:induction false} MissingAtOnce()
    ensures Admissible(SignalEnv(), [START, TimerFired(1, true)])
    ensures Run(SignalEnv(), [START, TimerFired(1, true)]).thread.status.Blocked?
    ensures Run(SignalEnv(), [START, TimerFired(1, true), EMPTY]).thread.status.Panicked?
  {
    hide Run, Step, Signal;
    var env, fired := SignalEnv(), TimerFired(1, true);
    RunNone(env);
    assert [START, fired][..0] == [] && [START, fired][..1] == [START] && [] + [START] == [START];
    assert [START] + [fired] == [START, fired] && [START, fired] + [EMPTY] == [START, fired, EMPTY];
    RunSnoc(env, [], START);
    SignalStarts();
    RunSnoc(env, [START], fired);
    TimerThenWait();
    RunSnoc(env, [START, fired], EMPTY);
    PanicsAtOnce();
  }

  lemma {:induction false} MissingLater()
    ensures Run(SignalEnv(), [START, EMPTY]).thread.status.Blocked?
    ensures Run(SignalEnv(), [START, EMPTY, TimerFired(1, true)]).thread.status.Panicked?
  {
    hide Run, Step, Signal;
    var env, fired := SignalEnv(), TimerFired(1, true);
    RunNone(env);
    assert [] + [START] == [START];
    assert [START] + [EMPTY] == [START, EMPTY] && [START, EMPTY] + [fired] == [START, EMPTY, fired];
    RunSnoc(env, [], START);
    SignalStarts();
    RunSnoc(env, [START], EMPTY);
    TakenIn();
    RunSnoc(env, [START, EMPTY], fired);
    PanicsAtItsAwait();
  }

  lemma {:induction false} MissingBefore()
    ensures !Run(SignalEnv(), [EMPTY]).thread.status.Panicked?
    ensures Run(SignalEnv(), [EMPTY, START]).thread.status.Panicked?
  {
    hide Run, Step, Signal;
    var env := SignalEnv();
    RunNone(env);
    assert [] + [EMPTY] == [EMPTY] && [EMPTY] + [START] == [EMPTY, START];
    RunSnoc(env, [], EMPTY);
    RunSnoc(env, [EMPTY], START);
    PanicsAtItsWait();
  }

  /**
   * An event without an input panics sooner or later: at once when the orchestrator stands at its wait,
   * at the await when it does not yet, and at the call of the wait when it has been buffered.
   */
  lemma {:induction false} InputMissing()
    ensures WellOwned(SignalEnv()) && Admissible(SignalEnv(), [START, TimerFired(1, true)])
    ensures Run(SignalEnv(), [START, TimerFired(1, true)]).thread.status.Blocked?
    ensures Run(SignalEnv(), [START, TimerFired(1, true), EMPTY]).thread.status.Panicked?
    ensures Run(SignalEnv(), [START, EMPTY]).thread.status.Blocked?
    ensures Run(SignalEnv(), [START, EMPTY, TimerFired(1, true)]).thread.status.Panicked?
    ensures !Run(SignalEnv(), [EMPTY]).thread.status.Panicked?
    ensures Run(SignalEnv(), [EMPTY, START]).thread.status.Panicked?
  {
    hide Run, WellOwned, Admissible, SignalEnv;
    SignalOwned();
    MissingAtOnce();
    MissingLater();
    MissingBefore();
  }
}
