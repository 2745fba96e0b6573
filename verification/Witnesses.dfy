/** Concrete runs that inhabit the failing half of the exact results. */
module Witnesses {
  import opened Types
  import opened Orchestrator
  import opened Replay
  import opened Meaning
  import opened Boundaries
  import opened Refinement
  import opened Completions
  import opened Determinism

  /** Run `n` activities, one after the other. */
  function Steps(n: nat): Program {
    (trace: seq<string>) =>
      if |trace| < n then Burst([StartTask(Activity("step", None))], Await(|trace|))
      else Burst([], Return(Output("done")))
  }

  function StepsEnv(n: nat): Env {
    Env((name: string) => name, map["flow" := (input: Option<string>) => Steps(n)])
  }

  const START := ExecutionStarted("flow", None)

  function StepAction(id: int): Action {
    Action(id, Schedule(Activity("step", None)))
  }

  function Spent(k: nat): seq<Slot> {
    seq(k, j => Consumed)
  }

  /** The engine while the orchestrator waits for its next activity. */
  function Waiting(n: nat, trace: seq<string>, sequenceNumber: int, actions: map<int, Action>): State {
    var k := |trace|;
    State(sequenceNumber, actions, map[k + 1 := Sender(1, k)], map[],
          Thread(1, Steps(n), trace, k + 1, Spent(k) + [Empty], map[], [], [], [], Blocked))
  }

  function Finished(n: nat, trace: seq<string>, sequenceNumber: int, actions: map<int, Action>): State {
    State(sequenceNumber, actions, map[], map[],
          Thread(1, Steps(n), trace, n, Spent(n), map[], [], [], [], Returned(Output("done"))))
  }

  lemma {:induction false} StepsLog(n: nat, trace: seq<string>)
    requires |trace| < n
    ensures |OpsAt(Steps(n), trace)| == |trace| + 1
    ensures forall h :: h in Awaited(Steps(n), trace) ==> h < |trace|
  {
    if trace != [] {
      StepsLog(n, trace[..|trace| - 1]);
    }
  }

  lemma StepsOwned(n: nat)
    ensures WellOwned(StepsEnv(n))
  {
    forall trace: seq<string> | Reachable(Steps(n), trace) && Steps(n)(trace).tail.Await?
      ensures Steps(n)(trace).tail.handle < |OpsAt(Steps(n), trace)|
      ensures Steps(n)(trace).tail.handle !in Awaited(Steps(n), trace)
    {
      StepsLog(n, trace);
    }
  }

  /** One call, from the position the orchestrator has just reached. */
  lemma EnterCalls(n: nat, t: Thread)
    requires t.body == Steps(n) && t.status.Blocked? && |t.trace| < n
    ensures Enter(StepsEnv(n), t) == DoOp(StepsEnv(n), t, StartTask(Activity("step", None)))
  {
    var call := StartTask(Activity("step", None));
    assert t.body(t.trace).ops == [call] && [call][..0] == [];
    assert DoOps(StepsEnv(n), t, []) == t;
  }

  /** Draining one call. */
  lemma DrainCall(s: State, id: int, action: Action, to: Sender)
    requires s.thread.actionTx == [(id, action)] && s.thread.taskTx == [(id, to)] && s.thread.eventTx == [] && id > 0
    ensures Drain(s) == State(id, s.pendingActions[id := action], s.pendingTasks[id := to], s.pendingEvents,
                              s.thread.(actionTx := [], taskTx := [], eventTx := []))
  {
    assert [(id, action)][..0] == [] && [(id, to)][..0] == [];
    assert DrainInto(s.pendingActions, []) == s.pendingActions;
    assert DrainInto(s.pendingTasks, []) == s.pendingTasks;
  }

  /** The orchestrator at `trace`, before its next call. */
  function Ready(n: nat, trace: seq<string>): Thread {
    Thread(1, Steps(n), trace, |trace|, Spent(|trace|), map[], [], [], [], Blocked)
  }

  /** The orchestrator at `trace`, once it has made its next call and waits. */
  function Calling(n: nat, trace: seq<string>): Thread {
    var id := |trace| + 1;
    Thread(1, Steps(n), trace, id, Spent(|trace|) + [Empty], map[],
           [(id, StepAction(id))], [(id, Sender(1, |trace|))], [], Blocked)
  }

  lemma ReadyCalls(n: nat, trace: seq<string>)
    requires |trace| < n
    ensures Enter(StepsEnv(n), Ready(n, trace)) == Calling(n, trace)
    ensures Resume(StepsEnv(n), Calling(n, trace)) == Calling(n, trace)
  {
    EnterCalls(n, Ready(n, trace));
  }

  lemma CallDrains(n: nat, trace: seq<string>, s: State)
    requires s.pendingTasks == map[] && s.pendingEvents == map[] && s.thread == Calling(n, trace)
    ensures var id := |trace| + 1;
            Drain(s) == Waiting(n, trace, id, s.pendingActions[id := StepAction(id)])
  {
    hide Drain, Steps, Spent;
    DrainCall(s, |trace| + 1, StepAction(|trace| + 1), Sender(1, |trace|));
  }

  lemma LaunchCalls(n: nat)
    requires n > 0
    ensures Launch(StepsEnv(n), 1, Steps(n), map[]) == Calling(n, [])
  {
    hide Enter, Resume;
    assert Spent(0) == [];
    assert Fresh(1, Steps(n), map[]) == Ready(n, []);
    ReadyCalls(n, []);
  }

  lemma StartWaits(n: nat)
    requires n > 0
    ensures Step(StepsEnv(n), Init(), START) == Waiting(n, [], 1, map[1 := StepAction(1)])
  {
    hide Launch, Drain, Calling, Waiting, Steps;
    var env, s := StepsEnv(n), Init().(thread := Calling(n, []));
    LaunchCalls(n);
    CallDrains(n, [], s);
    assert Calling(n, []).status.Blocked? by { CallingBlocks(n, []); }
    assert ProcessEvent(env, Init(), START) == Start(env, Init(), "flow", None);
    assert Start(env, Init(), "flow", None) == s;
  }

  lemma CallingBlocks(n: nat, trace: seq<string>)
    ensures Calling(n, trace).status.Blocked?
  {
  }

  /** A poll once the next activity has completed. */
  lemma WaitingResumes(n: nat, s: State, payload: string)
    requires |s.thread.trace| < n && s == Waiting(n, s.thread.trace, s.sequenceNumber, s.pendingActions)
    ensures var k := |s.thread.trace|;
            var env, t := StepsEnv(n), s.thread.(slots := Spent(k) + [Sent(Some(payload))]);
            Resume(env, t) == Resume(env, Enter(env, Ready(n, s.thread.trace + [payload])))
  {
    var k := |s.thread.trace|;
    var env, t := StepsEnv(n), s.thread.(slots := Spent(k) + [Sent(Some(payload))]);
    ConsumeTokens(env, t, k, payload);
    assert t.slots[k := Consumed] == Spent(k + 1);
    assert Consume(t, k, payload) == Ready(n, s.thread.trace + [payload]);
  }

  lemma WaitingDelivers(n: nat, s: State, payload: string)
    requires |s.thread.trace| < n && s == Waiting(n, s.thread.trace, s.sequenceNumber, s.pendingActions)
    ensures var k := |s.thread.trace|;
            ProcessEvent(StepsEnv(n), s, TaskCompleted(k + 1, Some(payload)))
              == Poll(StepsEnv(n), s.(pendingTasks := map[],
                                      thread := s.thread.(slots := Spent(k) + [Sent(Some(payload))])))
  {
    var k := |s.thread.trace|;
    assert s.pendingTasks - {k + 1} == map[];
    assert s.thread.slots[k := Sent(Some(payload))] == Spent(k) + [Sent(Some(payload))];
  }

  /** The poll of an orchestrator whose activity has been answered, but for the drain. */
  lemma CaughtUp(n: nat, s: State, payload: string)
    requires |s.thread.trace| + 1 < n && s == Waiting(n, s.thread.trace, s.sequenceNumber, s.pendingActions)
    ensures var told := s.(pendingTasks := map[],
                           thread := s.thread.(slots := Spent(|s.thread.trace|) + [Sent(Some(payload))]));
            Poll(StepsEnv(n), told) == told.(thread := Calling(n, s.thread.trace + [payload]))
  {
    hide Resume, Enter, Spent;
    WaitingResumes(n, s, payload);
    ReadyCalls(n, s.thread.trace + [payload]);
  }

  lemma StepWaits(n: nat, trace: seq<string>, sequenceNumber: int, actions: map<int, Action>, payload: string)
    requires |trace| + 1 < n
    ensures var id := |trace| + 1;
            Step(StepsEnv(n), Waiting(n, trace, sequenceNumber, actions), TaskCompleted(id, Some(payload)))
              == Waiting(n, trace + [payload], id + 1, actions[id + 1 := StepAction(id + 1)])
  {
    hide Poll, ProcessEvent, Drain, Spent;
    var s := Waiting(n, trace, sequenceNumber, actions);
    WaitingDelivers(n, s, payload);
    CaughtUp(n, s, payload);
    CallDrains(n, trace + [payload], s.(pendingTasks := map[], thread := Calling(n, trace + [payload])));
  }

  lemma LastStepReturns(n: nat, trace: seq<string>, sequenceNumber: int, actions: map<int, Action>, payload: string)
    requires |trace| + 1 == n
    ensures var id := sequenceNumber + 1;
            Step(StepsEnv(n), Waiting(n, trace, sequenceNumber, actions), TaskCompleted(n, Some(payload)))
              == Finished(n, trace + [payload], id, actions[id := Completion(id, Output("done"))])
  {
    var env, s := StepsEnv(n), Waiting(n, trace, sequenceNumber, actions);
    WaitingDelivers(n, s, payload);
    WaitingResumes(n, s, payload);
    var last := Ready(n, trace + [payload]);
    assert Enter(env, last) == last;
    assert Resume(env, last) == last.(status := Returned(Output("done")));
  }

  lemma TerminationWaits(n: nat, trace: seq<string>, sequenceNumber: int, actions: map<int, Action>)
    ensures var id := sequenceNumber + 1;
            Step(StepsEnv(n), Waiting(n, trace, sequenceNumber, actions), ExecutionTerminated)
              == Waiting(n, trace, id, actions[id := Action(id, Complete(Terminated, None))])
  {
  }

  /** Only the start can be inadmissible in a history without raised events. */
  lemma StartedAdmissible(n: nat, h: seq<Event>)
    requires n > 0 && h != [] && h[0] == START
    requires forall j: nat :: 0 < j < |h| ==> !h[j].ExecutionStarted? && !h[j].EventRaised?
    ensures Admissible(StepsEnv(n), h)
  {
    StartWaits(n);
    assert h[..0] == [];
  }

  const TERMINATED := Complete(Terminated, None)

  function LostHistory(): seq<Event> {
    [START, ExecutionTerminated, ExecutionTerminated, TaskCompleted(1, Some("x")), TaskCompleted(2, Some("y"))]
  }

  lemma {:induction false} LostRun()
    ensures Run(StepsEnv(2), LostHistory()[..1]) == Waiting(2, [], 1, map[1 := StepAction(1)])
    ensures Run(StepsEnv(2), LostHistory()[..3])
         == Waiting(2, [], 3, map[1 := StepAction(1), 2 := Action(2, TERMINATED), 3 := Action(3, TERMINATED)])
    ensures Run(StepsEnv(2), LostHistory()[..4])
         == Waiting(2, ["x"], 2, map[1 := StepAction(1), 2 := StepAction(2), 3 := Action(3, TERMINATED)])
    ensures Run(StepsEnv(2), LostHistory())
         == Finished(2, ["x", "y"], 3,
                     map[1 := StepAction(1), 2 := StepAction(2), 3 := Completion(3, Output("done"))])
  {
    hide Run, Step, Waiting, Finished;
    var env, h := StepsEnv(2), LostHistory();
    assert h[..1] == [] + [h[0]] && h[..2] == h[..1] + [h[1]] && h[..3] == h[..2] + [h[2]];
    assert h[..4] == h[..3] + [h[3]] && h == h[..4] + [h[4]];
    RunSnoc(env, [], h[0]);
    RunNone(env);
    StartWaits(2);
    RunSnoc(env, h[..1], h[1]);
    var one := map[1 := StepAction(1)];
    TerminationWaits(2, [], 1, one);
    RunSnoc(env, h[..2], h[2]);
    TerminationWaits(2, [], 2, one[2 := Action(2, TERMINATED)]);
    RunSnoc(env, h[..3], h[3]);
    var three := one[2 := Action(2, TERMINATED)][3 := Action(3, TERMINATED)];
    assert three == map[1 := StepAction(1), 2 := Action(2, TERMINATED), 3 := Action(3, TERMINATED)];
    StepWaits(2, [], 3, three, "x");
    assert [] + ["x"] == ["x"] && ["x"] + ["y"] == ["x", "y"];
    assert three[2 := StepAction(2)]
        == map[1 := StepAction(1), 2 := StepAction(2), 3 := Action(3, TERMINATED)];
    RunSnoc(env, h[..4], h[4]);
    LastStepReturns(2, ["x"], 2, three[2 := StepAction(2)], "y");
    assert three[2 := StepAction(2)][3 := Completion(3, Output("done"))]
        == map[1 := StepAction(1), 2 := StepAction(2), 3 := Completion(3, Output("done"))];
  }

  lemma RunNone(env: Env)
    ensures Run(env, []) == Init()
  {
  }

  /**
   * Two terminations lost in two ways. Both are pending after the third event. The next scheduling is
   * written over the first and sets the executor's counter back, so the completion is written over the second.
   */
  lemma {:induction false} TerminationsLost()
    ensures WellOwned(StepsEnv(2)) && Admissible(StepsEnv(2), LostHistory())
    ensures HasTermination(Run(StepsEnv(2), LostHistory()[..3]), 2)
    ensures HasTermination(Run(StepsEnv(2), LostHistory()[..3]), 3)
    ensures var s := Run(StepsEnv(2), LostHistory());
            && s.thread.status == Returned(Output("done")) && s.thread.nextId == 2
            && s.pendingActions == map[1 := StepAction(1), 2 := StepAction(2), 3 := Completion(3, Output("done"))]
            && CompletesAt(StepsEnv(2), LostHistory(), 4, 3)
            && forall id :: !HasTermination(s, id)
  {
    hide Run, Step, Affine, WellOwned, Admissible, Steps;
    var h := LostHistory();
    StepsOwned(2);
    StartedAdmissible(2, h);
    LostRun();
    assert h[..4 + 1] == h;
  }

  lemma {:induction false} UncoalescedRun()
    ensures Run(StepsEnv(3), [START]) == Waiting(3, [], 1, map[1 := StepAction(1)])
    ensures Run(StepsEnv(3), [START] + [TaskCompleted(1, Some("x"))])
         == Waiting(3, ["x"], 2, map[1 := StepAction(1), 2 := StepAction(2)])
    ensures Run(StepsEnv(3), [START] + [TaskCompleted(1, Some("x"))] + [TaskCompleted(2, Some("y"))])
         == Waiting(3, ["x", "y"], 3, map[1 := StepAction(1), 2 := StepAction(2), 3 := StepAction(3)])
  {
    hide Run, Step, Waiting;
    var env, first, next := StepsEnv(3), TaskCompleted(1, Some("x")), TaskCompleted(2, Some("y"));
    assert [] + [START] == [START];
    RunSnoc(env, [], START);
    RunNone(env);
    StartWaits(3);
    RunSnoc(env, [START], first);
    var one := map[1 := StepAction(1)];
    StepWaits(3, [], 1, one, "x");
    assert one[2 := StepAction(2)] == map[1 := StepAction(1), 2 := StepAction(2)];
    assert [] + ["x"] == ["x"] && ["x"] + ["y"] == ["x", "y"];
    RunSnoc(env, [START] + [first], next);
    StepWaits(3, ["x"], 2, one[2 := StepAction(2)], "y");
    assert one[2 := StepAction(2)][3 := StepAction(3)]
        == map[1 := StepAction(1), 2 := StepAction(2), 3 := StepAction(3)];
  }

  /** A result that brings no news to the engine but polls it catches up with a TaskFailed. */
  lemma StepCatchesUp(n: nat, trace: seq<string>, sequenceNumber: int, actions: map<int, Action>,
                      payload: string, early: string)
    requires |trace| + 1 < n
    ensures var env, s, id := StepsEnv(n), Waiting(n, trace, sequenceNumber, actions), |trace| + 1;
            Step(env, Step(env, s, TaskFailed(id, Some(payload))), TaskCompleted(id + 1, Some(early)))
              == Waiting(n, trace + [payload], id + 1, actions[id + 1 := StepAction(id + 1)])
  {
    var env, s, k := StepsEnv(n), Waiting(n, trace, sequenceNumber, actions), |trace|;
    var late, soon := TaskFailed(k + 1, Some(payload)), TaskCompleted(k + 2, Some(early));
    var told := s.(pendingTasks := map[], thread := s.thread.(slots := Spent(k) + [Sent(Some(payload))]));
    assert s.pendingTasks - {k + 1} == map[];
    assert s.thread.slots[k := Sent(Some(payload))] == Spent(k) + [Sent(Some(payload))];
    assert ProcessEvent(env, s, late) == told;
    DrainNothing(told);
    assert Step(env, s, late) == told;
    assert ProcessEvent(env, told, soon) == Poll(env, told);
    CaughtUp(n, s, payload);
    CallDrains(n, trace + [payload], s.(pendingTasks := map[], thread := Calling(n, trace + [payload])));
  }

  /**
   * A poll that is not made up for. The second activity completes before the TaskFailed of the first has
   * been polled, so its result meets no task, and the orchestrator is left waiting for it; with the poll
   * in time it goes on to the third.
   */
  lemma {:induction false} PollNotCoalesced()
    ensures WellOwned(StepsEnv(3)) && Admissible(StepsEnv(3), [START])
    ensures Run(StepsEnv(3), [START] + [TaskCompleted(1, Some("x"))] + [TaskCompleted(2, Some("y"))])
         == Waiting(3, ["x", "y"], 3, map[1 := StepAction(1), 2 := StepAction(2), 3 := StepAction(3)])
    ensures Run(StepsEnv(3), [START] + [TaskFailed(1, Some("x"))] + [TaskCompleted(2, Some("y"))])
         == Waiting(3, ["x"], 2, map[1 := StepAction(1), 2 := StepAction(2)])
  {
    hide Run, Step, Waiting;
    var env, late, next := StepsEnv(3), TaskFailed(1, Some("x")), TaskCompleted(2, Some("y"));
    var one := map[1 := StepAction(1)];
    StepsOwned(3);
    StartedAdmissible(3, [START]);
    UncoalescedRun();
    RunSnoc(env, [START], late);
    RunSnoc(env, [START] + [late], next);
    StepCatchesUp(3, [], 1, one, "x", "y");
    assert [] + ["x"] == ["x"];
    assert one[2 := StepAction(2)] == map[1 := StepAction(1), 2 := StepAction(2)];
  }

  // A return that issues an action.

  /** Run one activity; once it has completed, start another without waiting for it and return. */
  function FireAndForget(): Program {
    (trace: seq<string>) =>
      if trace == [] then Burst([StartTask(Activity("first", None))], Await(0))
      else Burst([StartTask(Activity("second", None))], Return(Output("done")))
  }

  function FireAndForgetEnv(): Env {
    Env((name: string) => name, map["flow" := (input: Option<string>) => FireAndForget()])
  }

  const FIRST := Action(1, Schedule(Activity("first", None)))
  const SECOND := Action(2, Schedule(Activity("second", None)))

  /** Waiting for the first activity. */
  function Fired(sequenceNumber: int, actions: map<int, Action>): State {
    State(sequenceNumber, actions, map[1 := Sender(1, 0)], map[],
          Thread(1, FireAndForget(), [], 1, [Empty], map[], [], [], [], Blocked))
  }

  /** Returned, with the second activity running. */
  function Gone(sequenceNumber: int, actions: map<int, Action>): State {
    State(sequenceNumber, actions, map[2 := Sender(1, 1)], map[],
          Thread(1, FireAndForget(), ["x"], 2, [Consumed, Empty], map[], [], [], [], Returned(Output("done"))))
  }

  lemma FireLaunches()
    ensures Launch(FireAndForgetEnv(), 1, FireAndForget(), map[])
         == Fired(0, map[]).thread.(actionTx := [(1, FIRST)], taskTx := [(1, Sender(1, 0))])
  {
    var env, first := FireAndForgetEnv(), StartTask(Activity("first", None));
    var t0 := Fresh(1, FireAndForget(), map[]);
    assert FireAndForget()([]).ops == [first] && [first][..0] == [];
    assert DoOps(env, t0, []) == t0;
    assert Enter(env, t0) == DoOp(env, t0, first);
  }

  lemma FireStarts()
    ensures Step(FireAndForgetEnv(), Init(), START) == Fired(1, map[1 := FIRST])
  {
    hide Launch, Drain, FireAndForget;
    var t := Fired(0, map[]).thread.(actionTx := [(1, FIRST)], taskTx := [(1, Sender(1, 0))]);
    FireLaunches();
    DrainCall(Init().(thread := t), 1, FIRST, Sender(1, 0));
    assert ProcessEvent(FireAndForgetEnv(), Init(), START) == Start(FireAndForgetEnv(), Init(), "flow", None);
  }

  lemma FireResumes()
    ensures Resume(FireAndForgetEnv(), Fired(0, map[]).thread.(slots := [Sent(Some("x"))]))
         == Gone(0, map[]).thread.(actionTx := [(2, SECOND)], taskTx := [(2, Sender(1, 1))])
  {
    var env, second := FireAndForgetEnv(), StartTask(Activity("second", None));
    var t := Fired(0, map[]).thread.(slots := [Sent(Some("x"))]);
    var t1 := Consume(t, 0, "x");
    assert [] + ["x"] == ["x"];
    assert FireAndForget()(["x"]).ops == [second] && [second][..0] == [];
    assert DoOps(env, t1, []) == t1;
    assert Enter(env, t1) == DoOp(env, t1, second);
    ConsumeTokens(env, t, 0, "x");
    assert Resume(env, t) == Resume(env, Enter(env, t1));
  }

  lemma FireReturns(sequenceNumber: int, actions: map<int, Action>)
    ensures var c := sequenceNumber + 1;
            Step(FireAndForgetEnv(), Fired(sequenceNumber, actions), TaskCompleted(1, Some("x")))
              == Gone(2, actions[c := Completion(c, Output("done"))][2 := SECOND])
  {
    hide Resume, Drain, FireAndForget;
    var env, s, c := FireAndForgetEnv(), Fired(sequenceNumber, actions), sequenceNumber + 1;
    var told := s.(pendingTasks := map[], thread := s.thread.(slots := [Sent(Some("x"))]));
    assert s.pendingTasks - {1} == map[];
    assert Deliver(s, 1, Some("x")) == told;
    FireResumes();
    var s1 := Poll(env, told);
    assert ProcessEvent(env, s, TaskCompleted(1, Some("x"))) == s1;
    DrainCall(s1, 2, SECOND, Sender(1, 1));
  }

  lemma FireTerminates(sequenceNumber: int, actions: map<int, Action>)
    ensures var env, id := FireAndForgetEnv(), sequenceNumber + 1;
            && Step(env, Fired(sequenceNumber, actions), ExecutionTerminated)
               == Fired(id, actions[id := Action(id, TERMINATED)])
            && Step(env, Gone(sequenceNumber, actions), ExecutionTerminated)
               == Gone(id, actions[id := Action(id, TERMINATED)])
  {
  }

  /**
   * The documented completion can fail to be returned: here the orchestrator returns in a poll that
   * also issues an action, and all the server is told is to schedule two activities.
   */
  lemma {:induction false} CompletionLost()
    ensures Execute(FireAndForgetEnv(), [START], [TaskCompleted(1, Some("x"))]) == Reply({FIRST, SECOND})
    ensures Run(FireAndForgetEnv(), [START, TaskCompleted(1, Some("x"))]).thread.status == Returned(Output("done"))
  {
    hide Run, RunFrom, Step;
    var env, done := FireAndForgetEnv(), TaskCompleted(1, Some("x"));
    assert [] + [START] == [START] && [START] + [done] == [START, done];
    RunNone(env);
    RunSnoc(env, [], START);
    FireStarts();
    RunSnoc(env, [START], done);
    FireReturns(1, map[1 := FIRST]);
    SplitIndependence(env, [START], [done], [START], [done]);
    var m := Run(env, [START, done]).pendingActions;
    assert m == map[1 := FIRST, 2 := SECOND];
    assert m[1] in ValuesOf(m) && m[2] in ValuesOf(m);
  }

  function KeptHistory(): seq<Event> {
    [START, ExecutionTerminated, ExecutionTerminated, TaskCompleted(1, Some("x")),
     ExecutionTerminated, ExecutionTerminated]
  }

  lemma {:induction false} KeptRun()
    ensures Run(FireAndForgetEnv(), KeptHistory()[..4])
         == Gone(2, map[1 := FIRST, 2 := SECOND, 3 := Action(3, TERMINATED), 4 := Completion(4, Output("done"))])
    ensures Run(FireAndForgetEnv(), KeptHistory())
         == Gone(4, map[1 := FIRST, 2 := SECOND, 3 := Action(3, TERMINATED), 4 := Action(4, TERMINATED)])
  {
    hide Run, Step, Fired, Gone;
    var env, h := FireAndForgetEnv(), KeptHistory();
    assert h[..1] == [] + [h[0]] && h[..2] == h[..1] + [h[1]] && h[..3] == h[..2] + [h[2]];
    assert h[..4] == h[..3] + [h[3]] && h[..5] == h[..4] + [h[4]] && h == h[..5] + [h[5]];
    RunNone(env);
    RunSnoc(env, [], START);
    FireStarts();
    var m1 := map[1 := FIRST];
    var m3 := m1[2 := Action(2, TERMINATED)][3 := Action(3, TERMINATED)];
    RunSnoc(env, h[..1], h[1]);
    FireTerminates(1, m1);
    RunSnoc(env, h[..2], h[2]);
    FireTerminates(2, m1[2 := Action(2, TERMINATED)]);
    RunSnoc(env, h[..3], h[3]);
    FireReturns(3, m3);
    var m4 := m3[4 := Completion(4, Output("done"))][2 := SECOND];
    assert m4 == map[1 := FIRST, 2 := SECOND, 3 := Action(3, TERMINATED), 4 := Completion(4, Output("done"))];
    RunSnoc(env, h[..4], h[4]);
    FireTerminates(2, m4);
    RunSnoc(env, h[..5], h[5]);
    FireTerminates(3, m4[3 := Action(3, TERMINATED)]);
    assert m4[3 := Action(3, TERMINATED)][4 := Action(4, TERMINATED)]
        == map[1 := FIRST, 2 := SECOND, 3 := Action(3, TERMINATED), 4 := Action(4, TERMINATED)];
  }

  /**
   * Terminations change the fate of a completion, both ways. Two earlier ones put it under an id that
   * the call issued in the same poll does not take; two later ones are written over it all the same.
   */
  lemma {:induction false} CompletionOverwritten()
    ensures HasOutcome(Run(FireAndForgetEnv(), KeptHistory()[..4]), 4)
    ensures forall id :: !HasOutcome(Run(FireAndForgetEnv(), KeptHistory()), id)
    ensures Run(FireAndForgetEnv(), KeptHistory()).thread.status == Returned(Output("done"))
  {
    hide Run;
    KeptRun();
  }
}
