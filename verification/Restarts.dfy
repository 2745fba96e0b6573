/** A second start in one history: the orchestrator it calls takes the place of the first. */
module Restarts {
  import opened Types
  import opened Orchestrator
  import opened Replay
  import opened Boundaries
  import opened Refinement

  /**
   * A start of a registered orchestrator, whatever is there already. The new one is called afresh, with
   * the buffered events, and polled. If it is blocked, it is the one from now on, and what it has sent
   * through its channels joins what was pending; if it has returned, the earlier one stays, short of the
   * buffered events that were taken; if it has panicked, so does the execution.
   */
  lemma {:induction false} SecondStart(env: Env, h: seq<Event>, e: Event)
    requires !Run(env, h).thread.status.Panicked? && IsStart(env, e)
    ensures var s := Run(env, h);
            var t := Launch(env, s.thread.gen + 1, env.registry[e.name](e.input), s.thread.received);
            var s' := Run(env, h + [e]);
            && (t.status.Blocked? ==>
                  && s'.thread == t.(actionTx := [], taskTx := [], eventTx := [])
                  && s'.sequenceNumber == DrainCounter(s.sequenceNumber, t.actionTx)
                  && s'.pendingActions == DrainInto(s.pendingActions, t.actionTx)
                  && s'.pendingTasks == DrainInto(s.pendingTasks, t.taskTx)
                  && s'.pendingEvents == DrainEvents(s.pendingEvents, t.eventTx))
            && (t.status.Returned? ==> s' == s.(thread := s.thread.(received := t.received)))
            && (t.status.Panicked? ==> s'.thread.status == t.status)
  {
    hide Run, Step, Launch;
    AlwaysDrained(env, h);
    RunSnoc(env, h, e);
    StartAnew(env, Run(env, h), e);
  }

  lemma StartAnew(env: Env, s: State, e: Event)
    requires !s.thread.status.Panicked? && Drained(s.thread) && IsStart(env, e)
    ensures var t := Launch(env, s.thread.gen + 1, env.registry[e.name](e.input), s.thread.received);
            && (t.status.Blocked? ==> Step(env, s, e) == Drain(s.(thread := t)))
            && (t.status.Returned? ==> Step(env, s, e) == s.(thread := s.thread.(received := t.received)))
            && (t.status.Panicked? ==> Step(env, s, e).thread.status == t.status)
  {
    hide Launch;
    var t := Launch(env, s.thread.gen + 1, env.registry[e.name](e.input), s.thread.received);
    assert ProcessEvent(env, s, e) == Start(env, s, e.name, e.input);
    if t.status.Returned? {
      var kept := s.(thread := s.thread.(received := t.received));
      assert Drain(kept) == kept;
    }
  }

  /**
   * A task or a wait of the replaced orchestrator has no receiver any more: unblocking it with a text
   * panics, and a resolution that tells nothing only takes its task out of the pending ones.
   */
  lemma ReplacedTask(env: Env, s: State, e: Event, text: string)
    requires s.thread.status.Blocked? && Drained(s.thread)
    requires e.IsResolution() && e.taskId in s.pendingTasks && s.pendingTasks[e.taskId].gen != s.thread.gen
    ensures Carries(e, e.taskId, text) ==> Step(env, s, e).thread.status.Panicked?
    ensures e == TaskFailed(e.taskId, None) ==>
              Step(env, s, e) == s.(pendingTasks := s.pendingTasks - {e.taskId})
  {
    ResolutionTells(e, e.taskId, Some(text));
    var s1 := Deliver(s, e.taskId, e.Payload());
    assert ProcessEvent(env, s, e) == if e.TaskFailed? then s1 else Poll(env, s1);
    if e == TaskFailed(e.taskId, None) {
      assert Drain(s1) == s1;
    }
  }

  lemma ReplacedWaiter(env: Env, s: State, rawName: string, input: Option<string>)
    requires s.thread.status.Blocked? && env.lower(rawName) in s.pendingEvents
    requires var queue := s.pendingEvents[env.lower(rawName)]; queue != [] && queue[0].gen != s.thread.gen
    ensures Step(env, s, EventRaised(rawName, input)).thread.status == Panicked(ReceiverGone)
  {
    assert ProcessEvent(env, s, EventRaised(rawName, input)) == Raise(env, s, env.lower(rawName), input);
  }
}
