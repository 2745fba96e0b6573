/** Whole histories: replay computes the program's meaning, faults exactly on misuse, and delivers mail in order. */
module Refinement {
  import opened Types
  import opened Orchestrator
  import opened Replay
  import opened Meaning
  import opened Simulation
  import opened Boundaries

  lemma RunLast(env: Env, h: seq<Event>)
    requires h != []
    ensures Run(env, h) == Step(env, Run(env, h[..|h| - 1]), h[|h| - 1])
  {
  }

  lemma {:induction false} AdmissiblePrefix(env: Env, h: seq<Event>, n: nat)
    requires Admissible(env, h) && n <= |h|
    ensures Admissible(env, h[..n])
    ensures n < |h| ==> AdmissibleEvent(env, Run(env, h[..n]), h[n])
  {
    forall m: nat {:trigger h[..n][m]} | m < n
      ensures AdmissibleEvent(env, Run(env, h[..n][..m]), h[..n][m])
    {
      assert h[..n][..m] == h[..m] && h[..n][m] == h[m];
    }
  }

  /** A panic unwinds the execution: nothing happens after it. */
  lemma PanicSticks(env: Env, s: State, e: Event)
    ensures s.thread.status.Panicked? ==> Step(env, s, e) == s
  {
  }

  /** Every boundary of an admissible history without a fault satisfies the invariant, with the inputs heard so far. */
  lemma {:induction false} RunBoundary(env: Env, h: seq<Event>)
    requires WellOwned(env) && Admissible(env, h) && !Run(env, h).thread.status.Panicked?
    ensures Boundary(env, Run(env, h), Heard(env, h))
  {
    hide Step;
    if h == [] {
      InitBoundary(env);
    } else {
      var before := h[..|h| - 1];
      AdmissiblePrefix(env, h, |h| - 1);
      PanicSticks(env, Run(env, before), h[|h| - 1]);
      RunBoundary(env, before);
      StepAdvances(env, Run(env, before), Heard(env, before), h[|h| - 1]);
    }
  }

  lemma {:induction false} RunAdvances(env: Env, h: seq<Event>)
    requires WellOwned(env) && Admissible(env, h) && h != [] && !Run(env, h).thread.status.Panicked?
    ensures var before := h[..|h| - 1];
            && !Run(env, before).thread.status.Panicked?
            && Boundary(env, Run(env, before), Heard(env, before))
            && Advances(env, Run(env, before), Heard(env, before), h[|h| - 1], Run(env, h))
  {
    hide Step;
    var before := h[..|h| - 1];
    AdmissiblePrefix(env, h, |h| - 1);
    PanicSticks(env, Run(env, before), h[|h| - 1]);
    RunBoundary(env, before);
    StepAdvances(env, Run(env, before), Heard(env, before), h[|h| - 1]);
  }

  ghost predicate FaultsAt(env: Env, h: seq<Event>, n: nat) {
    n < |h| && Faults(env, Run(env, h[..n]), h[n])
  }

  lemma FaultsEarlier(env: Env, h: seq<Event>, n: nat)
    requires h != [] && n < |h| - 1
    ensures FaultsAt(env, h[..|h| - 1], n) == FaultsAt(env, h, n)
  {
    assert h[..|h| - 1][..n] == h[..n];
  }

  lemma {:induction false} FaultsLast(env: Env, h: seq<Event>)
    requires WellOwned(env) && Admissible(env, h) && h != []
    ensures var before := Run(env, h[..|h| - 1]).thread.status;
            && (before.Panicked? ==> Run(env, h).thread.status.Panicked?)
            && (!before.Panicked? ==> (Run(env, h).thread.status.Panicked? <==> FaultsAt(env, h, |h| - 1)))
  {
    hide Step;
    var before := h[..|h| - 1];
    AdmissiblePrefix(env, h, |h| - 1);
    PanicSticks(env, Run(env, before), h[|h| - 1]);
    if !Run(env, before).thread.status.Panicked? {
      RunBoundary(env, before);
      StepAdvances(env, Run(env, before), Heard(env, before), h[|h| - 1]);
    }
  }

  /** A history that does not fault has not faulted before. */
  lemma {:induction false} UnfaultedPrefix(env: Env, h: seq<Event>, n: nat)
    requires WellOwned(env) && Admissible(env, h) && !Run(env, h).thread.status.Panicked? && n <= |h|
    ensures Admissible(env, h[..n]) && !Run(env, h[..n]).thread.status.Panicked?
    decreases |h|
  {
    hide Step;
    if n == |h| {
      assert h[..n] == h;
    } else {
      AdmissiblePrefix(env, h, |h| - 1);
      FaultsLast(env, h);
      UnfaultedPrefix(env, h[..|h| - 1], n);
      assert h[..|h| - 1][..n] == h[..n];
    }
  }

  /**
   * An unwrap or expect fires on an admissible history exactly when some event polls before the
   * start, or polls or sends to a dropped receiver after the orchestrator has returned.
   */
  lemma {:induction false} FaultsExactly(env: Env, h: seq<Event>)
    requires WellOwned(env) && Admissible(env, h)
    ensures Run(env, h).thread.status.Panicked? ==> exists n: nat :: FaultsAt(env, h, n)
    ensures !Run(env, h).thread.status.Panicked? ==> forall n: nat :: !FaultsAt(env, h, n)
  {
    hide Step, Faults, Admissible;
    if h != [] {
      var before := h[..|h| - 1];
      AdmissiblePrefix(env, h, |h| - 1);
      FaultsExactly(env, before);
      FaultsLast(env, h);
      forall n: nat | n < |h| - 1 ensures FaultsAt(env, before, n) == FaultsAt(env, h, n) {
        FaultsEarlier(env, h, n);
      }
      if Run(env, before).thread.status.Panicked? {
        var n: nat :| FaultsAt(env, before, n);
        assert FaultsAt(env, h, n);
      }
    }
  }

  /** No delivery is left unpolled: the last resolution of the history, if any, is not a TaskFailed. */
  predicate LastResolutionPolls(h: seq<Event>) {
    h == [] ||
    if h[|h| - 1].IsResolution() then !h[|h| - 1].TaskFailed?
    else LastResolutionPolls(h[..|h| - 1])
  }

  lemma {:induction false} RunSettled(env: Env, h: seq<Event>)
    requires WellOwned(env) && Admissible(env, h) && !Run(env, h).thread.status.Panicked?
    requires LastResolutionPolls(h)
    ensures Settled(env, Run(env, h), Heard(env, h))
  {
    if h != [] {
      var before := h[..|h| - 1];
      RunAdvances(env, h);
      AdmissiblePrefix(env, h, |h| - 1);
      if !h[|h| - 1].IsResolution() {
        RunSettled(env, before);
      }
      if Run(env, h).thread.status.Absent? {
        AbsentSettled(env, Run(env, h), Heard(env, h));
      }
    }
  }

  lemma AbsentSettled(env: Env, s: State, i: Inputs)
    requires Boundary(env, s, i) && s.thread.status.Absent?
    ensures Settled(env, s, i)
  {
  }

  /**
   * Replay refines the meaning of the program. At the end of an admissible history in which no
   * resolution is left unpolled, the one trace on which the program settles, given the inputs heard
   * so far, is where the orchestrator stands; it has issued exactly the calls the program makes up
   * to there, and has returned exactly if the program has.
   */
  lemma {:induction false} ReplayRefinesMeaning(env: Env, h: seq<Event>, meaning: seq<string>)
    requires WellOwned(env) && Admissible(env, h) && !Run(env, h).thread.status.Panicked?
    requires LastResolutionPolls(h)
    ensures var t := Run(env, h).thread;
            && (Settles(env, t.body, Heard(env, h), meaning) <==> meaning == t.trace)
            && Shows(env, Run(env, h), OpsAt(t.body, t.trace), Heard(env, h), t.nextId)
            && (!t.status.Absent? ==>
                  t.status == match t.body(t.trace).tail { case Await(_) => Blocked case Return(o) => Returned(o) })
  {
    RunBoundary(env, h);
    RunSettled(env, h);
    if Settles(env, Run(env, h).thread.body, Heard(env, h), meaning) {
      MeaningUnique(env, Run(env, h).thread.body, Heard(env, h), meaning, Run(env, h).thread.trace);
    }
  }

  /** The orchestrator stands at a handle that shows it nothing. */
  predicate StandsWaiting(t: Thread) {
    var tail := t.body(t.trace).tail;
    tail.Await? && tail.handle < |t.slots| && t.slots[tail.handle] in {Empty, SenderDropped}
  }

  /** A poll of an orchestrator that is settled changes nothing. */
  lemma SettledPoll(env: Env, s: State, i: Inputs)
    requires Boundary(env, s, i) && Settled(env, s, i) && s.thread.status.Blocked?
    ensures Resume(env, s.thread) == s.thread && StandsWaiting(s.thread)
  {
    var t := s.thread;
    var h := t.body(t.trace).tail.handle;
    AwaitedOnce(env, t.body, i, t.trace, h);
    assert SlotFits(env, t.slots, Awaited(t.body, t.trace), OpsAt(t.body, t.trace), i, h);
  }

  lemma PollOfMissingInput(env: Env, t: Thread, to: nat)
    requires t.status.Blocked? && StandsWaiting(t) && to < |t.slots|
    ensures var t' := t.(slots := t.slots[to := Sent(None)]);
            Resume(env, t').status.Panicked? <==> t.body(t.trace).tail == Await(to)
  {
  }

  /**
   * The case admissibility leaves out. An event raised without an input panics at once exactly when
   * the orchestrator stands at the oldest wait on its name.
   */
  lemma {:induction false} RaiseWithoutInput(env: Env, h: seq<Event>, rawName: string)
    requires WellOwned(env) && Admissible(env, h) && LastResolutionPolls(h) && Run(env, h).thread.status.Blocked?
    ensures var s, name := Run(env, h), env.lower(rawName);
            Run(env, h + [EventRaised(rawName, None)]).thread.status.Panicked? <==>
              && name in s.pendingEvents && s.pendingEvents[name] != []
              && s.thread.body(s.thread.trace).tail == Await(s.pendingEvents[name][0].slot)
  {
    hide Run;
    var s, i, name, e := Run(env, h), Heard(env, h), env.lower(rawName), EventRaised(rawName, None);
    RunBoundary(env, h);
    RunSettled(env, h);
    SettledPoll(env, s, i);
    RunSnoc(env, h, e);
    if name in s.pendingEvents {
      RaiseSlots(env, s, i, name, "");
      PollOfMissingInput(env, s.thread, s.pendingEvents[name][0].slot);
    }
    RaiseStep(env, s, rawName);
  }

  lemma RaiseStep(env: Env, s: State, rawName: string)
    requires s.thread.status.Blocked?
    requires var name := env.lower(rawName);
             name in s.pendingEvents ==>
               s.pendingEvents[name] != [] && ReceiverLives(s.thread, s.pendingEvents[name][0])
    ensures var name := env.lower(rawName);
            Step(env, s, EventRaised(rawName, None)).thread.status.Panicked? <==>
              && name in s.pendingEvents
              && var to := s.pendingEvents[name][0].slot;
                 Resume(env, s.thread.(slots := s.thread.slots[to := Sent(None)])).status.Panicked?
  {
    var name := env.lower(rawName);
    assert ProcessEvent(env, s, EventRaised(rawName, None)) == Raise(env, s, name, None);
  }

  /** Channels are empty at every event boundary of every history. */
  lemma {:induction false} AlwaysDrained(env: Env, h: seq<Event>)
    requires !Run(env, h).thread.status.Panicked?
    ensures Drained(Run(env, h).thread)
  {
    hide ProcessEvent;
  }

  /**
   * On every history, an event without a waiter is appended to the buffer of its name, with or without
   * an input and whatever is buffered already, and changes nothing else.
   */
  lemma {:induction false} EventBuffered(env: Env, h: seq<Event>, rawName: string, input: Option<string>)
    requires !Run(env, h).thread.status.Panicked? && env.lower(rawName) !in Run(env, h).pendingEvents
    ensures var s, name := Run(env, h), env.lower(rawName);
            var queue := if name in s.thread.received then s.thread.received[name] else [];
            Run(env, h + [EventRaised(rawName, input)])
              == s.(thread := s.thread.(received := s.thread.received[name := queue + [input]]))
  {
    hide Run;
    AlwaysDrained(env, h);
    RunSnoc(env, h, EventRaised(rawName, input));
    BufferStep(env, Run(env, h), rawName, input);
  }

  lemma BufferStep(env: Env, s: State, rawName: string, input: Option<string>)
    requires Drained(s.thread) && !s.thread.status.Panicked? && env.lower(rawName) !in s.pendingEvents
    ensures var name := env.lower(rawName);
            var queue := if name in s.thread.received then s.thread.received[name] else [];
            Step(env, s, EventRaised(rawName, input))
              == s.(thread := s.thread.(received := s.thread.received[name := queue + [input]]))
  {
    var name := env.lower(rawName);
    var queue := if name in s.thread.received then s.thread.received[name] else [];
    assert ProcessEvent(env, s, EventRaised(rawName, input)) == Raise(env, s, name, input);
    var s1 := s.(thread := s.thread.(received := s.thread.received[name := queue + [input]]));
    assert Drain(s1) == s1;
  }

  /**
   * On every history, an event with a waiter whose receiver lives is handed to the oldest waiter, with or
   * without an input, and the orchestrator is polled; the other waiters keep their order.
   */
  lemma {:induction false} EventHandedOver(env: Env, h: seq<Event>, rawName: string, input: Option<string>)
    requires Run(env, h).thread.status.Blocked?
    requires var s, name := Run(env, h), env.lower(rawName);
             name in s.pendingEvents && s.pendingEvents[name] != [] && ReceiverLives(s.thread, s.pendingEvents[name][0])
    ensures var s, name := Run(env, h), env.lower(rawName);
            var queue := s.pendingEvents[name];
            var told := s.(pendingEvents := if |queue| == 1 then s.pendingEvents - {name}
                                            else s.pendingEvents[name := queue[1..]],
                           thread := s.thread.(slots := s.thread.slots[queue[0].slot := Sent(input)]));
            var polled := Poll(env, told);
            Run(env, h + [EventRaised(rawName, input)])
              == if polled.thread.status.Panicked? then polled else Drain(polled)
  {
    hide Run, Poll, Drain;
    RunSnoc(env, h, EventRaised(rawName, input));
    var s, name := Run(env, h), env.lower(rawName);
    assert ProcessEvent(env, s, EventRaised(rawName, input)) == Raise(env, s, name, input);
  }

  /**
   * One with a waiter at which the orchestrator does not stand takes the oldest waiter for its name,
   * whose handle then shows that there is no input, and changes nothing else.
   */
  lemma {:induction false} MissingInputTaken(env: Env, h: seq<Event>, rawName: string)
    requires WellOwned(env) && Admissible(env, h) && LastResolutionPolls(h) && Run(env, h).thread.status.Blocked?
    requires env.lower(rawName) in Run(env, h).pendingEvents
    ensures var s, name := Run(env, h), env.lower(rawName);
            var queue := s.pendingEvents[name];
            && queue != [] && queue[0].slot < |s.thread.slots| && s.thread.slots[queue[0].slot] == Empty
            && (s.thread.body(s.thread.trace).tail != Await(queue[0].slot) ==>
                  Run(env, h + [EventRaised(rawName, None)])
                    == s.(pendingEvents := if |queue| == 1 then s.pendingEvents - {name}
                                           else s.pendingEvents[name := queue[1..]],
                          thread := s.thread.(slots := s.thread.slots[queue[0].slot := Sent(None)])))
  {
    hide Run;
    var s, i, name := Run(env, h), Heard(env, h), env.lower(rawName);
    RunBoundary(env, h);
    RunSettled(env, h);
    SettledPoll(env, s, i);
    RunSnoc(env, h, EventRaised(rawName, None));
    RaiseSlots(env, s, i, name, "");
    if s.thread.body(s.thread.trace).tail != Await(s.pendingEvents[name][0].slot) {
      MissingInputHandedOver(env, s, rawName);
    }
  }

  lemma MissingInputHandedOver(env: Env, s: State, rawName: string)
    requires Drained(s.thread) && s.thread.status.Blocked? && StandsWaiting(s.thread)
    requires var name := env.lower(rawName);
             && name in s.pendingEvents && s.pendingEvents[name] != []
             && ReceiverLives(s.thread, s.pendingEvents[name][0])
             && s.thread.body(s.thread.trace).tail != Await(s.pendingEvents[name][0].slot)
    ensures var name := env.lower(rawName);
            var queue := s.pendingEvents[name];
            Step(env, s, EventRaised(rawName, None))
              == s.(pendingEvents := if |queue| == 1 then s.pendingEvents - {name}
                                     else s.pendingEvents[name := queue[1..]],
                    thread := s.thread.(slots := s.thread.slots[queue[0].slot := Sent(None)]))
  {
    var name := env.lower(rawName);
    var queue := s.pendingEvents[name];
    var s1 := s.(pendingEvents := if |queue| == 1 then s.pendingEvents - {name}
                                  else s.pendingEvents[name := queue[1..]],
                 thread := s.thread.(slots := s.thread.slots[queue[0].slot := Sent(None)]));
    assert ProcessEvent(env, s, EventRaised(rawName, None)) == Raise(env, s, name, None);
    assert Resume(env, s1.thread) == s1.thread;
    assert Drain(s1) == s1;
  }

  /** After the return, one with a waiter panics, like any other event with a waiter: the receiver is gone. */
  lemma {:induction false} MissingInputLate(env: Env, h: seq<Event>, rawName: string)
    requires WellOwned(env) && Admissible(env, h) && Run(env, h).thread.status.Returned?
    requires env.lower(rawName) in Run(env, h).pendingEvents
    ensures Run(env, h + [EventRaised(rawName, None)]).thread.status == Panicked(ReceiverGone)
  {
    hide Run;
    RunBoundary(env, h);
    RunSnoc(env, h, EventRaised(rawName, None));
    RaiseSlots(env, Run(env, h), Heard(env, h), env.lower(rawName), "");
    LateWaiterGone(env, Run(env, h), rawName);
  }

  lemma LateWaiterGone(env: Env, s: State, rawName: string)
    requires s.thread.status.Returned? && env.lower(rawName) in s.pendingEvents
    requires s.pendingEvents[env.lower(rawName)] != []
    ensures Step(env, s, EventRaised(rawName, None)).thread.status == Panicked(ReceiverGone)
  {
    assert ProcessEvent(env, s, EventRaised(rawName, None)) == Raise(env, s, env.lower(rawName), None);
  }

  /**
   * A wait with anything buffered for its name takes the oldest entry and leaves the others in order. It
   * panics if and only if that entry has no input.
   */
  lemma WaitTakesOldest(env: Env, t: Thread, rawName: string, rest: seq<Option<string>>)
    requires t.status.Blocked?
    requires var name := env.lower(rawName);
             name in t.received && t.received[name] != [] && rest == t.received[name][1..]
    ensures var name, t' := env.lower(rawName), DoOp(env, t, StartSignal(rawName));
            match t.received[name][0]
            case None => t'.status == Panicked(MissingPayload)
            case Some(text) =>
              t' == t.(slots := t.slots + [Sent(Some(text))],
                       received := if rest == [] then t.received - {name} else t.received[name := rest])
  {
  }

  /** A wait with nothing buffered for its name registers a waiter and touches no buffer. */
  lemma WaitRegisters(env: Env, t: Thread, rawName: string)
    requires t.status.Blocked? && env.lower(rawName) !in t.received
    ensures DoOp(env, t, StartSignal(rawName))
         == t.(slots := t.slots + [Empty], eventTx := t.eventTx + [(env.lower(rawName), Sender(t.gen, |t.slots|))])
  {
  }

  // The inputs heard, read off the history.

  /** The inputs of the events raised under a name, in order. */
  function RaisedIn(env: Env, h: seq<Event>, name: string): seq<string> {
    if h == [] then [] else
    var e := h[|h| - 1];
    RaisedIn(env, h[..|h| - 1], name)
      + if e.EventRaised? && e.input.Some? && env.lower(e.name) == name then [e.input.value] else []
  }

  lemma {:induction false} HeardRaised(env: Env, h: seq<Event>, name: string)
    ensures Heard(env, h).Raised(name) == RaisedIn(env, h, name)
  {
    if h != [] {
      HeardRaised(env, h[..|h| - 1], name);
    }
  }

  /** The n-th event resolves the task with this id, which has been issued before it. */
  predicate ResolvesAt(env: Env, h: seq<Event>, n: nat, id: int)
    requires n < |h|
  {
    h[n].IsResolution() && h[n].taskId == id && 1 <= id <= Run(env, h[..n]).thread.nextId
  }

  ghost predicate FirstResolvesAt(env: Env, h: seq<Event>, n: nat, id: int) {
    n < |h| && ResolvesAt(env, h, n, id) && forall m: nat :: m < n ==> !ResolvesAt(env, h, m, id)
  }

  lemma ResolvesEarlier(env: Env, h: seq<Event>, n: nat, id: int)
    requires h != [] && n < |h| - 1
    ensures ResolvesAt(env, h[..|h| - 1], n, id) == ResolvesAt(env, h, n, id)
    ensures h[..|h| - 1][n] == h[n]
  {
    assert h[..|h| - 1][..n] == h[..n];
  }

  lemma FirstResolvesEarlier(env: Env, h: seq<Event>, n: nat, id: int)
    requires h != [] && FirstResolvesAt(env, h[..|h| - 1], n, id)
    ensures FirstResolvesAt(env, h, n, id)
  {
    forall m: nat | m <= n ensures ResolvesAt(env, h[..|h| - 1], m, id) == ResolvesAt(env, h, m, id) {
      ResolvesEarlier(env, h, m, id);
    }
  }

  /** The payload of a task is that of the first resolution after it was issued. */
  lemma {:induction false} HeardFirst(env: Env, h: seq<Event>, id: int)
    ensures id !in Heard(env, h).resolved ==> forall n: nat :: n < |h| ==> !ResolvesAt(env, h, n, id)
    ensures id in Heard(env, h).resolved ==>
              exists n: nat :: FirstResolvesAt(env, h, n, id) && Tells(h[n], id, Heard(env, h).resolved[id])
  {
    if h != [] {
      var last := |h| - 1;
      var before := h[..last];
      HeardFirst(env, before, id);
      if id in Heard(env, before).resolved {
        var n: nat :| FirstResolvesAt(env, before, n, id) && Tells(before[n], id, Heard(env, before).resolved[id]);
        FirstResolvesEarlier(env, h, n, id);
        assert h[n] == before[n];
      } else {
        forall n: nat | n < last ensures !ResolvesAt(env, h, n, id) {
          ResolvesEarlier(env, h, n, id);
        }
        if ResolvesAt(env, h, last, id) {
          assert FirstResolvesAt(env, h, last, id);
          ResolutionTells(h[last], id, h[last].Payload());
        }
      }
    }
  }

  // The inputs a history tells, with no engine in sight.

  /** The first resolution of each task id, and the inputs raised for each name, read off the events alone. */
  function Told(env: Env, h: seq<Event>): Inputs {
    if h == [] then Silence()
    else
      var i, e := Told(env, h[..|h| - 1]), h[|h| - 1];
      if e.IsResolution() then
        if e.taskId in i.resolved then i else i.(resolved := i.resolved[e.taskId := e.Payload()])
      else if e.EventRaised? && e.input.Some? then Raising(i, env.lower(e.name), e.input.value)
      else i
  }

  lemma {:induction false} ToldRaised(env: Env, h: seq<Event>, name: string)
    ensures Told(env, h).Raised(name) == RaisedIn(env, h, name)
  {
    if h != [] {
      ToldRaised(env, h[..|h| - 1], name);
    }
  }

  /** The n-th event is the first to name this task in a resolution. */
  ghost predicate FirstNamedAt(h: seq<Event>, n: nat, id: int) {
    n < |h| && h[n].Resolves(id) && forall m: nat :: m < n ==> !h[m].Resolves(id)
  }

  lemma {:induction false} ToldFirst(env: Env, h: seq<Event>, id: int)
    ensures id !in Told(env, h).resolved ==> forall n: nat :: n < |h| ==> !h[n].Resolves(id)
    ensures id in Told(env, h).resolved ==>
              exists n: nat :: FirstNamedAt(h, n, id) && Tells(h[n], id, Told(env, h).resolved[id])
  {
    if h != [] {
      var last := |h| - 1;
      var before := h[..last];
      ToldFirst(env, before, id);
      if id in Told(env, before).resolved {
        var n: nat :| FirstNamedAt(before, n, id) && Tells(before[n], id, Told(env, before).resolved[id]);
        assert FirstNamedAt(h, n, id) && before[n] == h[n];
      } else {
        assert forall n: nat :: n < last ==> before[n] == h[n];
        if h[last].Resolves(id) {
          assert FirstNamedAt(h, last, id);
          ResolutionTells(h[last], id, h[last].Payload());
        }
      }
    }
  }

  /** No task is resolved before it is issued. */
  ghost predicate ResolvedAfterIssue(env: Env, h: seq<Event>) {
    forall n: nat {:trigger h[n]} ::
      n < |h| && h[n].IsResolution() && 1 <= h[n].taskId <= Run(env, h).thread.nextId ==>
        h[n].taskId <= Run(env, h[..n]).thread.nextId
  }

  /** The two inputs say the same about the first `issued` tasks, and about every name. */
  ghost predicate Agree(i: Inputs, j: Inputs, issued: nat) {
    && (forall id :: 1 <= id <= issued ==>
          && (id in i.resolved <==> id in j.resolved)
          && (id in i.resolved ==> i.resolved[id] == j.resolved[id]))
    && forall name :: i.Raised(name) == j.Raised(name)
  }

  lemma {:induction false} TaskAsTold(env: Env, h: seq<Event>, id: int)
    requires ResolvedAfterIssue(env, h) && 1 <= id <= Run(env, h).thread.nextId
    ensures var i, j := Heard(env, h), Told(env, h);
            && (id in i.resolved <==> id in j.resolved)
            && (id in i.resolved ==> i.resolved[id] == j.resolved[id])
  {
    hide Run, Heard, Told;
    HeardFirst(env, h, id);
    ToldFirst(env, h, id);
    forall n: nat | n < |h| ensures ResolvesAt(env, h, n, id) <==> h[n].Resolves(id) {
    }
    if id in Heard(env, h).resolved && id in Told(env, h).resolved {
      var n: nat :| FirstResolvesAt(env, h, n, id) && Tells(h[n], id, Heard(env, h).resolved[id]);
      var m: nat :| FirstNamedAt(h, m, id) && Tells(h[m], id, Told(env, h).resolved[id]);
      assert n == m;
    }
  }

  lemma {:induction false} HeardAsTold(env: Env, h: seq<Event>)
    requires ResolvedAfterIssue(env, h)
    ensures Agree(Heard(env, h), Told(env, h), Run(env, h).thread.nextId)
  {
    hide Run, Heard, Told, ResolvedAfterIssue;
    var i, j, issued := Heard(env, h), Told(env, h), Run(env, h).thread.nextId;
    forall id | 1 <= id <= issued
      ensures id in i.resolved <==> id in j.resolved
      ensures id in i.resolved ==> i.resolved[id] == j.resolved[id]
    {
      TaskAsTold(env, h, id);
    }
    forall name ensures i.Raised(name) == j.Raised(name) {
      HeardRaised(env, h, name);
      ToldRaised(env, h, name);
    }
  }

  lemma YieldsAgree(env: Env, p: Program, i: Inputs, j: Inputs, trace: seq<string>, issued: nat)
    requires Agree(i, j, issued) && TaskCount(OpsAt(p, trace)) <= issued
    ensures Yield(env, p, i, trace) == Yield(env, p, j, trace)
  {
    if p(trace).tail.Await? && p(trace).tail.handle < |OpsAt(p, trace)| {
      RefPlace(env, OpsAt(p, trace), p(trace).tail.handle);
    }
  }

  lemma {:induction false} FollowsAgree(env: Env, p: Program, i: Inputs, j: Inputs, trace: seq<string>, issued: nat)
    requires Agree(i, j, issued) && TaskCount(OpsAt(p, trace)) <= issued && Follows(env, p, i, trace)
    ensures Follows(env, p, j, trace)
  {
    hide Agree;
    if trace != [] {
      var before := trace[..|trace| - 1];
      OpsGrow(p, before, trace);
      HandlesGrow(env, OpsAt(p, before), OpsAt(p, trace), "");
      YieldsAgree(env, p, i, j, before, issued);
      FollowsAgree(env, p, i, j, before, issued);
    }
  }

  /**
   * Replay against the events alone. When no task is resolved before it is issued, the orchestrator
   * stands at the one trace on which its program settles, given the first resolution of each id and the
   * inputs raised for each name anywhere in the history.
   */
  lemma {:induction false} ReplayRefinesHistory(env: Env, h: seq<Event>, meaning: seq<string>)
    requires WellOwned(env) && Admissible(env, h) && !Run(env, h).thread.status.Panicked?
    requires LastResolutionPolls(h) && ResolvedAfterIssue(env, h)
    ensures Settles(env, Run(env, h).thread.body, Told(env, h), meaning) <==> meaning == Run(env, h).thread.trace
  {
    hide Run, Agree;
    var t, i, j := Run(env, h).thread, Heard(env, h), Told(env, h);
    RunBoundary(env, h);
    RunSettled(env, h);
    HeardAsTold(env, h);
    FollowsAgree(env, t.body, i, j, t.trace, t.nextId);
    YieldsAgree(env, t.body, i, j, t.trace, t.nextId);
    if Settles(env, t.body, j, meaning) {
      MeaningUnique(env, t.body, j, meaning, t.trace);
    }
  }

  /** At every boundary the issued ids split into pending tasks and resolved tasks. */
  lemma {:induction false} HandlesConserved(env: Env, h: seq<Event>, id: int)
    requires WellOwned(env) && Admissible(env, h) && !Run(env, h).thread.status.Panicked?
    ensures var s, i := Run(env, h), Heard(env, h);
            && (1 <= id <= s.thread.nextId <==> id in s.pendingTasks || id in i.resolved)
            && !(id in s.pendingTasks && id in i.resolved)
  {
    RunBoundary(env, h);
    var s, i := Run(env, h), Heard(env, h);
    assert TaskFits(s.pendingTasks, s.thread.gen, OpsAt(s.thread.body, s.thread.trace), i.resolved, id);
  }

  /** The n-th payload of the orchestrator came from awaiting the handle of this task. */
  ghost predicate AwaitedTaskAt(env: Env, t: Thread, n: nat, id: nat) {
    && n < |t.trace| && t.body(t.trace[..n]).tail.Await?
    && var handle := t.body(t.trace[..n]).tail.handle;
       handle < |OpsAt(t.body, t.trace)| && RefOf(env, OpsAt(t.body, t.trace), handle) == TaskRef(id)
  }

  /**
   * The first resolution wins: an await on a task has yielded the payload of the first resolution
   * that followed its issue, however many duplicates follow, and it has done so at most once.
   */
  lemma {:induction false} FirstResolutionWins(env: Env, h: seq<Event>, n: nat, id: nat)
    requires WellOwned(env) && Admissible(env, h) && !Run(env, h).thread.status.Panicked?
    requires AwaitedTaskAt(env, Run(env, h).thread, n, id)
    ensures exists m: nat :: FirstResolvesAt(env, h, m, id) && Carries(h[m], id, Run(env, h).thread.trace[n])
    ensures forall k: nat :: AwaitedTaskAt(env, Run(env, h).thread, k, id) ==> k == n
  {
    RunBoundary(env, h);
    var t, i := Run(env, h).thread, Heard(env, h);
    AwaitYields(env, t.body, i, t.trace, n);
    HeardFirst(env, h, id);
    forall k: nat | AwaitedTaskAt(env, t, k, id) ensures k == n {
      if k < n {
        AwaitedDiffer(env, t.body, i, t.trace, k, n);
      } else if n < k {
        AwaitedDiffer(env, t.body, i, t.trace, n, k);
      }
    }
  }

  lemma {:induction false} AwaitedBefore(p: Program, trace: seq<string>, n: nat, m: nat)
    requires n < m <= |trace| && p(trace[..n]).tail.Await?
    ensures p(trace[..n]).tail.handle in Awaited(p, trace[..m])
    decreases m
  {
    assert trace[..m][..m - 1] == trace[..m - 1];
    if n < m - 1 {
      AwaitedBefore(p, trace, n, m - 1);
    }
  }

  /** Two awaits are on handles that refer to different tasks or waits. */
  lemma AwaitedDiffer(env: Env, p: Program, i: Inputs, trace: seq<string>, n: nat, m: nat)
    requires Affine(p) && Follows(env, p, i, trace) && n < m < |trace|
    ensures p(trace[..n]).tail.Await? && p(trace[..m]).tail.Await?
    ensures var a, b := p(trace[..n]).tail.handle, p(trace[..m]).tail.handle;
            && a < |OpsAt(p, trace)| && b < |OpsAt(p, trace)|
            && RefOf(env, OpsAt(p, trace), a) != RefOf(env, OpsAt(p, trace), b)
  {
    AwaitYields(env, p, i, trace, n);
    AwaitYields(env, p, i, trace, m);
    AwaitedBefore(p, trace, n, m);
    FollowsPrefix(env, p, i, trace, m);
    AwaitedOnce(env, p, i, trace[..m], p(trace[..m]).tail.handle);
    var a, b := p(trace[..n]).tail.handle, p(trace[..m]).tail.handle;
    if a < b {
      RefsDistinct(env, OpsAt(p, trace), a, b);
    } else {
      RefsDistinct(env, OpsAt(p, trace), b, a);
    }
  }

  /**
   * The mailbox of a name is one lossless FIFO. The k-th wait on it is answered by the k-th input
   * raised for it and by no other, waits beyond the raised inputs are the pending waiters in order,
   * and raised inputs beyond the waits are the buffer in order.
   */
  lemma {:induction false} MailboxIsFifo(env: Env, h: seq<Event>, name: string, k: nat)
    requires WellOwned(env) && Admissible(env, h) && !Run(env, h).thread.status.Panicked?
    ensures var s := Run(env, h);
            var t, raised := s.thread, RaisedIn(env, h, name);
            var waits := WaitHandles(env, OpsAt(t.body, t.trace), name);
            && (name in t.received <==> |waits| < |raised|)
            && (name in t.received ==> t.received[name] == Wrapped(raised[|waits|..]))
            && (name in s.pendingEvents <==> |raised| < |waits|)
            && (name in s.pendingEvents ==> s.pendingEvents[name] == Addressed(t.gen, waits[|raised|..]))
            && (k < |waits| ==>
                  && waits[k] < |t.slots|
                  && (k >= |raised| ==> t.slots[waits[k]] == Empty)
                  && (k < |raised| ==> t.slots[waits[k]] in {Sent(Some(raised[k])), Consumed})
                  && (forall n: nat :: n < |t.trace| && t.body(t.trace[..n]).tail == Await(waits[k]) ==>
                        k < |raised| && t.trace[n] == raised[k]))
  {
    RunBoundary(env, h);
    HeardRaised(env, h, name);
    var s, i := Run(env, h), Heard(env, h);
    var t, raised := s.thread, RaisedIn(env, h, name);
    var ops := OpsAt(t.body, t.trace);
    var waits := WaitHandles(env, ops, name);
    assert WaitersShowFor(env, s.pendingEvents, t.gen, ops, i, name);
    assert MailShowsFor(env, t.received, ops, i, name);
    if k < |waits| {
      WaitPlace(env, ops, name, k);
      assert SlotFits(env, t.slots, Awaited(t.body, t.trace), ops, i, waits[k]);
      if waits[k] in Awaited(t.body, t.trace) {
        AwaitedYielded(env, t.body, i, t.trace, waits[k]);
      }
      forall n: nat | n < |t.trace| && t.body(t.trace[..n]).tail == Await(waits[k])
        ensures k < |raised| && t.trace[n] == raised[k]
      {
        AwaitYields(env, t.body, i, t.trace, n);
        assert Value(i, RefOf(env, ops, waits[k])) == Some(t.trace[n]);
      }
    }
  }

  /** The n-th await yielded the value of the handle it awaited. */
  lemma AwaitYields(env: Env, p: Program, i: Inputs, trace: seq<string>, n: nat)
    requires Follows(env, p, i, trace) && n < |trace|
    ensures p(trace[..n]).tail.Await?
    ensures var handle := p(trace[..n]).tail.handle;
            handle < |OpsAt(p, trace)| && Value(i, RefOf(env, OpsAt(p, trace), handle)) == Some(trace[n])
  {
    FollowsPrefix(env, p, i, trace, n);
    var some := OpsAt(p, trace[..n]);
    OpsGrow(p, trace[..n], trace);
    assert OpsAt(p, trace) == some + OpsAt(p, trace)[|some|..];
    RefStable(env, some, OpsAt(p, trace)[|some|..], p(trace[..n]).tail.handle);
  }
}
