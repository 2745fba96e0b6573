/** What becomes of a delivery: the await it is for yields it, or never yields at all. */
module Deliveries {
  import opened Types
  import opened Orchestrator
  import opened Replay
  import opened Meaning
  import opened Simulation
  import opened Boundaries
  import opened Refinement
  import opened Determinism

  /** Nothing that has been heard is forgotten. */
  lemma {:induction false} HeardMore(env: Env, h: seq<Event>, more: seq<Event>)
    ensures Heard(env, h).Within(Heard(env, h + more))
  {
    hide Run, Hear;
    if more == [] {
      assert h + more == h;
    } else {
      var longer, last := h + more, |h + more| - 1;
      assert longer[..last] == h + more[..|more| - 1];
      HeardMore(env, h, more[..|more| - 1]);
      HearGrows(env, Heard(env, longer[..last]), Run(env, longer[..last]).thread.nextId, longer[last]);
      WithinTransitive(Heard(env, h), Heard(env, longer[..last]), Heard(env, longer));
    }
  }

  lemma HearGrows(env: Env, i: Inputs, issued: nat, e: Event)
    ensures i.Within(Hear(env, i, issued, e))
  {
  }

  lemma WithinTransitive(a: Inputs, b: Inputs, c: Inputs)
    requires a.Within(b) && b.Within(c)
    ensures a.Within(c)
  {
    forall name ensures a.Raised(name) <= c.Raised(name) {
      assert a.Raised(name) <= b.Raised(name) <= c.Raised(name);
    }
  }

  /** The orchestrator stands at the handle of this task, or of this wait. */
  ghost predicate StandsAt(env: Env, t: Thread, ref: Ref) {
    && t.status.Blocked? && t.body(t.trace).tail.Await?
    && var handle := t.body(t.trace).tail.handle;
       handle < |LogOfThread(t)| && RefOf(env, LogOfThread(t), handle) == ref
  }

  function LogOfThread(t: Thread): seq<Op> {
    OpsAt(t.body, t.trace)
  }

  /** What is heard of a task from an event that resolves it while it is pending. */
  lemma {:induction false} ResolutionHeard(env: Env, h: seq<Event>, e: Event, id: nat, payload: Option<string>)
    requires WellOwned(env) && Admissible(env, h) && !Run(env, h).thread.status.Panicked?
    requires id in Run(env, h).pendingTasks && Tells(e, id, payload)
    ensures id in Heard(env, h + [e]).resolved && Heard(env, h + [e]).resolved[id] == payload
  {
    hide Run;
    ResolutionTells(e, id, payload);
    HandlesConserved(env, h, id);
    assert (h + [e])[..|h|] == h;
  }

  /** A settled trace that reaches an await on an answered handle goes on with the answer. */
  lemma SettledPast(env: Env, p: Program, i: Inputs, trace: seq<string>, settled: seq<string>, ref: Ref, text: string)
    requires Settles(env, p, i, settled) && trace <= settled && p(trace).tail.Await?
    requires p(trace).tail.handle < |OpsAt(p, trace)| && RefOf(env, OpsAt(p, trace), p(trace).tail.handle) == ref
    requires Value(i, ref) == Some(text)
    ensures trace + [text] <= settled
  {
    assert Yield(env, p, i, trace) == Some(text);
    assert trace != settled;
    FollowsPrefix(env, p, i, settled, |trace|);
    assert settled[..|trace|] == trace;
  }

  /**
   * Progress. An orchestrator that stands at the handle of a pending task goes on with the text of the
   * resolution that comes next for it, of whatever type, at the latest when no delivery is left unpolled.
   */
  lemma {:induction false} ResolutionYields(env: Env, h: seq<Event>, e: Event, id: nat, text: string,
                                            more: seq<Event>)
    requires WellOwned(env) && Admissible(env, h + [e] + more) && LastResolutionPolls(h + [e] + more)
    requires !Run(env, h + [e] + more).thread.status.Panicked?
    requires StandsAt(env, Run(env, h).thread, TaskRef(id)) && id in Run(env, h).pendingTasks && Carries(e, id, text)
    ensures Run(env, h).thread.trace + [text] <= Run(env, h + [e] + more).thread.trace
  {
    hide Run, RefOf, Heard, Carries, OpsAt, Boundary, LastResolutionPolls, Settles, Admissible, LogOf;
    var longer := h + [e] + more;
    assert longer == h + ([e] + more) && longer[..|h|] == h;
    UnfaultedPrefix(env, longer, |h|);
    LogIsPrefixStable(env, h, [e] + more);
    ResolutionHeard(env, h, e, id, Some(text));
    HeardMore(env, h + [e], more);
    RunSettled(env, longer);
    var t := Run(env, h).thread;
    SettledPast(env, t.body, Heard(env, longer), t.trace, Run(env, longer).thread.trace, TaskRef(id), text);
  }

  /** The same for events: one that stands at the oldest wait on a name goes on with the next input raised for it. */
  lemma {:induction false} EventYields(env: Env, h: seq<Event>, rawName: string, k: nat, text: string,
                                       more: seq<Event>)
    requires var longer := h + [EventRaised(rawName, Some(text))] + more;
             && WellOwned(env) && Admissible(env, longer) && LastResolutionPolls(longer)
             && !Run(env, longer).thread.status.Panicked?
    requires k == |RaisedIn(env, h, env.lower(rawName))|
    requires StandsAt(env, Run(env, h).thread, SignalRef(env.lower(rawName), k))
    ensures Run(env, h).thread.trace + [text]
         <= Run(env, h + [EventRaised(rawName, Some(text))] + more).thread.trace
  {
    hide Run, RefOf, Heard, OpsAt, Boundary, LastResolutionPolls, Settles, Admissible, LogOf, RaisedIn;
    var e, name := EventRaised(rawName, Some(text)), env.lower(rawName);
    var longer := h + [e] + more;
    assert longer == h + ([e] + more) && longer[..|h|] == h;
    UnfaultedPrefix(env, longer, |h|);
    LogIsPrefixStable(env, h, [e] + more);
    InputHeard(env, h, rawName, text);
    HeardMore(env, h + [e], more);
    RunSettled(env, longer);
    var t, i := Run(env, h).thread, Heard(env, longer);
    assert Heard(env, h + [e]).Raised(name) <= i.Raised(name);
    SettledPast(env, t.body, i, t.trace, Run(env, longer).thread.trace, SignalRef(name, k), text);
  }

  lemma InputHeard(env: Env, h: seq<Event>, rawName: string, text: string)
    ensures var name := env.lower(rawName);
            Heard(env, h + [EventRaised(rawName, Some(text))]).Raised(name) == RaisedIn(env, h, name) + [text]
  {
    hide Run;
    HeardRaised(env, h, env.lower(rawName));
    assert (h + [EventRaised(rawName, Some(text))])[..|h|] == h;
  }

  /** With nothing after it, this is what one resolution that polls does. */
  lemma {:induction false} ResolutionYieldsAtOnce(env: Env, h: seq<Event>, e: Event, id: nat, text: string)
    requires WellOwned(env) && Admissible(env, h)
    requires StandsAt(env, Run(env, h).thread, TaskRef(id)) && id in Run(env, h).pendingTasks
    requires Carries(e, id, text) && !e.TaskFailed?
    ensures !Run(env, h + [e]).thread.status.Panicked?
    ensures Run(env, h).thread.trace + [text] <= Run(env, h + [e]).thread.trace
  {
    hide Run, StandsAt;
    var longer := h + [e];
    ResolutionTells(e, id, Some(text));
    ResolutionAdmissible(env, h, e);
    Blocks(env, Run(env, h).thread, TaskRef(id));
    RunBoundary(env, h);
    RunSnoc(env, h, e);
    NoFault(env, Run(env, h), Heard(env, h), e);
    assert h + [e] + [] == longer && longer[|longer| - 1] == e;
    ResolutionYields(env, h, e, id, text, []);
  }

  lemma Blocks(env: Env, t: Thread, ref: Ref)
    requires StandsAt(env, t, ref)
    ensures t.status.Blocked?
  {
  }

  lemma ResolutionAdmissible(env: Env, h: seq<Event>, e: Event)
    requires Admissible(env, h) && e.IsResolution()
    ensures Admissible(env, h + [e])
  {
    hide Run;
    var longer := h + [e];
    forall n: nat {:trigger longer[n]} | n < |longer| ensures AdmissibleEvent(env, Run(env, longer[..n]), longer[n]) {
      if n < |h| {
        assert longer[..n] == h[..n] && longer[n] == h[n];
      }
    }
  }

  /**
   * A resolution that tells nothing is the end of its task: if it is the first one for an issued id, the
   * handle shows that the sender is gone, whatever follows, and no await has yielded anything for it.
   */
  lemma {:induction false} HollowNeverYields(env: Env, h: seq<Event>, m: nat, id: nat, n: nat)
    requires WellOwned(env) && Admissible(env, h) && !Run(env, h).thread.status.Panicked?
    requires FirstResolvesAt(env, h, m, id) && Hollow(h[m], id)
    ensures id !in Run(env, h).pendingTasks
    ensures var t := Run(env, h).thread;
            && 1 <= id <= TaskCount(LogOfThread(t))
            && TaskHandles(LogOfThread(t))[id - 1] < |t.slots|
            && t.slots[TaskHandles(LogOfThread(t))[id - 1]] == SenderDropped
            && !AwaitedTaskAt(env, t, n, id)
  {
    hide Run;
    HeardHollow(env, h, m, id);
    RunBoundary(env, h);
    HandlesConserved(env, h, id);
    HollowShown(env, Run(env, h), Heard(env, h), id);
    var t, i := Run(env, h).thread, Heard(env, h);
    if AwaitedTaskAt(env, t, n, id) {
      AwaitYields(env, t.body, i, t.trace, n);
      assert false;
    }
  }

  lemma {:induction false} HeardHollow(env: Env, h: seq<Event>, m: nat, id: nat)
    requires FirstResolvesAt(env, h, m, id) && Hollow(h[m], id)
    ensures id in Heard(env, h).resolved && Heard(env, h).resolved[id] == None
  {
    hide Run, Heard, ResolvesAt;
    HeardFirst(env, h, id);
    assert ResolvesAt(env, h, m, id);
    var k: nat :| FirstResolvesAt(env, h, k, id) && Tells(h[k], id, Heard(env, h).resolved[id]);
    assert k == m;
  }

  lemma HollowShown(env: Env, s: State, i: Inputs, id: nat)
    requires Boundary(env, s, i) && id in i.resolved && i.resolved[id] == None
    ensures var ops, slots := LogOfThread(s.thread), s.thread.slots;
            && 1 <= id <= TaskCount(ops)
            && TaskHandles(ops)[id - 1] < |slots| && slots[TaskHandles(ops)[id - 1]] == SenderDropped
  {
    var t, ops := s.thread, LogOfThread(s.thread);
    var to := TaskHandles(ops)[id - 1];
    TaskPlace(env, ops, id);
    assert SlotFits(env, t.slots, Awaited(t.body, t.trace), ops, i, to);
    if to in Awaited(t.body, t.trace) {
      AwaitedYielded(env, t.body, i, t.trace, to);
    }
  }
}
