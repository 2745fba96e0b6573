/**
 * Invariants of every reachable state whatever: any programs, any events, repeated starts. They
 * also hold in the middle of a poll, with waiters still in the channel counted as pending.
 */
module Invariants {
  import opened Types
  import opened Orchestrator
  import opened Replay

  /** No name has both a waiter and a buffered event, and no queue is empty. */
  ghost predicate Exclusive(received: Mail, waiting: map<string, seq<Sender>>) {
    && (forall name :: name in received ==> name !in waiting && received[name] != [])
    && (forall name :: name in waiting ==> waiting[name] != [])
  }

  /** Each pending action is filed under its own id. */
  ghost predicate Keyed(actions: map<int, Action>) {
    forall id :: id in actions ==> actions[id].id == id
  }

  ghost predicate KeyedQueue(q: seq<(int, Action)>) {
    forall j: nat :: j < |q| ==> q[j].1.id == q[j].0
  }

  /** The invariant, with the channels of the orchestrator counted as drained. */
  ghost predicate Sound(s: State) {
    && Exclusive(s.thread.received, DrainEvents(s.pendingEvents, s.thread.eventTx))
    && (forall name :: name in s.pendingEvents ==> s.pendingEvents[name] != [])
    && Keyed(s.pendingActions) && KeyedQueue(s.thread.actionTx)
  }

  /** One call in the middle of a poll. */
  lemma CallKeepsSound(env: Env, s: State, op: Op)
    requires Sound(s)
    ensures Sound(s.(thread := DoOp(env, s.thread, op)))
  {
    var t, t' := s.thread, DoOp(env, s.thread, op);
    if t'.eventTx != t.eventTx {
      assert t'.eventTx[..|t'.eventTx| - 1] == t.eventTx;
    }
  }

  lemma {:induction false} CallsKeepSound(env: Env, s: State, ops: seq<Op>)
    requires Sound(s)
    ensures Sound(s.(thread := DoOps(env, s.thread, ops)))
  {
    hide DoOp;
    if ops != [] {
      var before := ops[..|ops| - 1];
      CallsKeepSound(env, s, before);
      CallKeepsSound(env, s.(thread := DoOps(env, s.thread, before)), ops[|ops| - 1]);
    }
  }

  lemma {:induction false} ResumeKeepsSound(env: Env, s: State)
    requires Sound(s)
    ensures Sound(s.(thread := Resume(env, s.thread)))
    decreases Tokens(s.thread)
  {
    var t := s.thread;
    var tail := t.body(t.trace).tail;
    if t.status.Blocked? && tail.Await? && tail.handle < |t.slots|
       && t.slots[tail.handle].Sent? && t.slots[tail.handle].payload.Some? {
      var payload := t.slots[tail.handle].payload.value;
      var t1 := Consume(t, tail.handle, payload);
      ConsumeTokens(env, t, tail.handle, payload);
      CallsKeepSound(env, s.(thread := t1), t1.body(t1.trace).ops);
      ResumeKeepsSound(env, s.(thread := Enter(env, t1)));
    }
  }

  lemma PollKeepsSound(env: Env, s: State)
    requires Sound(s)
    ensures Sound(Poll(env, s)) && Sound(PollQuietly(env, s))
  {
    ResumeKeepsSound(env, s);
  }

  /** A name that waits before a drain waits after it. */
  lemma {:induction false} DrainKeepsNames(m: map<string, seq<Sender>>, q: seq<(string, Sender)>, name: string)
    requires name in m
    ensures name in DrainEvents(m, q)
  {
    if q != [] {
      DrainKeepsNames(m, q[..|q| - 1], name);
    }
  }

  lemma LaunchKeepsSound(env: Env, s: State, body: Program)
    requires Sound(s) && s.thread.eventTx == []
    ensures Sound(s.(thread := Launch(env, s.thread.gen + 1, body, s.thread.received)))
  {
    hide DoOps, Resume;
    var t0 := Fresh(s.thread.gen + 1, body, s.thread.received);
    CallsKeepSound(env, s.(thread := t0), body([]).ops);
    ResumeKeepsSound(env, s.(thread := Enter(env, t0)));
  }

  lemma StartKeepsSound(env: Env, s: State, name: string, input: Option<string>)
    requires Sound(s) && s.thread.eventTx == []
    ensures Sound(Start(env, s, name, input))
  {
    hide Launch;
    if name in env.registry {
      var body := env.registry[name](input);
      LaunchKeepsSound(env, s, body);
      var t := Launch(env, s.thread.gen + 1, body, s.thread.received);
      assert DrainEvents(s.pendingEvents, []) == s.pendingEvents;
      forall other | other in s.pendingEvents ensures other !in t.received {
        DrainKeepsNames(s.pendingEvents, t.eventTx, other);
      }
    }
  }

  lemma DeliverKeepsSound(s: State, id: int, payload: Option<string>)
    requires Sound(s)
    ensures Sound(Deliver(s, id, payload))
    ensures Deliver(s, id, payload).thread.eventTx == s.thread.eventTx
  {
  }

  lemma RaiseKeepsSound(env: Env, s: State, name: string, input: Option<string>)
    requires Sound(s) && s.thread.eventTx == []
    ensures Sound(Raise(env, s, name, input))
  {
    hide Resume;
    assert DrainEvents(s.pendingEvents, []) == s.pendingEvents;
    if name in s.pendingEvents {
      PollKeepsSound(env, s.(pendingEvents := PopQueue(s.pendingEvents, name),
                             thread := Send(s.thread, s.pendingEvents[name][0], input)));
    }
  }

  lemma EventKeepsSound(env: Env, s: State, e: Event)
    requires Sound(s) && s.thread.eventTx == []
    ensures Sound(ProcessEvent(env, s, e))
  {
    hide Poll, PollQuietly, Deliver, Raise, Start;
    if e.IsResolution() {
      DeliverKeepsSound(s, e.taskId, e.Payload());
      PollKeepsSound(env, Deliver(s, e.taskId, e.Payload()));
    } else if e.EventRaised? {
      RaiseKeepsSound(env, s, env.lower(e.name), e.input);
    } else if e.ExecutionStarted? {
      StartKeepsSound(env, s, e.name, e.input);
    } else {
      PollKeepsSound(env, s);
    }
  }

  lemma {:induction false} DrainKeyed(m: map<int, Action>, q: seq<(int, Action)>)
    requires Keyed(m) && KeyedQueue(q)
    ensures Keyed(DrainInto(m, q))
  {
    if q != [] {
      DrainKeyed(m, q[..|q| - 1]);
    }
  }

  lemma DrainKeepsSound(s: State)
    requires Sound(s)
    ensures Sound(Drain(s))
  {
    DrainKeyed(s.pendingActions, s.thread.actionTx);
  }

  /**
   * At every event boundary of every execution that has not panicked, no name has both a pending
   * waiter and a buffered event, every queue is non-empty, and every action is keyed by its own id,
   * even when a drained action overwrote a minted completion.
   */
  lemma {:induction false} AlwaysSound(env: Env, h: seq<Event>)
    requires !Run(env, h).thread.status.Panicked?
    ensures Sound(Run(env, h))
    ensures Exclusive(Run(env, h).thread.received, Run(env, h).pendingEvents)
    ensures Run(env, h).thread.eventTx == []
  {
    hide ProcessEvent;
    if h != [] {
      var s := Run(env, h[..|h| - 1]);
      assert !s.thread.status.Panicked?;
      AlwaysSound(env, h[..|h| - 1]);
      EventKeepsSound(env, s, h[|h| - 1]);
      DrainKeepsSound(ProcessEvent(env, s, h[|h| - 1]));
    }
    assert DrainEvents(Run(env, h).pendingEvents, []) == Run(env, h).pendingEvents;
  }

  lemma KeyedValue(m: map<int, Action>, a: Action)
    requires Keyed(m) && a in ValuesOf(m)
    ensures a.id in m && m[a.id] == a
  {
    var id :| id in m && m[id] == a;
  }

  /** Whatever the history, the actions an execution returns have pairwise distinct ids. */
  lemma ReturnedIdsDistinct(env: Env, past: seq<Event>, recent: seq<Event>, a: Action, b: Action)
    requires Execute(env, past, recent).Reply?
    requires a in Execute(env, past, recent).actions && b in Execute(env, past, recent).actions
    requires a.id == b.id
    ensures a == b
  {
    hide Step;
    SplitIndependence(env, past, recent, past, recent);
    AlwaysSound(env, past + recent);
    KeyedValue(Run(env, past + recent).pendingActions, a);
    KeyedValue(Run(env, past + recent).pendingActions, b);
  }

  /** The counter is the last positive id that came through the channel, if any did. */
  lemma {:induction false} CounterAdopts(n: int, q: seq<(int, Action)>, last: nat)
    ensures (forall j: nat :: j < |q| ==> q[j].0 <= 0) ==> DrainCounter(n, q) == n
    ensures last < |q| && q[last].0 > 0 && (forall j: nat :: last < j < |q| ==> q[j].0 <= 0) ==>
              DrainCounter(n, q) == q[last].0
  {
    if q != [] {
      CounterAdopts(n, q[..|q| - 1], last);
    }
  }

  /** Whatever the program, an await on a handle that has yielded already panics. */
  lemma HandleYieldsOnce(env: Env, t: Thread)
    requires t.status.Blocked? && t.body(t.trace).tail.Await?
    requires t.body(t.trace).tail.handle < |t.slots| && t.slots[t.body(t.trace).tail.handle] == Consumed
    ensures Resume(env, t).status == Panicked(HandleReused)
  {
  }
}
