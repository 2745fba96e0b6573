/**
 * What an orchestrator means, without queues, channels, slots or polls: the payloads its awaits
 * yield are read off a map of resolutions by task id and, per event name, the list of raised inputs.
 */
module Meaning {
  import opened Types

  datatype Inputs = Inputs(resolved: map<int, Option<string>>, raised: map<string, seq<string>>) {

    function Raised(name: string): seq<string> {
      if name in raised then raised[name] else []
    }

    /** `more` has heard everything this has, and possibly more. */
    ghost predicate Within(more: Inputs) {
      && (forall id :: id in resolved ==> id in more.resolved && more.resolved[id] == resolved[id])
      && (forall name :: Raised(name) <= more.Raised(name))
    }
  }

  /** What a handle refers to: the id-th task, or the k-th wait on a name. */
  datatype Ref = TaskRef(id: nat) | SignalRef(name: string, k: nat)

  /** Every call the orchestrator has made, in order, once its awaits have yielded `trace`. */
  function OpsAt(p: Program, trace: seq<string>): seq<Op> {
    (if trace == [] then [] else OpsAt(p, trace[..|trace| - 1])) + p(trace).ops
  }

  /** The handles of the tasks, by id: the task with id n has the n-th of them. */
  function TaskHandles(ops: seq<Op>): seq<nat> {
    if ops == [] then []
    else TaskHandles(ops[..|ops| - 1]) + if ops[|ops| - 1].StartTask? then [|ops| - 1] else []
  }

  predicate WaitsOn(env: Env, op: Op, name: string) {
    op.StartSignal? && env.lower(op.name) == name
  }

  /** The handles of the waits on a name, in the order the waits were started. */
  function WaitHandles(env: Env, ops: seq<Op>, name: string): seq<nat> {
    if ops == [] then []
    else WaitHandles(env, ops[..|ops| - 1], name) + if WaitsOn(env, ops[|ops| - 1], name) then [|ops| - 1] else []
  }

  function TaskCount(ops: seq<Op>): nat {
    |TaskHandles(ops)|
  }

  function WaitCount(env: Env, ops: seq<Op>, name: string): nat {
    |WaitHandles(env, ops, name)|
  }

  function RefOf(env: Env, ops: seq<Op>, h: nat): Ref
    requires h < |ops|
  {
    match ops[h]
    case StartTask(_) => TaskRef(TaskCount(ops[..h]) + 1)
    case StartSignal(name) => SignalRef(env.lower(name), WaitCount(env, ops[..h], env.lower(name)))
  }

  /** Task handles are handles of tasks, in increasing order. */
  lemma {:induction false} TaskHandlesSound(ops: seq<Op>)
    ensures forall j: nat :: j < TaskCount(ops) ==>
              TaskHandles(ops)[j] < |ops| && ops[TaskHandles(ops)[j]].StartTask?
  {
    if ops != [] {
      TaskHandlesSound(ops[..|ops| - 1]);
    }
  }

  /** The call that was issued under an id. */
  function CallOf(ops: seq<Op>, id: nat): Call
    requires 1 <= id <= TaskCount(ops)
  {
    TaskHandlesSound(ops);
    ops[TaskHandles(ops)[id - 1]].call
  }

  function Value(i: Inputs, ref: Ref): Option<string> {
    match ref
    case TaskRef(id) => if id in i.resolved then i.resolved[id] else None
    case SignalRef(name, k) => if k < |i.Raised(name)| then Some(i.Raised(name)[k]) else None
  }

  /** What the await at which the orchestrator stands after `trace` yields; None when it stands at no await. */
  function Yield(env: Env, p: Program, i: Inputs, trace: seq<string>): Option<string> {
    match p(trace).tail
    case Return(_) => None
    case Await(h) =>
      if h < |OpsAt(p, trace)| then Value(i, RefOf(env, OpsAt(p, trace), h)) else None
  }

  /** Each payload of the trace is what the inputs yield at that await. */
  predicate Follows(env: Env, p: Program, i: Inputs, trace: seq<string>) {
    trace == [] ||
    var before := trace[..|trace| - 1];
    Follows(env, p, i, before) && Yield(env, p, i, before) == Some(trace[|trace| - 1])
  }

  /** The meaning of a program on some inputs: the trace that follows them as far as they carry it. */
  predicate Settles(env: Env, p: Program, i: Inputs, trace: seq<string>) {
    Follows(env, p, i, trace) && Yield(env, p, i, trace) == None
  }

  /** The handles awaited on the way. */
  function Awaited(p: Program, trace: seq<string>): set<nat> {
    if trace == [] then {}
    else
      var before := trace[..|trace| - 1];
      Awaited(p, before) + match p(before).tail { case Await(h) => {h} case Return(_) => {} }
  }

  /** Every proper prefix of the trace stands at an await: the only traces an orchestrator can reach. */
  ghost predicate Reachable(p: Program, trace: seq<string>) {
    forall n: nat {:trigger trace[..n]} :: n < |trace| ==> p(trace[..n]).tail.Await?
  }

  /**
   * The discipline that ownership of handles imposes: only handles already obtained are awaited,
   * and each at most once.
   */
  ghost predicate Affine(p: Program) {
    forall trace ::
      Reachable(p, trace) && p(trace).tail.Await? ==>
        p(trace).tail.handle < |OpsAt(p, trace)| && p(trace).tail.handle !in Awaited(p, trace)
  }

  // Handles and references correspond one to one.

  lemma RefStable(env: Env, ops: seq<Op>, more: seq<Op>, h: nat)
    requires h < |ops|
    ensures RefOf(env, ops + more, h) == RefOf(env, ops, h)
  {
    assert (ops + more)[..h] == ops[..h];
  }

  lemma {:induction false} HandlesGrow(env: Env, ops: seq<Op>, more: seq<Op>, name: string)
    requires ops <= more
    ensures TaskHandles(ops) <= TaskHandles(more)
    ensures WaitHandles(env, ops, name) <= WaitHandles(env, more, name)
    decreases |more|
  {
    if |ops| < |more| {
      assert ops <= more[..|more| - 1];
      HandlesGrow(env, ops, more[..|more| - 1], name);
    } else {
      assert ops == more;
    }
  }

  /** A handle refers to the id-th task or k-th wait exactly when it is listed at that place. */
  lemma RefPlace(env: Env, ops: seq<Op>, h: nat)
    requires h < |ops|
    ensures var ref := RefOf(env, ops, h);
            && (ref.TaskRef? ==> 1 <= ref.id <= TaskCount(ops) && TaskHandles(ops)[ref.id - 1] == h)
            && (ref.SignalRef? ==>
                  ref.k < WaitCount(env, ops, ref.name) && WaitHandles(env, ops, ref.name)[ref.k] == h)
  {
    assert ops[..h + 1][..h] == ops[..h];
    HandlesGrow(env, ops[..h + 1], ops, if ops[h].StartSignal? then env.lower(ops[h].name) else "");
  }

  /** No two handles refer to the same task or wait. */
  lemma RefsDistinct(env: Env, ops: seq<Op>, a: nat, b: nat)
    requires a < b < |ops|
    ensures RefOf(env, ops, a) != RefOf(env, ops, b)
  {
    RefPlace(env, ops, a);
    RefPlace(env, ops, b);
  }

  lemma {:induction false} TaskPlace(env: Env, ops: seq<Op>, id: nat)
    requires 1 <= id <= TaskCount(ops)
    ensures TaskHandles(ops)[id - 1] < |ops| && RefOf(env, ops, TaskHandles(ops)[id - 1]) == TaskRef(id)
  {
    var before := ops[..|ops| - 1];
    if id <= TaskCount(before) {
      TaskPlace(env, before, id);
      assert ops == before + [ops[|ops| - 1]];
      RefStable(env, before, [ops[|ops| - 1]], TaskHandles(ops)[id - 1]);
    }
  }

  lemma {:induction false} WaitPlace(env: Env, ops: seq<Op>, name: string, k: nat)
    requires k < WaitCount(env, ops, name)
    ensures WaitHandles(env, ops, name)[k] < |ops|
    ensures RefOf(env, ops, WaitHandles(env, ops, name)[k]) == SignalRef(name, k)
  {
    var before := ops[..|ops| - 1];
    if k < WaitCount(env, before, name) {
      WaitPlace(env, before, name, k);
      assert ops == before + [ops[|ops| - 1]];
      RefStable(env, before, [ops[|ops| - 1]], WaitHandles(env, ops, name)[k]);
    }
  }

  // The meaning is determined by the inputs, and grows with them.

  lemma {:induction false} FollowsPrefix(env: Env, p: Program, i: Inputs, trace: seq<string>, n: nat)
    requires Follows(env, p, i, trace) && n <= |trace|
    ensures Follows(env, p, i, trace[..n])
    ensures n < |trace| ==> Yield(env, p, i, trace[..n]) == Some(trace[n])
    decreases |trace|
  {
    if n < |trace| {
      var before := trace[..|trace| - 1];
      assert before[..n] == trace[..n];
      FollowsPrefix(env, p, i, before, n);
    } else {
      assert trace[..n] == trace;
    }
  }

  lemma ValueMonotone(i: Inputs, more: Inputs, ref: Ref)
    requires i.Within(more) && Value(i, ref).Some?
    ensures Value(more, ref) == Value(i, ref)
  {
    if ref.SignalRef? {
      assert i.Raised(ref.name) <= more.Raised(ref.name);
    }
  }

  lemma {:induction false} FollowsMonotone(env: Env, p: Program, i: Inputs, more: Inputs, trace: seq<string>)
    requires i.Within(more) && Follows(env, p, i, trace)
    ensures Follows(env, p, more, trace)
  {
    if trace != [] {
      var before := trace[..|trace| - 1];
      FollowsMonotone(env, p, i, more, before);
      ValueMonotone(i, more, RefOf(env, OpsAt(p, before), p(before).tail.handle));
    }
  }

  /** More inputs never change what has happened: a trace that follows fewer inputs is a prefix of the settled one. */
  lemma {:induction false} MeaningMonotone(env: Env, p: Program, i: Inputs, more: Inputs,
                                           trace: seq<string>, settled: seq<string>)
    requires i.Within(more) && Follows(env, p, i, trace) && Settles(env, p, more, settled)
    ensures trace <= settled
  {
    if trace != [] {
      var before := trace[..|trace| - 1];
      MeaningMonotone(env, p, i, more, before, settled);
      assert |before| == |settled| ==> before == settled;
      ValueMonotone(i, more, RefOf(env, OpsAt(p, before), p(before).tail.handle));
      if |before| == |settled| {
        assert false;
      }
      FollowsPrefix(env, p, more, settled, |before|);
      assert settled[..|before|] == before;
      assert trace == before + [trace[|trace| - 1]];
    }
  }

  /** Nothing follows a return. */
  lemma NothingFollowsReturn(env: Env, p: Program, i: Inputs, trace: seq<string>, longer: seq<string>)
    requires trace <= longer && Follows(env, p, i, longer) && p(trace).tail.Return?
    ensures longer == trace
  {
    assert longer[..|trace|] == trace;
    FollowsPrefix(env, p, i, longer, |trace|);
  }

  /** A program settles on any inputs in at most one way. */
  lemma MeaningUnique(env: Env, p: Program, i: Inputs, a: seq<string>, b: seq<string>)
    requires Settles(env, p, i, a) && Settles(env, p, i, b)
    ensures a == b
  {
    MeaningMonotone(env, p, i, i, a, b);
    MeaningMonotone(env, p, i, i, b, a);
  }

  /** The log of calls only grows along a trace. */
  lemma {:induction false} OpsGrow(p: Program, shorter: seq<string>, trace: seq<string>)
    requires shorter <= trace
    ensures OpsAt(p, shorter) <= OpsAt(p, trace)
    decreases |trace|
  {
    if |shorter| < |trace| {
      assert shorter <= trace[..|trace| - 1];
      OpsGrow(p, shorter, trace[..|trace| - 1]);
    } else {
      assert shorter == trace;
    }
  }

  /** An id keeps its call as the log grows. */
  lemma CallStable(env: Env, ops: seq<Op>, more: seq<Op>, id: nat)
    requires ops <= more && 1 <= id <= TaskCount(ops)
    ensures id <= TaskCount(more) && CallOf(more, id) == CallOf(ops, id)
  {
    HandlesGrow(env, ops, more, "");
    TaskHandlesSound(ops);
  }

  lemma {:induction false} FollowsReachable(env: Env, p: Program, i: Inputs, trace: seq<string>)
    requires Follows(env, p, i, trace)
    ensures Reachable(p, trace)
  {
    forall n: nat | n < |trace| ensures p(trace[..n]).tail.Await? {
      FollowsPrefix(env, p, i, trace, n);
    }
  }

  /** Under the ownership discipline an awaited handle is never awaited again. */
  lemma {:induction false} AwaitedOnce(env: Env, p: Program, i: Inputs, trace: seq<string>, h: nat)
    requires Affine(p) && Follows(env, p, i, trace) && p(trace).tail == Await(h)
    ensures h < |OpsAt(p, trace)| && h !in Awaited(p, trace)
  {
    FollowsReachable(env, p, i, trace);
  }
}
