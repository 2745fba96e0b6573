/** The context an orchestrator calls, and the orchestrator as a future that the executor polls. */
module Context {
  import opened Types
  import opened Orchestrator
  import opened Tasks

  /** The buffered events, shared by the executor and its orchestrators. */
  class Mailbox {
    var queues: Mail

    constructor ()
      ensures queues == map[]
    {
      queues := map[];
    }
  }

  class OrchestratorContext {
    const env: Env
    const mailbox: Mailbox
    const frame: Frame
    ghost const gen: nat
    ghost var made: nat
    var sequenceNumber: int
    var actionsTx: seq<(int, Action)>
    var tasksTx: seq<(int, OneShot)>
    var eventsTx: seq<(string, OneShot)>

    constructor (env: Env, mailbox: Mailbox, ghost gen: nat)
      ensures this.env == env && this.mailbox == mailbox && this.gen == gen && made == 0
      ensures fresh(frame) && frame.alive && sequenceNumber == 0
      ensures actionsTx == [] && tasksTx == [] && eventsTx == []
    {
      this.env, this.mailbox, this.gen, made := env, mailbox, gen, 0;
      sequenceNumber, actionsTx, tasksTx, eventsTx := 0, [], [], [];
      frame := new Frame();
    }

    method NextSequenceNumber() returns (id: int)
      modifies this`sequenceNumber
      ensures id == sequenceNumber == old(sequenceNumber) + 1
    {
      sequenceNumber := sequenceNumber + 1;
      id := sequenceNumber;
    }

    /** A handle newly made by this context, waiting, and the sending end that unblocks it. */
    ghost predicate MadeTask(task: CompletableTask, slot: Slot)
      reads this, task, task.unblock
    {
      && made > 0 && task.unblock.frame == frame && task.unblock.to == Sender(gen, made - 1)
      && task.View() == slot
    }

    /** What the three scheduling calls do alike. */
    twostate predicate Scheduled(call: Call, new task: CompletableTask)
      reads this, task, task.unblock
    {
      && made == old(made) + 1 && MadeTask(task, Empty)
      && sequenceNumber == old(sequenceNumber) + 1
      && actionsTx == old(actionsTx) + [(sequenceNumber, Action(sequenceNumber, Schedule(call)))]
      && tasksTx == old(tasksTx) + [(sequenceNumber, task.unblock)]
      && eventsTx == old(eventsTx)
    }

    method CreateTimer() returns (task: CompletableTask)
      modifies this
      ensures fresh(task) && fresh(task.unblock) && Scheduled(Timer, task)
    {
      var id := NextSequenceNumber();
      actionsTx := actionsTx + [(id, Action(id, Schedule(Timer)))];
      task := new CompletableTask(frame, Sender(gen, made));
      tasksTx := tasksTx + [(id, task.unblock)];
      made := made + 1;
    }

    method ScheduleActivity(name: string, input: Option<string>) returns (task: CompletableTask)
      modifies this
      ensures fresh(task) && fresh(task.unblock) && Scheduled(Activity(name, input), task)
    {
      var id := NextSequenceNumber();
      actionsTx := actionsTx + [(id, Action(id, Schedule(Activity(name, input))))];
      task := new CompletableTask(frame, Sender(gen, made));
      tasksTx := tasksTx + [(id, task.unblock)];
      made := made + 1;
    }

    method ScheduleSubOrchestrator(name: string, instanceId: string, input: Option<string>)
      returns (task: CompletableTask)
      modifies this
      ensures fresh(task) && fresh(task.unblock) && Scheduled(SubOrchestration(name, instanceId, input), task)
    {
      var id := NextSequenceNumber();
      actionsTx := actionsTx + [(id, Action(id, Schedule(SubOrchestration(name, instanceId, input))))];
      task := new CompletableTask(frame, Sender(gen, made));
      tasksTx := tasksTx + [(id, task.unblock)];
      made := made + 1;
    }

    /** Start waiting for an event: take the oldest buffered one, or register a waiter. */
    method AwaitSignalEvent(rawName: string) returns (task: CompletableTask, ok: bool)
      modifies this, mailbox
      ensures fresh(task) && fresh(task.unblock)
      ensures var name, before := env.lower(rawName), old(mailbox.queues);
              && ok == (name !in before || (before[name] != [] && before[name][0].Some?))
              && (ok ==>
                    && made == old(made) + 1
                    && sequenceNumber == old(sequenceNumber)
                    && actionsTx == old(actionsTx) && tasksTx == old(tasksTx)
                    && if name in before then
                         && mailbox.queues == PopQueue(before, name) && eventsTx == old(eventsTx)
                         && MadeTask(task, Sent(before[name][0]))
                       else
                         && mailbox.queues == before && eventsTx == old(eventsTx) + [(name, task.unblock)]
                         && MadeTask(task, Empty))
    {
      var name := env.lower(rawName);
      task := new CompletableTask(frame, Sender(gen, made));
      made := made + 1;
      ok := true;
      if name in mailbox.queues {
        var queue := mailbox.queues[name];
        if queue == [] || queue[0].None? {
          return task, false;
        }
        if |queue| > 1 {
          mailbox.queues := mailbox.queues[name := queue[1..]];
        } else {
          mailbox.queues := mailbox.queues - {name};
        }
        task.Complete(queue[0].value);
      } else {
        eventsTx := eventsTx + [(name, task.unblock)];
      }
    }
  }

  lemma TaskNeverFaults(env: Env, t: Thread, call: Call)
    requires !t.status.Panicked?
    ensures !DoOp(env, t, StartTask(call)).status.Panicked?
  {
  }

  /**
   * An orchestrator as a future. Its position is the payloads its awaits have yielded, and its
   * handles live in the frame of its context.
   */
  class OrchestratorFuture {
    const ctx: OrchestratorContext
    const body: Program
    var trace: seq<string>
    var entered: bool
    var handles: seq<CompletableTask>

    constructor (env: Env, body: Program, mailbox: Mailbox, ghost gen: nat)
      ensures this.body == body && ctx.mailbox == mailbox && ctx.env == env && ctx.gen == gen
      ensures fresh(ctx) && fresh(ctx.frame) && fresh(Footprint() - {mailbox})
      ensures !entered && Represents(Fresh(gen, body, mailbox.queues))
    {
      this.body, trace, entered, handles := body, [], false, [];
      ctx := new OrchestratorContext(env, mailbox, gen);
    }

    ghost function Channels(): set<object>
      reads this
    {
      set task | task in handles :: task.unblock
    }

    ghost function Footprint(): set<object>
      reads this
    {
      {this, ctx, ctx.mailbox, ctx.frame} + (set task | task in handles) + Channels()
    }

    /** The sender at this address reaches the handle it is meant for, if that handle belongs to this orchestrator. */
    ghost predicate Reaches(channel: OneShot, to: Sender)
      reads this, handles
    {
      && channel.to == to && to.gen == ctx.gen
      && to.slot < |handles| && handles[to.slot].unblock == channel && !handles[to.slot].completed
    }

    ghost predicate HandlesShow(slots: seq<Slot>)
      reads this, ctx, handles, Channels()
    {
      && |handles| == |slots| == ctx.made
      && (forall h: nat :: h < |handles| ==>
            handles[h].unblock.to == Sender(ctx.gen, h) && handles[h].unblock.frame == ctx.frame)
      && (forall h: nat :: h < |handles| ==> handles[h].View() == slots[h])
    }

    ghost predicate ChannelsShow(taskTx: seq<(int, Sender)>, eventTx: seq<(string, Sender)>)
      reads this, ctx, handles
    {
      && |ctx.tasksTx| == |taskTx| && |ctx.eventsTx| == |eventTx|
      && (forall j: nat :: j < |taskTx| ==>
            ctx.tasksTx[j].0 == taskTx[j].0 && Reaches(ctx.tasksTx[j].1, taskTx[j].1))
      && (forall j: nat :: j < |eventTx| ==>
            ctx.eventsTx[j].0 == eventTx[j].0 && Reaches(ctx.eventsTx[j].1, eventTx[j].1))
    }

    /** The abstract thread that this object stands for. */
    ghost predicate Represents(t: Thread)
      reads Footprint()
    {
      && t.gen == ctx.gen && t.body == body && t.trace == trace
      && t.nextId == ctx.sequenceNumber && t.received == ctx.mailbox.queues && t.actionTx == ctx.actionsTx
      && (ctx.frame.alive <==> t.status.Blocked?)
      && HandlesShow(t.slots)
      && ChannelsShow(t.taskTx, t.eventTx)
    }

    method Schedule(call: Call) returns (task: CompletableTask)
      modifies ctx
      ensures fresh(task) && fresh(task.unblock) && ctx.Scheduled(call, task)
    {
      match call {
        case Timer => task := ctx.CreateTimer();
        case Activity(name, input) => task := ctx.ScheduleActivity(name, input);
        case SubOrchestration(name, instanceId, input) => task := ctx.ScheduleSubOrchestrator(name, instanceId, input);
      }
    }

    /** Start a task on the context and keep its handle. */
    method Start(call: Call, ghost t: Thread)
      requires Represents(t) && t.status.Blocked?
      modifies this`handles, ctx
      ensures Represents(DoOp(ctx.env, t, StartTask(call)))
      ensures Kept(old(handles))
    {
      var task := Schedule(call);
      handles := handles + [task];
    }

    /** Start waiting for an event and keep the handle. */
    method AwaitSignal(name: string, ghost t: Thread) returns (ok: bool)
      requires Represents(t) && t.status.Blocked?
      modifies this`handles, ctx, ctx.mailbox
      ensures ok <==> !DoOp(ctx.env, t, StartSignal(name)).status.Panicked?
      ensures ok ==> Represents(DoOp(ctx.env, t, StartSignal(name)))
      ensures Kept(old(handles))
    {
      var task;
      task, ok := ctx.AwaitSignalEvent(name);
      if ok {
        handles := handles + [task];
      }
    }

    method Call(op: Op, ghost t: Thread) returns (ok: bool)
      requires Represents(t) && t.status.Blocked?
      modifies this`handles, ctx, ctx.mailbox
      ensures ok <==> !DoOp(ctx.env, t, op).status.Panicked?
      ensures ok ==> Represents(DoOp(ctx.env, t, op))
      ensures Kept(old(handles))
    {
      hide DoOp, Represents;
      ok := true;
      match op {
        case StartTask(call) =>
          Start(call, t);
          TaskNeverFaults(ctx.env, t, call);
        case StartSignal(name) =>
          ok := AwaitSignal(name, t);
      }
    }

    /** The handles held before are still held at the same places, and the others are new objects. */
    twostate predicate Kept(before: seq<CompletableTask>)
      reads this, handles
    {
      && |before| <= |handles| && handles[..|before|] == before
      && (forall h: nat :: h < |before| ==> handles[h].completed == old(before[h].completed))
      && forall h: nat :: |before| <= h < |handles| ==> fresh(handles[h]) && fresh(handles[h].unblock)
    }

    /** Make the calls of a burst, up to one that faults. */
    method MakeCalls(ops: seq<Op>, ghost t: Thread) returns (ok: bool)
      requires Represents(t) && t.status.Blocked?
      modifies this`handles, ctx, ctx.mailbox
      ensures ok <==> !DoOps(ctx.env, t, ops).status.Panicked?
      ensures !ok ==> DoOps(ctx.env, t, ops).status == Panicked(MissingPayload)
      ensures ok ==> Represents(DoOps(ctx.env, t, ops)) && DoOps(ctx.env, t, ops).status.Blocked?
      ensures Kept(old(handles))
    {
      hide DoOp, Represents;
      ok := true;
      assert ops[..0] == [];
      for i := 0 to |ops|
        invariant ok && Kept(old(handles))
        invariant Represents(DoOps(ctx.env, t, ops[..i])) && DoOps(ctx.env, t, ops[..i]).status.Blocked?
      {
        ghost var now := DoOps(ctx.env, t, ops[..i]);
        assert ops[..i + 1][..i] == ops[..i];
        CallStatus(ctx.env, now, ops[i]);
        label beforeCall:
        ok := Call(ops[i], now);
        if !ok {
          FaultedCalls(ctx.env, t, ops, i + 1);
          return;
        }
      }
      assert ops[..|ops|] == ops;
    }

    /** Poll one handle; a payload it yields moves the orchestrator on. */
    method Take(h: nat, ghost t: Thread) returns (r: PollResult<string>)
      requires Represents(t) && h < |handles|
      modifies this`trace, handles[h], handles[h].unblock
      ensures h < |t.slots|
      ensures r == match t.slots[h]
                   case Empty => Pending
                   case SenderDropped => Pending
                   case Consumed => Faulted(HandleReused)
                   case Sent(None) => Faulted(MissingPayload)
                   case Sent(Some(value)) => Ready(value)
      ensures r.Pending? ==> Represents(t)
      ensures r.Ready? ==> Represents(Consume(t, h, r.value))
      ensures Kept(old(handles))
    {
      var task := handles[h];
      r := task.Poll();
      if r.Ready? {
        trace := trace + [r.value];
      }
    }

    lemma Position(t: Thread)
      requires Represents(t)
      ensures t.body == body && t.trace == trace && |t.slots| == |handles|
      ensures t.status.Blocked? <==> ctx.frame.alive
    {
    }

    /** A poll that answers `r` leaves the orchestrator at `end`. */
    ghost predicate Ends(r: PollResult<Outcome>, end: Thread)
      reads Footprint()
    {
      && (r.Faulted? <==> end.status.Panicked?) && (r.Faulted? ==> end.status == Panicked(r.fault))
      && (r.Pending? <==> end.status.Blocked?)
      && (r.Ready? ==> end.status == Returned(r.value))
      && (!r.Faulted? ==> Represents(end))
    }

    /** The orchestrator returns, and its frame goes away. */
    method Finish(outcome: Outcome, ghost t: Thread)
      requires Represents(t) && t.status.Blocked?
      modifies ctx.frame
      ensures Represents(t.(status := Returned(outcome)))
    {
      ctx.frame.alive := false;
    }

    /** Go on from the await at which the orchestrator stands, by one payload and the calls that follow it. */
    method Advance(ghost t: Thread) returns (r: Option<PollResult<Outcome>>, ghost next: Thread)
      requires Represents(t) && t.status.Blocked?
      modifies this`trace, this`handles, ctx, ctx.mailbox, ctx.frame, handles, Channels()
      ensures r.Some? ==> Ends(r.value, Resume(ctx.env, t))
      ensures r.None? ==>
                && Represents(next) && next.status.Blocked?
                && Resume(ctx.env, next) == Resume(ctx.env, t) && Tokens(next) < Tokens(t)
      ensures Kept(old(handles))
    {
      hide DoOps, Represents, Tokens;
      next := t;
      Position(t);
      match body(trace).tail {
        case Return(outcome) =>
          Finish(outcome, t);
          return Some(Ready(outcome)), t;
        case Await(h) =>
          if h >= |handles| {
            return Some(Faulted(HandleReused)), t;
          }
          var yielded := Take(h, t);
          match yielded {
            case Pending =>
              return Some(Pending), t;
            case Faulted(fault) =>
              return Some(Faulted(fault)), t;
            case Ready(payload) =>
              next := Consume(t, h, payload);
              Position(next);
              ConsumeTokens(ctx.env, t, h, payload);
              var ok := MakeCalls(body(trace).ops, next);
              next := Enter(ctx.env, next);
              r := if ok then None else Some(Faulted(MissingPayload));
          }
      }
    }

    /** Run on to the first unresolved await, or to the end. */
    method Run(ghost t: Thread) returns (r: PollResult<Outcome>)
      requires Represents(t) && t.status.Blocked?
      modifies this`trace, this`handles, ctx, ctx.mailbox, ctx.frame, handles, Channels()
      ensures Ends(r, Resume(ctx.env, t))
      ensures Kept(old(handles))
    {
      hide Represents, Resume, Tokens;
      ghost var now := t;
      while true
        invariant Represents(now) && now.status.Blocked?
        invariant Resume(ctx.env, now) == Resume(ctx.env, t)
        invariant Kept(old(handles))
        decreases Tokens(now)
      {
        var stop;
        stop, now := Advance(now);
        if stop.Some? {
          return stop.value;
        }
      }
    }

    method MakeFirstCalls(ghost t: Thread) returns (ok: bool)
      requires Represents(t) && t.status.Blocked?
      modifies this`entered, this`handles, ctx, ctx.mailbox
      ensures entered
      ensures ok <==> !Enter(ctx.env, t).status.Panicked?
      ensures !ok ==> Enter(ctx.env, t).status == Panicked(MissingPayload)
      ensures ok ==> Represents(Enter(ctx.env, t)) && Enter(ctx.env, t).status.Blocked?
      ensures Kept(old(handles))
    {
      hide DoOps;
      entered := true;
      ok := MakeCalls(body(trace).ops, t);
    }

    /** Poll the orchestrator. The first poll makes the calls of its first burst before it runs on. */
    method Poll(ghost t: Thread) returns (r: PollResult<Outcome>)
      requires Represents(t) && (t.status.Blocked? || t.status.Returned?)
      modifies Footprint()
      ensures t.status.Returned? ==> r == Faulted(PolledAfterReturn)
      ensures t.status.Blocked? ==> entered && Ends(r, Resume(ctx.env, if old(entered) then t else Enter(ctx.env, t)))
      ensures Kept(old(handles)) && (ctx.frame.alive ==> old(ctx.frame.alive))
    {
      hide Represents, Resume, DoOps;
      Position(t);
      if !ctx.frame.alive {
        return Faulted(PolledAfterReturn);
      }
      ghost var now := t;
      if !entered {
        var ok := MakeFirstCalls(t);
        now := Enter(ctx.env, t);
        if !ok {
          FaultedEnd(ctx.env, now);
          return Faulted(MissingPayload);
        }
      }
      r := Run(now);
    }

  }

  lemma FaultedEnd(env: Env, t: Thread)
    requires t.status.Panicked?
    ensures Resume(env, t) == t
  {
  }

  lemma CallStatus(env: Env, t: Thread, op: Op)
    requires t.status.Blocked?
    ensures DoOp(env, t, op).status in {Blocked, Panicked(MissingPayload)}
  {
  }

  lemma {:induction false} FaultedCalls(env: Env, t: Thread, ops: seq<Op>, n: nat)
    requires n <= |ops| && DoOps(env, t, ops[..n]).status.Panicked?
    ensures DoOps(env, t, ops).status == DoOps(env, t, ops[..n]).status
    decreases |ops|
  {
    if n < |ops| {
      assert ops[..|ops| - 1][..n] == ops[..n];
      FaultedCalls(env, t, ops[..|ops| - 1], n);
    } else {
      assert ops[..n] == ops;
    }
  }
}
