/** The executor as it runs: mutable state, one-shot senders, and the loops that drain the channels. */
module Engine {
  import opened Types
  import opened Orchestrator
  import opened Replay
  import opened Tasks
  import opened Context

  class ExecutorContext {
    const env: Env
    const receivedEvents: Mailbox
    var isComplete: bool
    var completionStatus: Option<CompletionStatus>
    var sequenceNumber: int
    var pendingActions: map<int, Action>
    var pendingTasks: map<int, OneShot>
    var pendingEvents: map<string, seq<OneShot>>
    var orchestrator: OrchestratorFuture?

    constructor (env: Env)
      ensures this.env == env && fresh(Footprint()) && !isComplete
      ensures Represents(Init())
    {
      this.env := env;
      isComplete, completionStatus, sequenceNumber := false, None, 0;
      pendingActions, pendingTasks, pendingEvents, orchestrator := map[], map[], map[], null;
      receivedEvents := new Mailbox();
    }

    ghost function TaskChannels(): set<OneShot>
      reads `pendingTasks
    {
      set id | id in pendingTasks :: pendingTasks[id]
    }

    ghost function EventChannels(): set<OneShot>
      reads `pendingEvents
    {
      set name, j: nat | name in pendingEvents && j < |pendingEvents[name]| :: pendingEvents[name][j]
    }

    ghost function Channels(): set<OneShot>
      reads `pendingTasks, `pendingEvents
    {
      TaskChannels() + EventChannels()
    }

    ghost function Frames(): set<Frame>
      reads `pendingTasks, `pendingEvents
    {
      set channel | channel in Channels() :: channel.frame
    }

    ghost function Self(): set<object>
      reads `orchestrator
    {
      if orchestrator == null then {} else {orchestrator}
    }

    /** The orchestrator and its handles. */
    ghost function Held(): set<object>
      reads `orchestrator, Self()
    {
      if orchestrator == null then {}
      else {orchestrator} + set task: CompletableTask | task in orchestrator.handles
    }

    /** What a poll may change. */
    ghost function Polled(): set<object>
      reads `orchestrator, Self()
    {
      if orchestrator == null then {} else orchestrator.Footprint()
    }

    /** Everything the executor owns and may change. */
    ghost function Footprint(): set<object>
      reads `pendingTasks, `pendingEvents, `orchestrator, Self()
    {
      {this, receivedEvents} + Channels() + Polled()
    }

    /** The sender reaches the handle it is meant for, or belongs to an orchestrator that is gone. */
    ghost predicate Linked(channel: OneShot, to: Sender)
      reads `orchestrator, channel.frame, Self(), Held()
    {
      if orchestrator != null && to.gen == orchestrator.ctx.gen then orchestrator.Reaches(channel, to)
      else channel.to == to && !channel.frame.alive && (orchestrator != null ==> to.gen < orchestrator.ctx.gen)
    }

    ghost predicate TasksLinked(tasks: map<int, Sender>)
      reads `pendingTasks, `pendingEvents, `orchestrator, Frames(), Self(), Held()
    {
      && pendingTasks.Keys == tasks.Keys
      && forall id :: id in tasks ==> Linked(pendingTasks[id], tasks[id])
    }

    ghost predicate WaitersLinked(waiting: map<string, seq<Sender>>)
      reads `pendingTasks, `pendingEvents, `orchestrator, Frames(), Self(), Held()
    {
      && pendingEvents.Keys == waiting.Keys
      && (forall name :: name in waiting ==> |pendingEvents[name]| == |waiting[name]|)
      && (forall name, j: nat :: name in waiting && j < |waiting[name]| ==>
            Linked(pendingEvents[name][j], waiting[name][j]))
    }

    ghost predicate ThreadShows(t: Thread)
      reads `orchestrator, receivedEvents, Self(), if orchestrator == null then {} else orchestrator.Footprint()
    {
      if orchestrator == null then
        && t.status.Absent? && t.received == receivedEvents.queues
        && t.actionTx == [] && t.taskTx == [] && t.eventTx == []
      else
        && orchestrator.entered && orchestrator.ctx.mailbox == receivedEvents && orchestrator.ctx.env == env
        && (t.status.Blocked? || t.status.Returned?)
        && orchestrator.Represents(t)
    }

    /** The abstract state that this executor stands for. */
    ghost predicate Represents(s: State)
      reads this, Self(), Footprint(), Frames()
    {
      && sequenceNumber == s.sequenceNumber && pendingActions == s.pendingActions
      && TasksLinked(s.pendingTasks) && WaitersLinked(s.pendingEvents) && ThreadShows(s.thread)
      && (orchestrator == null ==> pendingTasks == map[] && pendingEvents == map[])
    }

    method NextSequenceNumber() returns (id: int)
      modifies this`sequenceNumber
      ensures id == sequenceNumber == old(sequenceNumber) + 1
    {
      sequenceNumber := sequenceNumber + 1;
      id := sequenceNumber;
    }

    method GetActions() returns (actions: set<Action>)
      ensures forall a :: a in actions <==> exists id :: id in pendingActions && pendingActions[id] == a
    {
      actions := set id | id in pendingActions :: pendingActions[id];
    }

    /** Nothing ever marks the executor complete, so this records the status and no more. */
    method SetComplete(status: CompletionStatus)
      modifies this`completionStatus
      ensures completionStatus == if isComplete then old(completionStatus) else Some(status)
    {
      if isComplete {
        return;
      }
      completionStatus := Some(status);
    }

    /** The executor owns no other channels than before, and nothing else but new objects. */
    twostate predicate Grown()
      reads `pendingTasks, `pendingEvents, `orchestrator, Self()
    {
      && Channels() <= old(Channels())
      && forall o :: o in Polled() && o !in old(Polled()) && o != receivedEvents ==> fresh(o)
    }

    /** The senders of the executor stay linked while the orchestrator keeps its handles. */
    twostate predicate LinksKept()
      reads this, Self(), Held(), Frames()
    {
      && orchestrator == old(orchestrator)
      && (orchestrator != null ==> orchestrator.Kept(old(orchestrator.handles)))
      && unchanged(this`pendingTasks) && unchanged(this`pendingEvents)
      && forall frame :: frame in Frames() && !old(frame.alive) ==> !frame.alive
    }

    /** Poll the future; the senders of the executor still reach what they reached. */
    method PollFuture(ghost s: State) returns (r: PollResult<Outcome>)
      requires Represents(s) && orchestrator != null
      modifies orchestrator.Footprint()
      ensures s.thread.status.Returned? ==> r == Faulted(PolledAfterReturn)
      ensures s.thread.status.Blocked? ==> orchestrator.entered && orchestrator.Ends(r, Resume(env, s.thread))
      ensures LinksKept()
      ensures fresh(orchestrator.Footprint() - old(orchestrator.Footprint()))
    {
      hide Resume, TasksLinked, WaitersLinked;
      r := orchestrator.Poll(s.thread);
    }

    method PollLinked(ghost s: State) returns (r: PollResult<Outcome>)
      requires Represents(s) && orchestrator != null
      modifies orchestrator.Footprint()
      ensures s.thread.status.Returned? ==> r == Faulted(PolledAfterReturn)
      ensures s.thread.status.Blocked? ==> orchestrator.entered && orchestrator.Ends(r, Resume(env, s.thread))
      ensures TasksLinked(s.pendingTasks) && WaitersLinked(s.pendingEvents)
      ensures fresh(orchestrator.Footprint() - old(orchestrator.Footprint()))
    {
      hide Resume, ThreadShows;
      r := PollFuture(s);
      forall id | id in s.pendingTasks ensures Linked(pendingTasks[id], s.pendingTasks[id]) {
        assert old(Linked(pendingTasks[id], s.pendingTasks[id]));
      }
      forall name, j: nat | name in s.pendingEvents && j < |s.pendingEvents[name]|
        ensures Linked(pendingEvents[name][j], s.pendingEvents[name][j])
      {
        assert old(Linked(pendingEvents[name][j], s.pendingEvents[name][j]));
      }
    }

    /** Insert an action under an id of the executor's own. */
    method Mint(kind: ActionKind, ghost s: State)
      requires Represents(s)
      modifies this`sequenceNumber, this`pendingActions
      ensures Represents(Replay.Mint(s, kind))
    {
      var id := NextSequenceNumber();
      pendingActions := pendingActions[id := Action(id, kind)];
    }

    lemma Presence(s: State)
      requires Represents(s)
      ensures orchestrator == null <==> s.thread.status.Absent?
      ensures orchestrator != null ==> s.thread.status.Blocked? || s.thread.status.Returned?
    {
    }

    lemma KnownTasks(s: State)
      requires Represents(s)
      ensures pendingTasks.Keys == s.pendingTasks.Keys && pendingEvents.Keys == s.pendingEvents.Keys
    {
    }

    /** Poll the orchestrator, whatever it answers. */
    method PollThread(ghost s: State) returns (r: PollResult<Outcome>)
      requires Represents(s) && orchestrator != null
      modifies Polled()
      ensures s.thread.status.Returned? ==> r == Faulted(PolledAfterReturn)
      ensures s.thread.status.Blocked? ==>
                var end := Resume(env, s.thread);
                && (r.Faulted? <==> end.status.Panicked?) && (r.Pending? <==> end.status.Blocked?)
                && (r.Ready? ==> end.status == Returned(r.value))
                && (!r.Faulted? ==> Represents(s.(thread := end)))
      ensures Grown()
    {
      hide Resume, TasksLinked, WaitersLinked;
      r := PollLinked(s);
    }

    /** Poll the orchestrator and record the completion of one that returns. */
    method Poll(ghost s: State) returns (ok: bool)
      requires Represents(s)
      modifies this`sequenceNumber, this`pendingActions, Polled()
      ensures isComplete ==> ok && Represents(s)
      ensures !isComplete ==> (ok <==> !Replay.Poll(env, s).thread.status.Panicked?)
      ensures !isComplete && ok ==> Represents(Replay.Poll(env, s))
      ensures Grown() && isComplete == old(isComplete)
    {
      hide Resume, Represents, TasksLinked, WaitersLinked, ThreadShows, Frames, Held, TaskChannels, EventChannels;
      if isComplete {
        return true;
      }
      Presence(s);
      if orchestrator == null {
        return false;
      }
      var r := PollThread(s);
      ok := !r.Faulted?;
      if r.Ready? {
        Mint(CompletionKind(r.value), s.(thread := Resume(env, s.thread)));
      }
    }

    /** The ExecutionCompleted branch: poll if there is an orchestrator, and ignore what it returns. */
    method PollQuietly(ghost s: State) returns (ok: bool)
      requires Represents(s)
      modifies Polled()
      ensures ok <==> !Replay.PollQuietly(env, s).thread.status.Panicked?
      ensures ok ==> Represents(Replay.PollQuietly(env, s))
      ensures Grown() && isComplete == old(isComplete)
    {
      hide Resume, Represents, TasksLinked, WaitersLinked, ThreadShows, Frames, Held, TaskChannels, EventChannels;
      Presence(s);
      ok := true;
      if orchestrator != null {
        var r := PollThread(s);
        ok := !r.Faulted?;
      }
    }

    method Terminate(ghost s: State)
      requires Represents(s)
      modifies this`completionStatus, this`sequenceNumber, this`pendingActions
      ensures Represents(Replay.Mint(s, Complete(Terminated, None)))
      ensures Grown() && isComplete == old(isComplete)
    {
      SetComplete(Terminated);
      Mint(Complete(Terminated, None), s);
    }

    /** A confirmation removes the action it names. */
    method Confirm(id: int, ghost s: State)
      requires Represents(s)
      modifies this`pendingActions
      ensures Represents(s.(pendingActions := s.pendingActions - {id}))
      ensures Grown() && isComplete == old(isComplete)
    {
      pendingActions := pendingActions - {id};
    }

    /** Send on a channel of the executor: the orchestrator's handle sees the payload, or the receiver is gone. */
    method SendOn(channel: OneShot, ghost to: Sender, payload: Option<string>, ghost s: State) returns (ok: bool)
      requires orchestrator != null && Represents(s) && Linked(channel, to)
      modifies channel
      ensures ok <==> !Send(s.thread, to, payload).status.Panicked?
      ensures ok ==> Represents(s.(thread := Send(s.thread, to, payload)))
    {
      assert ReceiverLives(s.thread, to) <==> channel.frame.alive && channel.slot == Empty;
      ok := channel.Send(payload);
    }

    method DropOn(channel: OneShot, ghost to: Sender, ghost s: State)
      requires orchestrator != null && Represents(s) && Linked(channel, to)
      modifies channel
      ensures Represents(s.(thread := DropSender(s.thread, to)))
    {
      channel.DropSender();
    }

    /** Take a task out of the pending ones. */
    method TakeTask(id: int, ghost s: State) returns (task: OneShot)
      requires Represents(s) && id in pendingTasks
      modifies this`pendingTasks
      ensures id in s.pendingTasks && orchestrator != null
      ensures task in old(TaskChannels()) && Linked(task, s.pendingTasks[id])
      ensures Represents(s.(pendingTasks := s.pendingTasks - {id}))
      ensures Channels() <= old(Channels()) && Polled() == old(Polled())
    {
      task := pendingTasks[id];
      pendingTasks := pendingTasks - {id};
    }

    /** Resolve a task: unblock it with the payload, or drop its sender if there is none. */
    method DeliverTo(id: int, payload: Option<string>, ghost s: State) returns (ok: bool)
      requires Represents(s)
      modifies this`pendingTasks, TaskChannels()
      ensures ok <==> !Deliver(s, id, payload).thread.status.Panicked?
      ensures ok ==> Represents(Deliver(s, id, payload))
      ensures Channels() <= old(Channels()) && Polled() == old(Polled())
    {
      hide Represents, ThreadShows, Linked, TasksLinked, WaitersLinked;
      KnownTasks(s);
      Presence(s);
      ok := true;
      if id in pendingTasks {
        var task := TakeTask(id, s);
        ghost var s1 := s.(pendingTasks := s.pendingTasks - {id});
        if payload.Some? {
          ok := SendOn(task, s.pendingTasks[id], payload, s1);
        } else {
          DropOn(task, s.pendingTasks[id], s1);
        }
      }
    }

    /** Take the oldest waiter for a name; an emptied queue is removed. */
    method TakeWaiter(name: string, ghost s: State) returns (task: OneShot)
      requires Represents(s) && name in pendingEvents && pendingEvents[name] != []
      modifies this`pendingEvents
      ensures name in s.pendingEvents && s.pendingEvents[name] != [] && orchestrator != null
      ensures task in old(EventChannels()) && Linked(task, s.pendingEvents[name][0])
      ensures Represents(s.(pendingEvents := PopQueue(s.pendingEvents, name)))
      ensures Channels() <= old(Channels()) && Polled() == old(Polled())
    {
      hide WaitersLinked, PopQueue;
      task := PopLinked(name, s.pendingEvents);
    }

    method PopLinked(name: string, ghost waiting: map<string, seq<Sender>>) returns (task: OneShot)
      requires WaitersLinked(waiting) && name in pendingEvents && pendingEvents[name] != []
      modifies this`pendingEvents
      ensures name in waiting && waiting[name] != []
      ensures task in old(EventChannels()) && Linked(task, waiting[name][0])
      ensures WaitersLinked(PopQueue(waiting, name))
      ensures EventChannels() <= old(EventChannels())
    {
      assert Linked(pendingEvents[name][0], waiting[name][0]);
      task := PopFront(name);
      ghost var left := PopQueue(waiting, name);
      forall other, j: nat | other in left && j < |left[other]|
        ensures Linked(pendingEvents[other][j], left[other][j])
      {
        var k := if other == name then j + 1 else j;
        assert old(Linked(pendingEvents[other][k], waiting[other][k]));
      }
    }

    method PopFront(name: string) returns (task: OneShot)
      requires name in pendingEvents && pendingEvents[name] != []
      modifies this`pendingEvents
      ensures task == old(pendingEvents[name][0]) && task in old(EventChannels())
      ensures pendingEvents == PopQueue(old(pendingEvents), name)
      ensures EventChannels() <= old(EventChannels())
    {
      var queue := pendingEvents[name];
      task := queue[0];
      if |queue| > 1 {
        pendingEvents := pendingEvents[name := queue[1..]];
      } else {
        pendingEvents := pendingEvents - {name};
      }
    }

    method Buffer(name: string, input: Option<string>, ghost s: State)
      requires Represents(s)
      modifies receivedEvents
      ensures Represents(s.(thread := s.thread.(received := PushQueue(s.thread.received, name, input))))
      ensures Grown()
    {
      var queue := if name in receivedEvents.queues then receivedEvents.queues[name] else [];
      receivedEvents.queues := receivedEvents.queues[name := queue + [input]];
    }

    lemma KnownWaiters(s: State, name: string)
      requires Represents(s)
      ensures name in pendingEvents <==> name in s.pendingEvents
      ensures name in pendingEvents ==> (pendingEvents[name] == [] <==> s.pendingEvents[name] == [])
    {
    }

    /** Hand an input to the oldest waiter for a name. */
    method Unblock(name: string, input: Option<string>, ghost s: State) returns (ok: bool)
      requires Represents(s) && name in pendingEvents && pendingEvents[name] != []
      modifies this`pendingEvents, EventChannels()
      ensures name in s.pendingEvents && s.pendingEvents[name] != []
      ensures var s' := s.(pendingEvents := PopQueue(s.pendingEvents, name),
                           thread := Send(s.thread, s.pendingEvents[name][0], input));
              (ok <==> !s'.thread.status.Panicked?) && (ok ==> Represents(s'))
      ensures Channels() <= old(Channels()) && Polled() == old(Polled())
    {
      hide Represents, ThreadShows, Linked, TasksLinked, WaitersLinked, ReceiverLives;
      var task := TakeWaiter(name, s);
      ok := SendOn(task, s.pendingEvents[name][0], input, s.(pendingEvents := PopQueue(s.pendingEvents, name)));
    }

    method UnblockAndPoll(name: string, input: Option<string>, ghost s: State) returns (ok: bool)
      requires Represents(s) && !isComplete && name in pendingEvents && pendingEvents[name] != []
      modifies Footprint()
      ensures name in s.pendingEvents && s.pendingEvents[name] != []
      ensures var s' := Replay.Poll(env, s.(pendingEvents := PopQueue(s.pendingEvents, name),
                                            thread := Send(s.thread, s.pendingEvents[name][0], input)));
              (ok <==> !s'.thread.status.Panicked?) && (ok ==> Represents(s'))
      ensures Grown() && !isComplete
    {
      hide Represents, ThreadShows, Linked, TasksLinked, WaitersLinked, Replay.Poll, Send, PopQueue;
      hide TaskChannels, EventChannels, Frames, Held, Polled, OrchestratorFuture.Footprint;
      ok := Unblock(name, input, s);
      ghost var s1 := s.(pendingEvents := PopQueue(s.pendingEvents, name),
                         thread := Send(s.thread, s.pendingEvents[name][0], input));
      if ok {
        ok := Poll(s1);
      } else {
        PanickedPoll(env, s1);
      }
    }

    /** EventRaised: unblock the oldest waiter and poll, or buffer the input. */
    method RaiseEvent(name: string, input: Option<string>, ghost s: State) returns (ok: bool)
      requires Represents(s) && !isComplete
      modifies Footprint()
      ensures ok <==> !Raise(env, s, name, input).thread.status.Panicked?
      ensures ok ==> Represents(Raise(env, s, name, input))
      ensures Grown() && !isComplete
    {
      hide Represents, ThreadShows, Linked, TasksLinked, WaitersLinked, Replay.Poll, Send, PopQueue;
      hide TaskChannels, EventChannels, Frames, Held, Polled, OrchestratorFuture.Footprint;
      KnownWaiters(s, name);
      Presence(s);
      if name !in pendingEvents {
        Buffer(name, input, s);
        ok := true;
      } else if pendingEvents[name] == [] {
        ok := false;
      } else {
        ok := UnblockAndPoll(name, input, s);
      }
    }

    method DeliverAndPoll(id: int, payload: Option<string>, ghost s: State) returns (ok: bool)
      requires Represents(s) && !isComplete
      modifies Footprint()
      ensures var s' := Replay.Poll(env, Deliver(s, id, payload));
              (ok <==> !s'.thread.status.Panicked?) && (ok ==> Represents(s'))
      ensures Grown() && !isComplete
    {
      hide Represents, ThreadShows, Linked, TasksLinked, WaitersLinked, Replay.Poll, Deliver;
      hide TaskChannels, EventChannels, Frames, Held, Polled, OrchestratorFuture.Footprint;
      ok := DeliverTo(id, payload, s);
      if ok {
        ok := Poll(Deliver(s, id, payload));
      } else {
        PanickedPoll(env, Deliver(s, id, payload));
      }
    }

    /** A started orchestrator takes the place of any earlier one, whose frame goes away. */
    method Install(future: OrchestratorFuture, ghost s: State, ghost t: Thread)
      requires Represents(s) && future != orchestrator
      requires future.entered && future.ctx.mailbox == receivedEvents && future.ctx.env == env
      requires future.Represents(t) && t.status.Blocked? && t.gen == s.thread.gen + 1
      requires orchestrator != null ==> orchestrator.ctx.frame != future.ctx.frame
      modifies this`orchestrator, if orchestrator == null then {} else {orchestrator.ctx.frame}
      ensures orchestrator == future && Represents(s.(thread := t))
    {
      if orchestrator != null {
        orchestrator.ctx.frame.alive := false;
      }
      orchestrator := future;
    }

    /** Nothing the executor owns has changed but the buffered events. */
    twostate predicate Untouched()
      reads this, Self(), Footprint(), Frames()
    {
      && unchanged(this)
      && (orchestrator != null ==>
            unchanged(orchestrator) && unchanged(orchestrator.ctx) && unchanged(orchestrator.ctx.frame)
            && forall h: nat :: h < |orchestrator.handles| ==>
                 unchanged(orchestrator.handles[h]) && unchanged(orchestrator.handles[h].unblock))
      && forall channel :: channel in Channels() ==> unchanged(channel.frame)
    }

    method NewFuture(body: Program, ghost gen: nat) returns (future: OrchestratorFuture)
      ensures future.ctx.mailbox == receivedEvents && future.ctx.env == env && !future.entered
      ensures fresh(future) && fresh(future.ctx.frame)
      ensures forall o :: o in future.Footprint() && o != receivedEvents ==> fresh(o)
      ensures future.Represents(Fresh(gen, body, receivedEvents.queues))
    {
      future := new OrchestratorFuture(env, body, receivedEvents, gen);
    }

    /**
     * Call an orchestrator and poll it once. It may consume buffered events, whether or not it is
     * kept, but touches nothing else of the executor.
     */
    method PollApart(body: Program, ghost gen: nat) returns (future: OrchestratorFuture, r: PollResult<Outcome>)
      modifies receivedEvents
      ensures future.ctx.mailbox == receivedEvents && future.ctx.env == env && future.entered
      ensures fresh(future) && fresh(future.ctx.frame)
      ensures forall o :: o in future.Footprint() && o != receivedEvents ==> fresh(o)
      ensures future.Ends(r, Launch(env, gen, body, old(receivedEvents.queues)))
      ensures Untouched()
    {
      hide Resume, Enter, OrchestratorFuture.Represents;
      future := NewFuture(body, gen);
      r := future.Poll(Fresh(gen, body, receivedEvents.queues));
    }

    method PollApartLinked(body: Program, ghost s: State) returns (future: OrchestratorFuture, r: PollResult<Outcome>)
      requires Represents(s)
      modifies receivedEvents
      ensures future.ctx.mailbox == receivedEvents && future.ctx.env == env && future.entered
      ensures fresh(future) && fresh(future.ctx.frame)
      ensures forall o :: o in future.Footprint() && o != receivedEvents ==> fresh(o)
      ensures future.Ends(r, Launch(env, s.thread.gen + 1, body, old(receivedEvents.queues)))
      ensures Untouched() && TasksLinked(s.pendingTasks) && WaitersLinked(s.pendingEvents)
    {
      hide Launch, ThreadShows, OrchestratorFuture.Represents;
      future, r := PollApart(body, s.thread.gen + 1);
      forall id | id in s.pendingTasks ensures Linked(pendingTasks[id], s.pendingTasks[id]) {
        assert old(Linked(pendingTasks[id], s.pendingTasks[id]));
        assert pendingTasks[id] in Channels();
      }
      forall name, j: nat | name in s.pendingEvents && j < |s.pendingEvents[name]|
        ensures Linked(pendingEvents[name][j], s.pendingEvents[name][j])
      {
        assert old(Linked(pendingEvents[name][j], s.pendingEvents[name][j]));
        assert pendingEvents[name][j] in Channels();
      }
    }

    method CallAndPoll(body: Program, ghost s: State) returns (future: OrchestratorFuture, r: PollResult<Outcome>)
      requires Represents(s)
      modifies receivedEvents
      ensures future.ctx.mailbox == receivedEvents && future.ctx.env == env && future.entered
      ensures fresh(future) && fresh(future.ctx.frame)
      ensures forall o :: o in future.Footprint() && o != receivedEvents ==> fresh(o)
      ensures future.Ends(r, Launch(env, s.thread.gen + 1, body, s.thread.received))
      ensures Represents(s.(thread := s.thread.(received := receivedEvents.queues)))
      ensures Untouched()
    {
      hide Launch, TasksLinked, WaitersLinked;
      future, r := PollApartLinked(body, s);
    }

    lemma LaunchEnds(future: OrchestratorFuture, r: PollResult<Outcome>, t: Thread)
      requires future.ctx.mailbox == receivedEvents && future.Ends(r, t)
      ensures r.Faulted? <==> t.status.Panicked?
      ensures r.Pending? ==> t.status.Blocked? && future.Represents(t)
      ensures r.Ready? ==> t.status.Returned?
      ensures !r.Faulted? ==> t.received == receivedEvents.queues
    {
    }

    /** An orchestrator that is ready at once is dropped, one that is pending is installed. */
    method StartBody(body: Program, ghost s: State) returns (ok: bool)
      requires Represents(s)
      modifies Footprint()
      ensures var t := Launch(env, s.thread.gen + 1, body, s.thread.received);
              && (ok <==> !t.status.Panicked?)
              && (t.status.Blocked? ==> Represents(s.(thread := t)))
              && (t.status.Returned? ==> Represents(s.(thread := s.thread.(received := t.received))))
      ensures Grown() && isComplete == old(isComplete)
    {
      hide Represents, Launch, Linked, TaskChannels, EventChannels, Frames;
      ghost var t := Launch(env, s.thread.gen + 1, body, s.thread.received);
      var future, r := CallAndPoll(body, s);
      LaunchEnds(future, r, t);
      ok := !r.Faulted?;
      if r.Pending? {
        LaunchRuns(env, s.thread.gen + 1, body, s.thread.received);
        Install(future, s.(thread := s.thread.(received := t.received)), t);
        assert s.(thread := s.thread.(received := t.received)).(thread := t) == s.(thread := t);
      }
    }

    /** ExecutionStarted. */
    method StartOrchestrator(name: string, input: Option<string>, ghost s: State) returns (ok: bool)
      requires Represents(s)
      modifies Footprint()
      ensures ok <==> !Replay.Start(env, s, name, input).thread.status.Panicked?
      ensures ok ==> Represents(Replay.Start(env, s, name, input))
      ensures Grown() && isComplete == old(isComplete)
    {
      hide Represents, Launch, Linked, TaskChannels, EventChannels, Frames, Footprint;
      Presence(s);
      ok := true;
      if name in env.registry {
        LaunchRuns(env, s.thread.gen + 1, env.registry[name](input), s.thread.received);
        ok := StartBody(env.registry[name](input), s);
      }
    }

    /** Empty the actions channel; the last positive id received becomes the executor's counter. */
    method ReceiveActions()
      requires orchestrator != null
      modifies this`sequenceNumber, this`pendingActions, orchestrator.ctx`actionsTx
      ensures pendingActions == DrainInto(old(pendingActions), old(orchestrator.ctx.actionsTx))
      ensures sequenceNumber == DrainCounter(old(sequenceNumber), old(orchestrator.ctx.actionsTx))
      ensures orchestrator.ctx.actionsTx == []
    {
      ghost var all := orchestrator.ctx.actionsTx;
      ghost var i := 0;
      assert all[..0] == [];
      while orchestrator.ctx.actionsTx != []
        invariant i <= |all| && orchestrator.ctx.actionsTx == all[i..]
        invariant pendingActions == DrainInto(old(pendingActions), all[..i])
        invariant sequenceNumber == DrainCounter(old(sequenceNumber), all[..i])
        decreases |all| - i
      {
        assert all[..i + 1][..i] == all[..i];
        var (id, action) := orchestrator.ctx.actionsTx[0];
        orchestrator.ctx.actionsTx := orchestrator.ctx.actionsTx[1..];
        pendingActions := pendingActions[id := action];
        if id > 0 {
          sequenceNumber := id;
        }
        i := i + 1;
      }
      assert all[..i] == all;
    }

    method ReceiveTasks()
      requires orchestrator != null
      modifies this`pendingTasks, orchestrator.ctx`tasksTx
      ensures pendingTasks == DrainInto(old(pendingTasks), old(orchestrator.ctx.tasksTx))
      ensures orchestrator.ctx.tasksTx == []
    {
      ghost var all := orchestrator.ctx.tasksTx;
      ghost var i := 0;
      assert all[..0] == [];
      while orchestrator.ctx.tasksTx != []
        invariant i <= |all| && orchestrator.ctx.tasksTx == all[i..]
        invariant pendingTasks == DrainInto(old(pendingTasks), all[..i])
        decreases |all| - i
      {
        assert all[..i + 1][..i] == all[..i];
        var (id, task) := orchestrator.ctx.tasksTx[0];
        orchestrator.ctx.tasksTx := orchestrator.ctx.tasksTx[1..];
        pendingTasks := pendingTasks[id := task];
        i := i + 1;
      }
      assert all[..i] == all;
    }

    method ReceiveWaiters()
      requires orchestrator != null
      modifies this`pendingEvents, orchestrator.ctx`eventsTx
      ensures pendingEvents == DrainEvents(old(pendingEvents), old(orchestrator.ctx.eventsTx))
      ensures orchestrator.ctx.eventsTx == []
    {
      ghost var all := orchestrator.ctx.eventsTx;
      ghost var i := 0;
      assert all[..0] == [];
      while orchestrator.ctx.eventsTx != []
        invariant i <= |all| && orchestrator.ctx.eventsTx == all[i..]
        invariant pendingEvents == DrainEvents(old(pendingEvents), all[..i])
        decreases |all| - i
      {
        assert all[..i + 1][..i] == all[..i];
        var (name, task) := orchestrator.ctx.eventsTx[0];
        orchestrator.ctx.eventsTx := orchestrator.ctx.eventsTx[1..];
        var queue := if name in pendingEvents then pendingEvents[name] else [];
        pendingEvents := pendingEvents[name := queue + [task]];
        i := i + 1;
      }
      assert all[..i] == all;
    }

    lemma {:induction false} DrainLinksTasks(m: map<int, OneShot>, q: seq<(int, OneShot)>,
                                             tasks: map<int, Sender>, sent: seq<(int, Sender)>)
      requires m.Keys == tasks.Keys && forall id :: id in m ==> Linked(m[id], tasks[id])
      requires |q| == |sent|
      requires forall j: nat :: j < |q| ==> q[j].0 == sent[j].0 && Linked(q[j].1, sent[j].1)
      ensures DrainInto(m, q).Keys == DrainInto(tasks, sent).Keys
      ensures forall id :: id in DrainInto(m, q) ==> Linked(DrainInto(m, q)[id], DrainInto(tasks, sent)[id])
    {
      hide Linked;
      if q != [] {
        DrainLinksTasks(m, q[..|q| - 1], tasks, sent[..|q| - 1]);
      }
    }

    lemma {:induction false} DrainLinksWaiters(m: map<string, seq<OneShot>>, q: seq<(string, OneShot)>,
                                               waiting: map<string, seq<Sender>>, sent: seq<(string, Sender)>)
      requires m.Keys == waiting.Keys
      requires forall name :: name in m ==> |m[name]| == |waiting[name]|
      requires forall name, j: nat :: name in m && j < |m[name]| ==> Linked(m[name][j], waiting[name][j])
      requires |q| == |sent|
      requires forall j: nat :: j < |q| ==> q[j].0 == sent[j].0 && Linked(q[j].1, sent[j].1)
      ensures var m', waiting' := DrainEvents(m, q), DrainEvents(waiting, sent);
              && m'.Keys == waiting'.Keys
              && (forall name :: name in m' ==> |m'[name]| == |waiting'[name]|)
              && (forall name, j: nat :: name in m' && j < |m'[name]| ==> Linked(m'[name][j], waiting'[name][j]))
    {
      hide Linked;
      if q != [] {
        DrainLinksWaiters(m, q[..|q| - 1], waiting, sent[..|q| - 1]);
      }
    }

    method DrainActions(ghost s: State)
      requires Represents(s) && orchestrator != null
      modifies this`sequenceNumber, this`pendingActions, orchestrator.ctx`actionsTx
      ensures Represents(s.(sequenceNumber := DrainCounter(s.sequenceNumber, s.thread.actionTx),
                            pendingActions := DrainInto(s.pendingActions, s.thread.actionTx),
                            thread := s.thread.(actionTx := [])))
    {
      hide DrainInto, DrainCounter;
      ReceiveActions();
    }

    method ReceiveLinkedTasks(ghost tasks: map<int, Sender>, ghost sent: seq<(int, Sender)>)
      requires orchestrator != null && TasksLinked(tasks) && |orchestrator.ctx.tasksTx| == |sent|
      requires forall j: nat :: j < |sent| ==>
                 && orchestrator.ctx.tasksTx[j].0 == sent[j].0
                 && orchestrator.Reaches(orchestrator.ctx.tasksTx[j].1, sent[j].1)
      modifies this`pendingTasks, orchestrator.ctx`tasksTx
      ensures TasksLinked(DrainInto(tasks, sent)) && orchestrator.ctx.tasksTx == []
      ensures Channels() <= old(Channels()) + old(Polled())
    {
      hide DrainInto;
      ghost var m, q := pendingTasks, orchestrator.ctx.tasksTx;
      ghost var drained := DrainInto(tasks, sent);
      DrainLinksTasks(m, q, tasks, sent);
      ReceiveTasks();
      forall id | id in drained
        ensures Linked(pendingTasks[id], drained[id])
        ensures pendingTasks[id] in old(Channels()) + old(Polled())
      {
        DrainedFrom(m, q, id);
        assert old(Linked(DrainInto(m, q)[id], drained[id]));
      }
    }

    method DrainTasks(ghost s: State)
      requires Represents(s) && orchestrator != null
      modifies this`pendingTasks, orchestrator.ctx`tasksTx
      ensures Represents(s.(pendingTasks := DrainInto(s.pendingTasks, s.thread.taskTx),
                            thread := s.thread.(taskTx := [])))
      ensures Channels() <= old(Channels()) + old(Polled())
    {
      hide DrainInto, TasksLinked;
      ReceiveLinkedTasks(s.pendingTasks, s.thread.taskTx);
    }

    method ReceiveLinkedWaiters(ghost waiting: map<string, seq<Sender>>, ghost sent: seq<(string, Sender)>)
      requires orchestrator != null && WaitersLinked(waiting) && |orchestrator.ctx.eventsTx| == |sent|
      requires forall j: nat :: j < |sent| ==>
                 && orchestrator.ctx.eventsTx[j].0 == sent[j].0
                 && orchestrator.Reaches(orchestrator.ctx.eventsTx[j].1, sent[j].1)
      modifies this`pendingEvents, orchestrator.ctx`eventsTx
      ensures WaitersLinked(Replay.DrainEvents(waiting, sent)) && orchestrator.ctx.eventsTx == []
      ensures Channels() <= old(Channels()) + old(Polled())
    {
      hide DrainEvents;
      ghost var m, q := pendingEvents, orchestrator.ctx.eventsTx;
      ghost var drained := Replay.DrainEvents(waiting, sent);
      DrainLinksWaiters(m, q, waiting, sent);
      ReceiveWaiters();
      forall name, j: nat | name in drained && j < |drained[name]|
        ensures Linked(pendingEvents[name][j], drained[name][j])
        ensures pendingEvents[name][j] in old(Channels()) + old(Polled())
      {
        DrainedEventFrom(m, q, name, j);
        assert old(Linked(Replay.DrainEvents(m, q)[name][j], drained[name][j]));
      }
    }

    method DrainWaiters(ghost s: State)
      requires Represents(s) && orchestrator != null
      modifies this`pendingEvents, orchestrator.ctx`eventsTx
      ensures Represents(s.(pendingEvents := Replay.DrainEvents(s.pendingEvents, s.thread.eventTx),
                            thread := s.thread.(eventTx := [])))
      ensures Channels() <= old(Channels()) + old(Polled())
    {
      hide DrainEvents, WaitersLinked;
      ReceiveLinkedWaiters(s.pendingEvents, s.thread.eventTx);
    }

    /** Everything owned now was owned before or is new. */
    twostate predicate Owned(before: set<object>)
      reads this, Self()
    {
      forall o :: o in Footprint() && o !in before ==> fresh(o)
    }

    /** Drain the three channels of the orchestrator, if there is one. */
    method DrainChannels(ghost s: State)
      requires Represents(s)
      modifies Footprint()
      ensures Represents(Drain(s)) && Owned(old(Footprint())) && isComplete == old(isComplete)
    {
      hide Represents, Linked, TaskChannels, EventChannels, Frames, DrainInto, DrainCounter, DrainEvents;
      Presence(s);
      if orchestrator == null {
        AbsentDrain(s);
        return;
      }
      DrainActions(s);
      ghost var s1 := s.(sequenceNumber := DrainCounter(s.sequenceNumber, s.thread.actionTx),
                         pendingActions := DrainInto(s.pendingActions, s.thread.actionTx),
                         thread := s.thread.(actionTx := []));
      DrainTasks(s1);
      ghost var s2 := s1.(pendingTasks := DrainInto(s.pendingTasks, s.thread.taskTx),
                          thread := s1.thread.(taskTx := []));
      DrainWaiters(s2);
    }

    lemma AbsentDrain(s: State)
      requires Represents(s) && orchestrator == null
      ensures Drain(s) == s
    {
    }

    /** A resolution that polls: the task it names is unblocked, then the orchestrator runs on. */
    method ProcessResolution(e: Event, ghost s: State) returns (ok: bool)
      requires Represents(s) && !isComplete && e.IsPollingResolution()
      modifies Footprint()
      ensures ok <==> !Replay.ProcessEvent(env, s, e).thread.status.Panicked?
      ensures ok ==> Represents(Replay.ProcessEvent(env, s, e))
      ensures Grown() && !isComplete
    {
      hide Represents, Linked, TaskChannels, EventChannels, Frames, Replay.Poll, Deliver, Footprint, Grown;
      match e {
        case TaskCompleted(id, result) =>
          ok := DeliverAndPoll(id, result, s);
        case SubOrchestrationInstanceCompleted(id, result) =>
          ok := DeliverAndPoll(id, result, s);
        case SubOrchestrationInstanceFailed(id, failure) =>
          ok := DeliverAndPoll(id, failure, s);
        case TimerFired(id, hasFireAt) =>
          ok := DeliverAndPoll(id, if hasFireAt then Some("") else None, s);
      }
    }

    /** One history event. */
    method ProcessEvent(e: Event, ghost s: State) returns (ok: bool)
      requires Represents(s) && !isComplete && !s.thread.status.Panicked?
      modifies Footprint()
      ensures ok <==> !Replay.ProcessEvent(env, s, e).thread.status.Panicked?
      ensures ok ==> Represents(Replay.ProcessEvent(env, s, e))
      ensures Grown() && !isComplete
    {
      hide Represents, Linked, TaskChannels, EventChannels, Frames, Replay.Poll, Deliver, Raise, Replay.Start;
      hide OrchestratorFuture.Footprint, OrchestratorFuture.Channels;
      ok := true;
      match e {
        case ExecutionStarted(name, input) =>
          ok := StartOrchestrator(name, input, s);
        case ExecutionCompleted =>
          ok := PollQuietly(s);
        case ExecutionTerminated =>
          Terminate(s);
        case TaskScheduled(id) =>
          Confirm(id, s);
        case SubOrchestrationInstanceCreated(id) =>
          Confirm(id, s);
        case TimerCreated(id) =>
          Confirm(id, s);
        case TaskFailed(id, failure) =>
          ok := DeliverTo(id, failure, s);
        case TaskCompleted(_, _) =>
          ok := ProcessResolution(e, s);
        case SubOrchestrationInstanceCompleted(_, _) =>
          ok := ProcessResolution(e, s);
        case SubOrchestrationInstanceFailed(_, _) =>
          ok := ProcessResolution(e, s);
        case TimerFired(_, _) =>
          ok := ProcessResolution(e, s);
        case EventRaised(name, input) =>
          ok := RaiseEvent(env.lower(name), input, s);
        case Inert =>
      }
    }
  }

  /** One execution: it rebuilds an orchestrator from its history and answers with the actions still pending. */
  class OrchestrationExecutorFuture {
    const env: Env
    const oldEvents: seq<Event>
    const newEvents: seq<Event>

    constructor (env: Env, oldEvents: seq<Event>, newEvents: seq<Event>)
      ensures this.env == env && this.oldEvents == oldEvents && this.newEvents == newEvents
    {
      this.env, this.oldEvents, this.newEvents := env, oldEvents, newEvents;
    }

    /** Process one event and drain the channels. */
    method Step(ctx: ExecutorContext, e: Event, ghost s: State) returns (ok: bool)
      requires ctx.Represents(s) && !ctx.isComplete && !s.thread.status.Panicked?
      modifies ctx.Footprint()
      ensures ok <==> !Replay.Step(ctx.env, s, e).thread.status.Panicked?
      ensures ok ==> ctx.Represents(Replay.Step(ctx.env, s, e))
      ensures ctx.Owned(old(ctx.Footprint())) && !ctx.isComplete
    {
      hide ExecutorContext.Represents, ProcessEvent, ExecutorContext.TaskChannels, ExecutorContext.EventChannels;
      hide OrchestratorFuture.Footprint, OrchestratorFuture.Channels;
      ok := ctx.ProcessEvent(e, s);
      if ok {
        ctx.DrainChannels(ProcessEvent(ctx.env, s, e));
      }
    }

    method ProcessEvents(ctx: ExecutorContext, events: seq<Event>, ghost s: State) returns (ok: bool)
      requires ctx.Represents(s) && !ctx.isComplete && !s.thread.status.Panicked?
      modifies ctx.Footprint()
      ensures ok <==> !RunFrom(ctx.env, s, events).thread.status.Panicked?
      ensures ok ==> ctx.Represents(RunFrom(ctx.env, s, events))
      ensures ctx.Owned(old(ctx.Footprint())) && !ctx.isComplete
    {
      hide ExecutorContext.Represents, ExecutorContext.Footprint, Replay.Step;
      ok := true;
      assert events[..0] == [];
      for i := 0 to |events|
        invariant ok && ctx.Represents(RunFrom(ctx.env, s, events[..i])) && !ctx.isComplete
        invariant !RunFrom(ctx.env, s, events[..i]).thread.status.Panicked?
        invariant ctx.Owned(old(ctx.Footprint()))
      {
        assert events[..i + 1][..i] == events[..i];
        ok := Step(ctx, events[i], RunFrom(ctx.env, s, events[..i]));
        if !ok {
          FaultedRun(ctx.env, s, events, i + 1);
          return;
        }
      }
      assert events[..|events|] == events;
    }

    /** Replay the old events, then the new ones, on an executor of its own. */
    method Execute() returns (ok: bool, actions: set<Action>)
      ensures ok <==> Replay.Execute(env, oldEvents, newEvents).Reply?
      ensures ok ==> Replay.Execute(env, oldEvents, newEvents) == Reply(actions)
      ensures ok ==> forall a :: a in actions <==>
                exists id :: id in Run(env, oldEvents + newEvents).pendingActions
                             && Run(env, oldEvents + newEvents).pendingActions[id] == a
    {
      hide ExecutorContext.Footprint, RunFrom, Run;
      AnswerExactly(env, oldEvents, newEvents);
      actions := {};
      var ctx := new ExecutorContext(env);
      ok := ProcessEvents(ctx, oldEvents, Init());
      if !ok {
        FaultedRunOn(env, RunFrom(env, Init(), oldEvents), newEvents);
        return;
      }
      ok := ProcessEvents(ctx, newEvents, RunFrom(env, Init(), oldEvents));
      if ok {
        actions := ctx.GetActions();
        assert actions == ValuesOf(ctx.pendingActions);
      }
    }
  }

  lemma {:induction false} FaultedRun(env: Env, s: State, events: seq<Event>, n: nat)
    requires n <= |events| && RunFrom(env, s, events[..n]).thread.status.Panicked?
    ensures RunFrom(env, s, events).thread.status.Panicked?
    decreases |events|
  {
    hide ProcessEvent, Drain;
    if n < |events| {
      assert events[..|events| - 1][..n] == events[..n];
      FaultedRun(env, s, events[..|events| - 1], n);
    } else {
      assert events[..n] == events;
    }
  }

  lemma FaultedRunOn(env: Env, s: State, events: seq<Event>)
    requires s.thread.status.Panicked?
    ensures RunFrom(env, s, events).thread.status.Panicked?
  {
    assert events[..0] == [];
    FaultedRun(env, s, events, 0);
  }

  /** What a drain files under an id was there before or came through the channel. */
  lemma {:induction false} DrainedFrom<V>(m: map<int, V>, q: seq<(int, V)>, id: int)
    requires id in DrainInto(m, q)
    ensures (id in m && DrainInto(m, q)[id] == m[id]) || exists j: nat :: j < |q| && q[j].1 == DrainInto(m, q)[id]
  {
    if q != [] && q[|q| - 1].0 != id {
      DrainedFrom(m, q[..|q| - 1], id);
    }
  }

  lemma {:induction false} DrainedEventFrom<V>(m: map<string, seq<V>>, q: seq<(string, V)>, name: string, j: nat)
    requires name in DrainEvents(m, q) && j < |DrainEvents(m, q)[name]|
    ensures (name in m && j < |m[name]| && DrainEvents(m, q)[name][j] == m[name][j])
         || exists k: nat :: k < |q| && q[k].1 == DrainEvents(m, q)[name][j]
  {
    if q != [] {
      var before := DrainEvents(m, q[..|q| - 1]);
      if name in before && j < |before[name]| {
        DrainedEventFrom(m, q[..|q| - 1], name, j);
      }
    }
  }

  lemma PanickedPoll(env: Env, s: State)
    requires s.thread.status.Panicked?
    ensures Poll(env, s) == s
  {
  }

  lemma {:induction false} CallsKeepRun(env: Env, t: Thread, ops: seq<Op>)
    requires t.status.Blocked?
    ensures var t' := DoOps(env, t, ops);
            t'.gen == t.gen && (t'.status.Blocked? || t'.status.Panicked?)
  {
    if ops != [] {
      CallsKeepRun(env, t, ops[..|ops| - 1]);
    }
  }

  lemma {:induction false} ResumeKeepsRun(env: Env, t: Thread)
    requires !t.status.Absent?
    ensures Resume(env, t).gen == t.gen && !Resume(env, t).status.Absent?
    decreases Tokens(t)
  {
    var tail := t.body(t.trace).tail;
    if t.status.Blocked? && tail.Await? && tail.handle < |t.slots|
       && t.slots[tail.handle].Sent? && t.slots[tail.handle].payload.Some? {
      var t1 := Consume(t, tail.handle, t.slots[tail.handle].payload.value);
      ConsumeTokens(env, t, tail.handle, t.slots[tail.handle].payload.value);
      CallsKeepRun(env, t1, t1.body(t1.trace).ops);
      ResumeKeepsRun(env, Enter(env, t1));
    }
  }

  lemma LaunchRuns(env: Env, gen: nat, body: Program, received: Mail)
    ensures Launch(env, gen, body, received).gen == gen && !Launch(env, gen, body, received).status.Absent?
  {
    var t := Fresh(gen, body, received);
    CallsKeepRun(env, t, t.body([]).ops);
    ResumeKeepsRun(env, Enter(env, t));
  }
}
