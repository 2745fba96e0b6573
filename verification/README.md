# Durable task orchestrations: the replay engine

An orchestrator in this SDK is an async function that must survive restarts. It is never saved:
each time the server has news, the engine takes the whole history of events, calls the orchestrator
afresh, feeds it the events one at a time, and answers with the actions that the history does not
yet confirm. This project models that engine, `crates/sdk/src/executor.rs`, together with the
context an orchestrator calls (`types.rs`) and the one-shot futures it awaits (`task.rs`), and
proves what replay is for: that the orchestrator stands where its inputs carry it, that every call
is scheduled exactly once, that no event is lost or reordered, and that the order of deliveries
does not matter, with the exact condition under which it does when the orchestrator returns. `dafny verify dfyconfig.toml` checks everything.

## How it is built

The engine appears three times, and the layers are proved to agree.

* **The meaning** (`Meaning`) has no queues, channels, slots or polls. An orchestrator is a function
  from the payloads its awaits have yielded so far to its next burst of calls and the await or
  return that ends it (`Types.Program`). The function says what each await yields from two tables only:
  the first resolution of each task id and, for each event name, the list of raised inputs.
* **The specification of the engine** (`Orchestrator`, `Replay`) follows the code branch by branch on
  values: two counters, four maps, three channels, one-shot slots, polls and drains.
  `Replay.ProcessEvent` is `process_event`, `Replay.Drain` is the three `while let` loops,
  `Replay.Run` is a whole history and `Replay.Execute` one execution. Every `unwrap` and `expect`
  that can fail is a `Fault`, and a fault unwinds the execution.
* **The engine with mutable state** (`Tasks`, `Context`, `Engine`) has the classes of the source with the
  source's fields: `CompletableTask`, `OrchestratorContext`, `ExecutorContext`,
  `OrchestrationExecutorFuture`, with objects for one-shot channels and the loops over channels and
  events. Each method is proved against the specification by a predicate `Represents`;
  `Engine.OrchestrationExecutorFuture.Execute` is the top of that chain.

`Simulation` and `Boundaries` hold the invariant that every event boundary keeps and prove it for one
call, one poll, one drain and one event. `Refinement`, `Actions`, `Completions`, `Determinism`,
`Deliveries`, `Replies`, `Rounds`, `Invariants` and `Restarts` hold the results about whole histories, `Witnesses` and `Joins` concrete runs that
show both halves of the exact ones to be inhabited. Lemmas that only serve another proof have no row below.

## What is assumed

* *Ownership of handles* (`Meaning.Affine`, `Boundaries.WellOwned`). An orchestrator awaits only handles
  it has been given, and each at most once: in Rust an awaited handle has been moved.
* *Admissible histories* (`Boundaries.Admissible`). Raised events carry an input, and a registered
  orchestrator is started only when there is none and is still pending after its first poll. Both
  exclusions are studied on their own: `Refinement.RaiseWithoutInput` says exactly when an event
  without an input panics at once, `Completions.ReadyAtOnce` exactly when a start is dropped and what is left of it. Nothing
  else is excluded: resolutions may be unknown, early, duplicate or without a payload, and
  resolving, polling, terminating and completing events may come at any place.
  The results of `Invariants`, `Replay`, `Restarts` and the three class modules hold for all histories and all programs.
* *One-shot channels and receivers.* A oneshot receiver hands its payload over once, reports a dropped sender
  each time it is polled, and panics when polled after it has handed over its payload. Receivers live as
  long as the orchestrator that holds them is neither finished nor replaced. A delivered payload is seen by the next
  poll: tokio's budget for cooperative scheduling, by which a receiver may report nothing yet once a task has made very many
  operations in one poll, is taken not to run out.
* *The server* of `Rounds` is a stated assumption, `Rounds.HonestRound`: its batches hold no
  confirmation, and it confirms every scheduling action it is given.

## Where the code departs from what one would expect

The model follows the code.

* A completion can be lost. The executor files it under the next id of its own counter. If the returning poll has also
  issued actions, one of them has the same id, unless terminations had moved the counter further, and the drain writes over the completion
  (`Witnesses.CompletionLost`). Or a later termination gets that id, once the drain has set the counter back
  (`Witnesses.CompletionOverwritten`). `Completions.CompletionSurvivesExactly` is the exact condition.
* So the order of two results can decide whether the server learns of the completion, in an ordinary parallel workflow
  (`Joins.OrdersDiffer`). `Determinism.OrderOfReturns` says exactly when it does not.
* `is_complete` is never set, so events after a completion or termination are still processed;
  `Refinement.FaultsExactly` says exactly which of them panic.
* `TaskFailed` resolves its task but does not poll. `Determinism.PollCoalescing` says exactly when the
  next event makes up for it; `Witnesses.PollNotCoalesced` is a run in which it does not: a result is lost for good.
* An event raised without an input makes the execution panic, at once or later (`Joins.InputMissing`).
* A resolution without a payload drops the sender; the task counts as resolved and its await never yields
  (`Deliveries.HollowNeverYields`).
* An orchestrator that is ready at its first poll is dropped with everything it did, except that buffered events it
  took stay taken (`Completions.ReadyAtOnce`).
* A termination's action can be lost in two ways: a later scheduling takes its id, or, once a scheduling has set the
  executor's counter back, a later return files its completion under that id. `Witnesses.TerminationsLost` is a run that loses one
  termination in each way; `Completions.TerminationSurvivesExactly` is the exact condition.

## Model

| member | source | states |
|---|---|---|
| Refinement.ReplayRefinesMeaning | crates/sdk/src/executor.rs:147-386 | On every admissible history without a fault whose last resolution is not a TaskFailed, the orchestrator stands at the one trace on which its program settles given the first resolutions and the raised inputs; tasks, waiters, buffers, handles and numbering are those of the calls made up to there, and it has returned exactly if the program has |
| Refinement.ReplayRefinesHistory | crates/sdk/src/executor.rs:147-386 | When no task is resolved before its issue, the trace at which the orchestrator stands is the one on which its program settles given two tables read off the events alone: the first resolution of each id and the inputs raised for each name |
| Boundaries.StepAdvances | crates/sdk/src/executor.rs:147-386 | One event either fires an unwrap or expect, exactly in the listed situations, or keeps the boundary invariant, extends the run of the same orchestrator, and leaves in the actions channel the schedulings of exactly the ids it issued |
| Refinement.FaultsExactly | crates/sdk/src/executor.rs:142-144 | An unwrap or expect fires on an admissible history if and only if some event polls before the start, or polls or sends to a dropped receiver after the return; so every unblocked receiver lives, every popped queue is non-empty and nothing finished is polled otherwise |
| Refinement.RaiseWithoutInput | crates/sdk/src/executor.rs:314-328 | An event raised without an input panics at once if and only if the orchestrator stands at the oldest wait on its name |
| Refinement.EventBuffered | crates/sdk/src/executor.rs:329-339 | On every history an event whose name has no waiter is appended to the buffer of its name, with or without an input and whatever is buffered already, and changes nothing else |
| Refinement.EventHandedOver | crates/sdk/src/executor.rs:317-328 | On every history an event with a waiter whose receiver lives is handed to the oldest waiter, with or without an input, the others keep their order, and the orchestrator is polled |
| Refinement.MissingInputTaken | crates/sdk/src/executor.rs:317-328 | One with a waiter at which the orchestrator does not stand takes the oldest waiter, whose handle then shows that there is no input, and changes nothing else |
| Refinement.MissingInputLate | crates/sdk/src/executor.rs:317-328 | One with a waiter panics after the return, because the receiver is gone |
| Refinement.WaitTakesOldest | crates/sdk/src/types.rs:408-420 | A wait with anything buffered takes the oldest entry and leaves the others in order, and panics if and only if that entry has no input |
| Refinement.WaitRegisters | crates/sdk/src/types.rs:421-425 | A wait with nothing buffered registers a waiter and touches no buffer |
| Joins.InputMissing | crates/sdk/src/types.rs:408-424 | Concrete runs in which an event without an input panics at once, at the await of a wait already started, and at the wait that finds it buffered |
| Refinement.MailboxIsFifo | crates/sdk/src/executor.rs:314-340 | For every name the k-th wait is answered by the k-th raised input and no other; waits beyond the inputs are the pending waiters in order, inputs beyond the waits are the buffer in order |
| Refinement.HandlesConserved | crates/sdk/src/executor.rs:225-312 | At every boundary the ids issued are exactly those pending or resolved, and none is both |
| Refinement.FirstResolutionWins | crates/sdk/src/executor.rs:225-312 | An await on a task has yielded the result, the error message, or for a timer the empty text, of the first resolution of its id after its issue, of whatever type and whatever duplicates follow, and no task is awaited twice |
| Refinement.HeardFirst | crates/sdk/src/executor.rs:225-312 | A task counts as resolved if and only if some event resolves it after its issue, and then with what the first such event tells: its result or error message, the empty text for a timer, or nothing |
| Refinement.HeardRaised | crates/sdk/src/executor.rs:314-340 | The inputs the orchestrator has heard under a name are those of the EventRaised events for it, in order, whatever the case of their names |
| Refinement.SettledPoll | crates/sdk/src/task.rs:40-62 | Polling an orchestrator that its inputs carry no further changes nothing and leaves it at a handle that waits or whose sender was dropped |
| Refinement.AwaitedDiffer | crates/sdk/src/task.rs:40-62 | Two awaits of one run are on handles of different tasks or waits, so no finished handle is polled again |
| Meaning.MeaningMonotone | crates/sdk/src/executor.rs:147-349 | More inputs never change what has happened: a trace that follows fewer inputs is a prefix of the one on which the program settles with more |
| Meaning.MeaningUnique | crates/sdk/src/executor.rs:147-349 | A program settles on given inputs in at most one way |
| Meaning.RefsDistinct | crates/sdk/src/types.rs:274-278 | No two handles refer to the same task id or to the same place in a name's mailbox |
| Simulation.PollSettles | crates/sdk/src/executor.rs:104-141 | One poll carries the orchestrator from wherever it stands to exactly where the inputs heard leave it, consuming payloads and buffered events on the way, without a fault |
| Simulation.ShowsOp | crates/sdk/src/types.rs:292-429 | A call in the middle of a poll keeps numbering, channels, buffers and handles in step with the log of calls, undrained channels included |
| Boundaries.DeliverShows | crates/sdk/src/executor.rs:225-233 | A resolution makes exactly its own handle show its payload, or a dropped sender, and takes exactly its own task out of the pending ones; an unknown or duplicate one does nothing |
| Boundaries.ResolutionTells | crates/sdk/src/executor.rs:225-312 | What each of the five resolving events tells its task, with and without a payload |
| Boundaries.FailureShown | crates/sdk/src/executor.rs:239-251 | TaskFailed leaves its error message, or a dropped sender, at the handle of its task and changes nothing else |
| Deliveries.ResolutionYields | crates/sdk/src/executor.rs:225-312 | An orchestrator that stands at a pending task goes on with the text of the next resolution for it, of whatever type, at the latest when no delivery is left unpolled |
| Deliveries.ResolutionYieldsAtOnce | crates/sdk/src/executor.rs:225-312 | A resolution other than TaskFailed does so at once, without a fault |
| Deliveries.EventYields | crates/sdk/src/executor.rs:314-328 | An orchestrator that stands at the oldest wait on a name goes on with the next input raised for it |
| Deliveries.HollowNeverYields | crates/sdk/src/task.rs:46-60 | If the first resolution of an issued task has no payload, the task is no longer pending, its handle shows a dropped sender whatever follows, and no await ever yields anything for it |
| Boundaries.RaiseToWaiter | crates/sdk/src/executor.rs:317-328 | A raised event with a waiter reaches the oldest waiter, whose receiver lives and waits |
| Boundaries.RaiseToBuffer | crates/sdk/src/executor.rs:329-339 | A raised event without a waiter is buffered, is seen by no handle and leaves a settled orchestrator settled |
| Orchestrator.ConsumeTokens | crates/sdk/src/task.rs:40-62 | Each await passed in a poll uses up a delivered or buffered payload, calls included, so a poll of an endless workflow ends |
| Actions.ActionsReconcile | crates/sdk/src/executor.rs:217-259 | The scheduling actions pending are exactly the calls issued with no confirmation of their id at a later position, each under its own id with its own call; everything else pending is a completion under an id beyond every issued one |
| Actions.TwoCounters | crates/sdk/src/executor.rs:359-366 | The executor's counter is the number of calls issued plus the ids it minted since the last drained action, so it is never below a drained id; the context's counter is the number of tasks started |
| Actions.StepActions | crates/sdk/src/executor.rs:359-366 | One event changes the pending actions by what it confirms or mints, then by the schedulings of exactly the ids it issued; the counter follows the last of them |
| Completions.CompletionSurvivesExactly | crates/sdk/src/executor.rs:96-145 | On every admissible history without a fault, the completion that tells what the orchestrator returned is pending under an id if and only if no call has that id and a return, by an event other than ExecutionCompleted, filed it there and no later event confirmed the id or filed a termination over it; its status and result are those of the outcome |
| Completions.FilingExactly | crates/sdk/src/executor.rs:193-216 | The same for both kinds of completion the executor files under ids of its own: what was filed last under an id that no call has and nothing has confirmed since is what is pending there |
| Completions.CompletionExactly | crates/sdk/src/executor.rs:96-145 | In a history without terminations, after the return, a completion is pending if and only if the event of the return was no ExecutionCompleted and issued no action and nothing confirmed its id since; it is the only one, under the id after the issued ones, with the status and result of the outcome |
| Completions.NoCompletionYet | crates/sdk/src/executor.rs:96-145 | Without a termination, no completion is pending before the orchestrator returns, and the executor has minted no id |
| Witnesses.CompletionLost | crates/sdk/src/executor.rs:359-366 | A concrete execution in which the orchestrator returns and the answer holds two activities and no completion |
| Witnesses.CompletionOverwritten | crates/sdk/src/executor.rs:193-216 | A concrete run in which earlier terminations save the completion of a return that issues an action, and later ones are written over it |
| Completions.ReadyAtOnce | crates/sdk/src/executor.rs:160-184 | A started orchestrator is dropped if and only if the inputs raised so far carry it to a return; the only trace it leaves is that the buffered inputs its waits took are gone |
| Completions.ReturnedStays | crates/sdk/src/executor.rs:105-139 | An orchestrator that has returned keeps its outcome, position and numbering through every later event that does not fault |
| Completions.TerminationSurvives | crates/sdk/src/executor.rs:193-216 | The Terminated completion is filed under an id beyond every issued one and, while nothing confirms that id, stays through any events that issue no action |
| Completions.TerminationSurvivesExactly | crates/sdk/src/executor.rs:193-216 | On every admissible history without a fault, a Terminated completion is pending under an id if and only if no call has that id and some termination was filed under it which no later event confirmed and no later return wrote its own completion over |
| Witnesses.TerminationsLost | crates/sdk/src/executor.rs:359-366 | A concrete run that loses one termination to a scheduling with its id and another to the completion of a later return |
| Determinism.OrderIndependence | crates/sdk/src/executor.rs:225-312 | From any reachable blocked state, delivering resolutions for distinct outstanding tasks in any two orders gives the same state of the whole engine, if neither ends in TaskFailed and the orchestrator has not returned |
| Determinism.BatchesAgree | crates/sdk/src/executor.rs:225-312 | The same from any boundary with different events that answer the same tasks alike, whichever of them poll |
| Determinism.OrderOfReturns | crates/sdk/src/executor.rs:96-145 | Two orders of the same resolutions that end polled and do not panic leave the same orchestrator, tasks, waiters and schedulings; if it has returned, they leave the same completion and counter if and only if both last deliveries issue an action or neither does, and the ids under which the completions are filed are equal or both taken by calls, which goes without saying when no id was minted since the last drained action |
| Joins.OrdersDiffer | crates/sdk/src/executor.rs:299-312 | Two timers fired in either order, both without a panic: one order ends with a completion pending, the other with none |
| Determinism.PollCoalescing | crates/sdk/src/executor.rs:239-251 | Leaving out the poll after a resolution is made up for by the next event, whatever it is, if and only if the answer does not unblock the handle at which the orchestrator stands, or the next event polls even so (a resolution, an ExecutionCompleted, or an EventRaised that already has a waiter) and is no resolution of a task that only the omitted poll would have issued |
| Witnesses.PollNotCoalesced | crates/sdk/src/executor.rs:239-251 | A concrete run in which the omitted poll is not made up for: the next result comes before its task is issued, and the orchestrator is left waiting for that task, while in the other order it has gone on |
| Determinism.IdleEventsStutter | crates/sdk/src/executor.rs:217-312 | With nothing left unpolled and the orchestrator blocked, an unknown or duplicate resolution changes nothing, and a confirmation only removes its action |
| Determinism.LogIsPrefixStable | crates/sdk/src/executor.rs:351-386 | The calls issued and the trace followed on a history are prefixes of those on any extension of it |
| Determinism.ThreadDetermined | crates/sdk/src/executor.rs:147-386 | Two boundaries with the same program, position and inputs have the same orchestrator, down to handles and buffers |
| Replay.SplitIndependence | crates/sdk/src/executor.rs:392-405 | The answer of an execution depends on the old and new events only through their concatenation |
| Replay.AnswerExactly | crates/sdk/src/executor.rs:392-405 | On every history an execution panics exactly when the run does, and otherwise answers an action if and only if the run has left it pending under some id |
| Replies.AnswersExactly | crates/sdk/src/executor.rs:392-405 | On every admissible history an execution panics if and only if it faults; otherwise it answers exactly the schedulings of issued calls not confirmed since, the completion that tells the outcome if it is filed and not displaced, and the terminations that are filed and not displaced |
| Restarts.SecondStart | crates/sdk/src/executor.rs:160-184 | On every history a start of a registered orchestrator calls it afresh with the buffered events and puts it in the place of whatever was there if it is blocked, keeps the earlier one if it returned, and panics if it panicked |
| Restarts.ReplacedTask | crates/sdk/src/executor.rs:225-251 | A resolution with a text for a task of a replaced orchestrator panics |
| Restarts.ReplacedWaiter | crates/sdk/src/executor.rs:317-328 | So does an event for a waiter of a replaced orchestrator |
| Rounds.ScheduledExactlyOnce | crates/sdk/src/worker.rs:129-167 | Over any number of rounds that do not fault, terminated and finished orchestrators included, the ids under which schedulings are returned are exactly the issued ones, and each is returned in one round only |
| Rounds.RoundReturns | crates/sdk/src/worker.rs:153-165 | The schedulings a round answers are exactly those, with their calls, of the ids that its own batch made the orchestrator issue |
| Rounds.NothingElseReturned | crates/sdk/src/worker.rs:153-165 | Before the return, and without a termination, a round answers nothing but schedulings |
| Rounds.NeverReturnedTwice | crates/sdk/src/executor.rs:217-224 | No id is returned as a scheduling in two rounds, whatever is terminated and returned meanwhile |
| Rounds.ScratchEqualsMemory | crates/sdk/src/executor.rs:392-405 | Replay from scratch answers every round as an executor kept in memory would |
| Rounds.ConfirmationsRemove | crates/sdk/src/executor.rs:217-224 | A run of confirmations removes exactly the actions it names and touches nothing else |
| Invariants.AlwaysSound | crates/sdk/src/executor.rs:314-384 | On every history whatever, starts included, no name has both a waiter and a buffered event, every queue is non-empty, and every action is filed under its own id |
| Invariants.CallKeepsSound | crates/sdk/src/types.rs:400-429 | The same in the middle of a poll, with waiters still in the channel counted as pending |
| Invariants.ResumeKeepsSound | crates/sdk/src/types.rs:400-429 | The same over all the calls of one poll |
| Invariants.ReturnedIdsDistinct | crates/sdk/src/executor.rs:73-79 | On every history whatever, the returned actions have pairwise distinct ids |
| Invariants.CounterAdopts | crates/sdk/src/executor.rs:360-366 | A drain sets the executor's counter to the last positive id that came through the channel, and leaves it alone if none did |
| Invariants.HandleYieldsOnce | crates/sdk/src/task.rs:46-51 | Whatever the program, an await on a handle that has yielded already panics |
| Tasks.OneShot.Send | crates/sdk/src/executor.rs:229-233 | Sending succeeds exactly while the receiver lives and waits, and then the receiver sees the payload |
| Tasks.OneShot.Receive | crates/sdk/src/task.rs:46-60 | A payload is handed over once, a dropped sender is reported each time, and polling after the payload faults |
| Tasks.CompletableTask.constructor | crates/sdk/src/task.rs:17-27 | A new task waits on its own channel |
| Tasks.CompletableTask.Complete | crates/sdk/src/task.rs:29-32 | A completed task shows its result, whatever its channel holds |
| Tasks.CompletableTask.Poll | crates/sdk/src/task.rs:40-62 | A poll yields a payload once, stays pending on a dropped sender, and faults on a missing payload or a used handle |
| Context.OrchestratorContext.constructor | crates/sdk/src/types.rs:245-272 | A new context starts its own numbering at 0 with three empty channels and the shared buffer |
| Context.OrchestratorContext.CreateTimer | crates/sdk/src/types.rs:292-302 | Takes the next id, sends the action and the sending end under it, and returns the waiting handle |
| Context.OrchestratorContext.ScheduleActivity | crates/sdk/src/types.rs:334-343 | The same for an activity with its name and input |
| Context.OrchestratorContext.ScheduleSubOrchestrator | crates/sdk/src/types.rs:379-398 | The same for a sub-orchestration with its name, instance and input |
| Context.OrchestratorContext.AwaitSignalEvent | crates/sdk/src/types.rs:400-429 | Takes the oldest buffered input of the folded name and completes the handle with it, removing an emptied queue, or registers a waiter; faults exactly on a missing entry or input |
| Context.OrchestratorFuture.Poll | crates/sdk/src/executor.rs:104-141 | A poll runs the orchestrator to its first unresolved await, to its end or to a fault, as the specification says; a finished one faults |
| Context.OrchestratorFuture.Run | crates/sdk/src/executor.rs:104-141 | The loop over awaits ends where the recursive specification of a poll ends |
| Context.OrchestratorFuture.MakeCalls | crates/sdk/src/types.rs:292-429 | The loop over the calls of a burst does what they specify one after the other, up to one that faults |
| Engine.ExecutorContext.constructor | crates/sdk/src/executor.rs:64-68 | A new executor context is the initial state |
| Engine.ExecutorContext.GetActions | crates/sdk/src/executor.rs:73-79 | An action is answered if and only if it is pending under some id |
| Engine.ExecutorContext.Poll | crates/sdk/src/executor.rs:96-145 | Polls the orchestrator as specified, filing the completion of one that returns; fails without an orchestrator or after the return |
| Engine.ExecutorContext.PollQuietly | crates/sdk/src/executor.rs:185-192 | ExecutionCompleted polls an orchestrator if there is one and ignores what it returns |
| Engine.ExecutorContext.Terminate | crates/sdk/src/executor.rs:193-216 | ExecutionTerminated files a Terminated completion under the next id of the executor |
| Engine.ExecutorContext.DeliverTo | crates/sdk/src/executor.rs:239-251 | Takes the task out of the map and sends the payload to its handle, or drops its sender; fails exactly if the receiver is gone |
| Engine.ExecutorContext.TakeWaiter | crates/sdk/src/executor.rs:317-326 | Pops the oldest waiter and removes an emptied queue |
| Engine.ExecutorContext.RaiseEvent | crates/sdk/src/executor.rs:314-340 | Unblocks and polls the oldest waiter, or buffers the input, as specified |
| Engine.ExecutorContext.StartOrchestrator | crates/sdk/src/executor.rs:160-184 | Calls and polls a registered orchestrator, keeps a pending one in the place of any earlier one, drops a ready one, and ignores an unknown name |
| Engine.ExecutorContext.ProcessResolution | crates/sdk/src/executor.rs:225-312 | The four resolving events that poll deliver their own payload and then poll |
| Engine.ExecutorContext.ProcessEvent | crates/sdk/src/executor.rs:147-349 | One event changes the mutable state as the specification says, and panics exactly when it does |
| Engine.ExecutorContext.ReceiveActions | crates/sdk/src/executor.rs:359-367 | The loop empties the channel into the map in order; the counter becomes the last positive id |
| Engine.ExecutorContext.ReceiveTasks | crates/sdk/src/executor.rs:368-372 | The loop files the sending ends under their ids |
| Engine.ExecutorContext.ReceiveWaiters | crates/sdk/src/executor.rs:373-384 | The loop appends the waiters to the queues of their names |
| Engine.ExecutorContext.DrainChannels | crates/sdk/src/executor.rs:359-384 | The three loops together are the specified drain, and every sender still reaches the handle it is for |
| Engine.OrchestrationExecutorFuture.ProcessEvents | crates/sdk/src/executor.rs:351-386 | The loop over events, with a drain after each, is the specified run; it stops at a panic |
| Engine.OrchestrationExecutorFuture.Execute | crates/sdk/src/executor.rs:392-405 | One execution on a fresh context answers as specified: it panics exactly when the specification does, and otherwise returns exactly the specified set of actions |

## Left out

- The width of ids: the source counts in `i32`, the model in unbounded integers, so overflow after 2^31 calls is not captured.
- Independent branches: an orchestrator has one thread of control, which covers sequential workflows and `join!` of plain
  calls (`examples/src/parallel.rs:65-79`), whose handles are awaited in order; `select!`, handles dropped before the return,
  branches that issue further calls on their own, and futures from outside the SDK are not covered.
- `continue_as_new` (`crates/sdk/src/types.rs:431-437`) yields a future that never resolves; the `ContinueAsNew` outcome is covered.
- Wakers, threads and locks: an execution runs in one poll, so the locks are plain fields and the channels sequences.
- JSON conversion of payloads and its `expect`s, activity names taken from type names, and the UTF-8 check of an output: payloads are opaque strings.
- Wall-clock time: `fire_at` of a timer action, `current_time_utc`, the replaying flag and tracing.
- Letter case: `to_lowercase` is an unknown function, applied once on each side.
- Events whose branches do nothing to the modelled state (OrchestratorStarted, suspend and resume, EventSent, GenericEvent,
  HistoryState, ContinueAsNew, OrchestratorCompleted, an absent event type) are one event, `Inert`.
- The order of returned actions: the source lists the values of a hash map, the model returns a set.
- Which panic: the class methods report success or failure and the specification names the fault; panic messages are left out.
- Refinement.RaiseWithoutInput: does not cover what becomes of an event without an input that does not panic at once; buffered, it
  panics at the next wait on its name (`crates/sdk/src/types.rs:420`), and handed to a waiter not yet awaited, at its await
  (`crates/sdk/src/task.rs:51`). `Refinement.EventBuffered`, `MissingInputTaken` and `WaitTakesOldest` give the steps and
  `Joins.InputMissing` whole runs; the results about admissible histories do not go on from there. Nor does it cover `join!` of several waits, which polls every
  unfinished branch, so that an event without an input for a later one panics at once.
- The completion status the executor records (`crates/sdk/src/executor.rs:80-85`): the source never reads it.
- Determinism.OrderIndependence: does not cover batches after which the orchestrator has returned, because their orders can differ; `Determinism.OrderOfReturns` says when, for orders that do not panic, and `Refinement.FaultsExactly` which do.
- The gRPC client and worker stream, activity execution, registry and environment, client API and instance summaries.
