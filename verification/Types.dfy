/** The vocabulary of the replay engine: calls, programs, actions, history events. */
module Types {

  datatype Option<+T> = None | Some(value: T)

  /** What a scheduling action asks the server to start; a timer's wall-clock deadline is left out. */
  datatype Call =
    | Timer
    | Activity(name: string, input: Option<string>)
    | SubOrchestration(name: string, instanceId: string, input: Option<string>)

  /** A call an orchestrator makes on its context. Each returns a handle, numbered 0, 1, 2, ... in call order. */
  datatype Op =
    | StartTask(call: Call)
    | StartSignal(name: string)

  datatype Outcome = Output(value: string) | ContinueAsNew | Error

  /** Where a burst of calls ends: waiting for one handle, or returning. */
  datatype Tail = Await(handle: nat) | Return(outcome: Outcome)

  datatype Burst = Burst(ops: seq<Op>, tail: Tail)

  /**
   * A deterministic orchestrator with one thread of control: from the payloads its awaits have
   * yielded so far to the calls it makes next. Such a function may describe an endless workflow.
   */
  type Program = seq<string> -> Burst

  datatype CompletionStatus = Completed | Failed | ContinuedAsNew | Terminated

  datatype ActionKind =
    | Schedule(call: Call)
    | Complete(status: CompletionStatus, result: Option<string>)

  datatype Action = Action(id: int, kind: ActionKind)

  /** History events. `Inert` stands for every event type whose branch does nothing to the modelled state. */
  datatype Event =
    | ExecutionStarted(name: string, input: Option<string>)
    | ExecutionCompleted
    | ExecutionTerminated
    | TaskScheduled(eventId: int)
    | TaskCompleted(taskId: int, result: Option<string>)
    | TaskFailed(taskId: int, failure: Option<string>)
    | SubOrchestrationInstanceCreated(eventId: int)
    | SubOrchestrationInstanceCompleted(taskId: int, result: Option<string>)
    | SubOrchestrationInstanceFailed(taskId: int, failure: Option<string>)
    | TimerCreated(eventId: int)
    | TimerFired(taskId: int, hasFireAt: bool)
    | EventRaised(name: string, input: Option<string>)
    | Inert
  {
    predicate IsResolution() {
      TaskCompleted? || TaskFailed? || SubOrchestrationInstanceCompleted?
      || SubOrchestrationInstanceFailed? || TimerFired?
    }

    predicate Resolves(id: int) {
      IsResolution() && taskId == id
    }

    /** The payload a resolution carries to the waiting task; a fired timer yields the empty string. */
    function Payload(): Option<string>
      requires IsResolution()
    {
      match this
      case TaskCompleted(_, r) => r
      case TaskFailed(_, r) => r
      case SubOrchestrationInstanceCompleted(_, r) => r
      case SubOrchestrationInstanceFailed(_, r) => r
      case TimerFired(_, armed) => if armed then Some("") else None
    }

    /** A resolution other than TaskFailed polls the orchestrator after delivering. */
    predicate IsPollingResolution() {
      IsResolution() && !TaskFailed?
    }

    predicate IsConfirmation() {
      TaskScheduled? || SubOrchestrationInstanceCreated? || TimerCreated?
    }

    predicate Confirms(id: int) {
      IsConfirmation() && eventId == id
    }
  }

  /** Case folding of event names, and the registered orchestrators. */
  datatype Env = Env(lower: string -> string, registry: map<string, Option<string> -> Program>)

  /** One end of a one-shot channel: which orchestrator start it belongs to, and which handle. */
  datatype Sender = Sender(gen: nat, slot: nat)

  /** What the receiving end of a handle would see. */
  datatype Slot =
    | Empty
    | Sent(payload: Option<string>)
    | SenderDropped
    | Consumed

  /** Every unwrap and expect of the engine that can fail. */
  datatype Fault =
    | PolledWithoutFuture
    | PolledAfterReturn
    | ReceiverGone
    | MissingPayload
    | HandleReused

  datatype Status = Absent | Blocked | Returned(outcome: Outcome) | Panicked(fault: Fault)
}
