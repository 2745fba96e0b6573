/** One-shot channels and the future that a task handle is. */
module Tasks {
  import opened Types

  datatype PollResult<+T> = Ready(value: T) | Pending | Faulted(fault: Fault)

  /** The frame of a running orchestrator, in which the receiving ends of its handles live. */
  class Frame {
    var alive: bool

    constructor ()
      ensures alive
    {
      alive := true;
    }
  }

  /** A one-shot channel, seen from both ends. */
  class OneShot {
    var slot: Slot
    const frame: Frame
    ghost const to: Sender

    constructor (frame: Frame, ghost to: Sender)
      ensures slot == Empty && this.frame == frame && this.to == to
    {
      this.slot, this.frame, this.to := Empty, frame, to;
    }

    /** Sending fails when the receiver has been dropped. */
    method Send(payload: Option<string>) returns (ok: bool)
      modifies this
      ensures ok == (frame.alive && old(slot) == Empty)
      ensures slot == if ok then Sent(payload) else old(slot)
    {
      ok := frame.alive && slot == Empty;
      if ok {
        slot := Sent(payload);
      }
    }

    method DropSender()
      modifies this
      ensures slot == if old(slot) == Empty then SenderDropped else old(slot)
    {
      if slot == Empty {
        slot := SenderDropped;
      }
    }

    /** Poll the receiving end: a payload is handed over once; a dropped sender is reported as an error each time. */
    method Receive() returns (r: PollResult<Option<Option<string>>>)
      modifies this
      ensures slot == if old(slot).Sent? then Consumed else old(slot)
      ensures r == match old(slot)
                   case Empty => Pending
                   case Sent(payload) => Ready(Some(payload))
                   case SenderDropped => Ready(None)
                   case Consumed => Faulted(HandleReused)
    {
      match slot
      case Empty => r := Pending;
      case Sent(payload) => slot, r := Consumed, Ready(Some(payload));
      case SenderDropped => r := Ready(None);
      case Consumed => r := Faulted(HandleReused);
    }
  }

  /** A future that can be completed: directly, or through its one-shot channel. */
  class CompletableTask {
    var completed: bool
    var result: Option<string>
    const unblock: OneShot

    constructor (frame: Frame, ghost to: Sender)
      ensures fresh(unblock) && unblock.frame == frame && unblock.to == to
      ensures View() == Empty && !completed
    {
      completed, result := false, None;
      unblock := new OneShot(frame, to);
    }

    /** What an await on this handle would see. */
    ghost function View(): Slot
      reads this, unblock
    {
      if !completed then unblock.slot
      else if result.Some? then Sent(result) else Consumed
    }

    method Complete(value: string)
      modifies this
      ensures View() == Sent(Some(value))
    {
      result := Some(value);
      completed := true;
    }

    /** One poll: a payload is yielded once, and a dropped sender leaves the task pending for good. */
    method Poll() returns (r: PollResult<string>)
      modifies this, unblock
      ensures completed == old(completed)
      ensures View() == if old(View()).Sent? then Consumed else old(View())
      ensures r == match old(View())
                   case Empty => Pending
                   case SenderDropped => Pending
                   case Consumed => Faulted(HandleReused)
                   case Sent(None) => Faulted(MissingPayload)
                   case Sent(Some(value)) => Ready(value)
    {
      if completed {
        if result.None? {
          return Faulted(HandleReused);
        }
        r := Ready(result.value);
        result := None;
        return;
      }
      var received := unblock.Receive();
      match received
      case Pending => r := Pending;
      case Faulted(fault) => r := Faulted(fault);
      case Ready(None) => r := Pending;
      case Ready(Some(None)) => r := Faulted(MissingPayload);
      case Ready(Some(Some(value))) => r := Ready(value);
    }
  }
}
