/**
 Who gives a reserved discovery page back when a discovery delivery does not succeed
 (backend/app/collectors/jobs.py, discover_job and the reservation handling of its implementation).
 */
module DiscoverJob {
  // An awaited step finishes, raises an error, or is cancelled; handlers catch errors only.
  datatype Fault = Fine | Raises | Cancels

  datatype Point =
    | Reserve | StartJob | DuplicateRollback | DuplicateCommit | StartCommit | Provider
    | ProviderRollback | FailureLedger | Collecting | OuterRollback | OuterLedger

  // How a delivery, or the implementation inside it, ends.
  datatype End = Succeeded | Duplicate | Failed | Cancelled

  // `moved`: the page counter had moved on when the reservation was interrupted, if it was.
  datatype Delivery = Delivery(hasJob: bool, jobFinished: bool, moved: bool, fault: Point -> Fault)

  // A page was taken from the counter.
  predicate Taken(d: Delivery) {
    d.fault(Reserve).Fine? || d.moved
  }

  // A page was taken, but the reservation was interrupted before it returned, so no handler knows the page.
  predicate UnseenReservation(d: Delivery) {
    !d.fault(Reserve).Fine? && d.moved
  }

  function Interrupted(f: Fault): End
    requires f != Fine
  {
    if f.Raises? then Failed else Cancelled
  }

  // The implementation was cancelled before it had begun to give its page back.
  predicate CancelledWhileReserved(d: Delivery) {
    && d.fault(Reserve).Fine?
    && var early := d.hasJob && !d.fault(StartJob).Fine?;
       var repeated := d.hasJob && !early && d.jobFinished;
       var late := d.hasJob && !early && !repeated && !d.fault(StartCommit).Fine?;
       if early then d.fault(StartJob).Cancels?
       else if repeated then false
       else if late then d.fault(StartCommit).Cancels?
       else d.fault(Provider).Cancels? || (d.fault(Provider).Fine? && d.fault(Collecting).Cancels?)
  }

  // How a delivery ends, whether it reserved a page, and how often it tried to give the page back.
  datatype Delivered = Delivered(end: End, reserved: bool, rollbacks: nat)

  // The steps of a delivery that reserved its page and is no duplicate, up to the provider's answer.
  function ProviderFailed(d: Delivery): End {
    if d.fault(ProviderRollback).Cancels? then Cancelled
    else if d.hasJob && d.fault(FailureLedger).Raises? then Failed
    else if d.hasJob && d.fault(FailureLedger).Cancels? then Cancelled
    else Failed
  }

  // An error outside the provider call: the wrapper gives the page back and writes the ledger.
  function Wrapped(d: Delivery, f: Fault): Delivered
    requires f != Fine
  {
    if f.Cancels? then Delivered(Cancelled, true, 0)
    else if d.fault(OuterRollback).Cancels? || (d.hasJob && d.fault(OuterLedger).Cancels?) then Delivered(Cancelled, true, 1)
    else Delivered(Failed, true, 1)
  }

  function DuplicateAnswered(d: Delivery): End {
    if d.fault(DuplicateRollback) != Fine then Interrupted(d.fault(DuplicateRollback))
    else if d.fault(DuplicateCommit) != Fine then Interrupted(d.fault(DuplicateCommit))
    else Duplicate
  }

  // The outcome of a delivery, fault by fault.
  function Outcome(d: Delivery): Delivered {
    if d.fault(Reserve) != Fine then Delivered(Interrupted(d.fault(Reserve)), false, 0)
    else if d.hasJob && d.fault(StartJob) != Fine then Wrapped(d, d.fault(StartJob))
    else if d.hasJob && d.jobFinished then Delivered(DuplicateAnswered(d), true, 1)
    else if d.hasJob && d.fault(StartCommit) != Fine then Wrapped(d, d.fault(StartCommit))
    else if d.fault(Provider).Cancels? then Delivered(Cancelled, true, 0)
    else if d.fault(Provider).Raises? then Delivered(ProviderFailed(d), true, 1)
    else if d.fault(Collecting) != Fine then Wrapped(d, d.fault(Collecting))
    else Delivered(Succeeded, true, 0)
  }

  /**
   A page that was taken is kept without any attempt to give it back exactly if the delivery succeeds, is
   cancelled before it has begun to, or never learned which page it took; otherwise there is exactly one
   attempt.
   */
  lemma PageIsKeptIff(d: Delivery)
    ensures var r := Outcome(d);
      && r.rollbacks <= 1 && (r.rollbacks == 1 ==> Taken(d))
      && (Taken(d) && r.rollbacks == 0 <==> r.end.Succeeded? || CancelledWhileReserved(d) || UnseenReservation(d))
      && (CancelledWhileReserved(d) ==> r.end.Cancelled?)
  {
  }

  /** How it ends: it succeeds exactly if no step it takes is disturbed, and answers as a duplicate exactly for a finished job. */
  lemma DeliveryEndsIff(d: Delivery)
    ensures var end := Outcome(d).end;
      && (end.Succeeded? <==>
            && d.fault(Reserve).Fine? && d.fault(Provider).Fine? && d.fault(Collecting).Fine?
            && (d.hasJob ==> d.fault(StartJob).Fine? && !d.jobFinished && d.fault(StartCommit).Fine?))
      && (end.Duplicate? <==>
            && d.fault(Reserve).Fine? && d.hasJob && d.fault(StartJob).Fine? && d.jobFinished
            && d.fault(DuplicateRollback).Fine? && d.fault(DuplicateCommit).Fine?)
      && ((forall p :: !d.fault(p).Cancels?) ==> !end.Cancelled?)
      && (end.Cancelled? || end.Failed? ==> exists p :: !d.fault(p).Fine?)
  {
  }

  /** For one: the reservation raises after the counter moved; the delivery fails and the page is skipped. */
  lemma UnseenReservationKeepsPage(d: Delivery)
    requires d.fault(Reserve).Raises? && d.moved
    ensures Taken(d) && Outcome(d) == Delivered(Failed, false, 0)
  {
  }

  /** For one: the provider call is cancelled, and the delivery ends with its page reserved and not given back. */
  lemma CancelledProviderCallKeepsPage(d: Delivery)
    requires d.fault(Reserve).Fine? && d.fault(StartJob).Fine? && d.fault(StartCommit).Fine? && !d.jobFinished
    requires d.fault(Provider).Cancels?
    ensures Outcome(d) == Delivered(Cancelled, true, 0)
  {
  }

  /** The implementation: `raised` tells an error that leaves it from one it turned into a result. */
  method DiscoverImpl(d: Delivery) returns (end: End, raised: bool, reserved: bool, handled: bool, rollbacks: nat)
    ensures reserved == d.fault(Reserve).Fine?
    ensures rollbacks == (if handled then 1 else 0) && (handled ==> reserved)
    ensures end.Succeeded? ==> reserved && !handled
    ensures end.Duplicate? || (end.Failed? && !raised) ==> handled
    ensures end.Cancelled? && !handled && reserved <==> CancelledWhileReserved(d)
    ensures !(raised && end.Failed? && reserved && !handled) ==> Delivered(end, reserved, rollbacks) == Outcome(d)
    ensures raised && end.Failed? && reserved && !handled ==> Outcome(d) == Wrapped(d, Raises)
  {
    raised, reserved, handled, rollbacks := true, false, false, 0;
    if d.fault(Reserve) != Fine {
      return Interrupted(d.fault(Reserve)), raised, reserved, handled, rollbacks;
    }
    reserved := true;
    if d.hasJob {
      if d.fault(StartJob) != Fine {
        return Interrupted(d.fault(StartJob)), raised, reserved, handled, rollbacks;
      }
      if d.jobFinished {
        handled, rollbacks := true, rollbacks + 1;
        if d.fault(DuplicateRollback) != Fine {
          return Interrupted(d.fault(DuplicateRollback)), raised, reserved, handled, rollbacks;
        }
        if d.fault(DuplicateCommit) != Fine {
          return Interrupted(d.fault(DuplicateCommit)), raised, reserved, handled, rollbacks;
        }
        return Duplicate, false, reserved, handled, rollbacks;
      }
      if d.fault(StartCommit) != Fine {
        return Interrupted(d.fault(StartCommit)), raised, reserved, handled, rollbacks;
      }
    }
    if d.fault(Provider) == Cancels {
      return Cancelled, raised, reserved, handled, rollbacks;
    }
    if d.fault(Provider) == Raises {
      handled, rollbacks := true, rollbacks + 1;
      if d.fault(ProviderRollback) == Cancels {
        return Cancelled, raised, reserved, handled, rollbacks;
      }
      if d.hasJob && d.fault(FailureLedger) != Fine {
        return Interrupted(d.fault(FailureLedger)), raised, reserved, handled, rollbacks;
      }
      return Failed, false, reserved, handled, rollbacks;
    }
    if d.fault(Collecting) != Fine {
      return Interrupted(d.fault(Collecting)), raised, reserved, handled, rollbacks;
    }
    return Succeeded, false, reserved, handled, rollbacks;
  }

  /**
   A delivery that reserved a page attempts to give it back exactly once if it fails or is a duplicate,
   and never if it succeeds; at most once in any case, and a reserved page is kept without any attempt
   exactly on success and when the implementation is cancelled before it has begun to give it back.
   */
  method Discover(d: Delivery) returns (end: End, reserved: bool, rollbacks: nat)
    ensures reserved == d.fault(Reserve).Fine?
    ensures reserved && (end.Failed? || end.Duplicate?) ==> rollbacks == 1
    ensures end.Succeeded? || !reserved ==> rollbacks == 0
    ensures rollbacks <= 1
    ensures reserved && rollbacks == 0 <==> end.Succeeded? || CancelledWhileReserved(d)
    ensures Delivered(end, reserved, rollbacks) == Outcome(d)
  {
    var raised, handled;
    end, raised, reserved, handled, rollbacks := DiscoverImpl(d);
    if !(raised && end.Failed?) {
      return;
    }
    if reserved && !handled {
      rollbacks := rollbacks + 1;
      if d.fault(OuterRollback) == Cancels {
        end := Cancelled;
        return;
      }
      if d.hasJob && d.fault(OuterLedger) == Cancels {
        end := Cancelled;
        return;
      }
    }
  }
}
