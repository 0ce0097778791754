/**
 Runs of the inbound chain for one submission: dispatches that may repeat, deliveries that may fail
 or die at every commit point and are delivered again.  A failure's `written` says whether the
 worker still managed to commit the failed state afterwards.
 */
module InboundRuns {
  import opened Options
  import opened InboundDelivery

  // A legacy message carries no job id; its run is created under an id derived from the submission.
  datatype Submission = Submission(legacy: bool, batch: seq<Row>)

  // In the last stage the final commit has taken effect, but raised: the worker takes it for a failure.
  datatype Stage = Waiting | Parsing(attempt: int) | Processing(attempt: int) | Finishing(attempt: int) | Misled(attempt: int)

  // What is committed: the outbox event, the job and the observation rows; `sends` counts messages.
  datatype World = World(event: OutboxEvent, sends: nat, job: Option<Job>, rows: seq<Row>, stage: Stage)

  datatype Event =
    | Dispatch(now: int, accepted: bool, commits: bool)
    | Deliver
    | StartRaises(written: bool)          // before the worker has read its attempt
    | StartCommitRaises(applied: bool, written: bool)    // after: the commit of the start, or of a finished job's answer
    | ParseFails(written: bool)
    | Persist
    | PersistRaises(applied: bool, written: bool)
    | ProcessFails(written: bool)
    | ProcessSucceeds
    | Complete
    | CompleteRaises(written: bool)
    | CompleteMisleads
    | MisledFailure(written: bool)
    | Crash

  function Ledger(job: Option<Job>, u: Update): Option<Job> {
    if job.None? then None else Some(Updated(job.value, u))
  }

  function Terminalized(w: World, written: bool, attempt: int, phase: string, error: string): World {
    w.(stage := Waiting,
       job := if written then Ledger(w.job, Update(FailedJob, phase, Some(attempt), None, Some(error), false, Some(error))) else w.job)
  }

  // The start of a delivery, up to its first commit.
  function Delivered(sub: Submission, w: World): World {
    var job := if w.job.None? && sub.legacy then Some(NEW_JOB) else w.job;
    if job.None? then w.(stage := Parsing(1))
    else if Terminal(job.value) then w
    else
      var started := StartedJob(job.value, "parsing");
      w.(job := Some(started), stage := Parsing(started.attempt))
  }

  // The attempt the worker has read when the commit of its start raises.
  function AttemptRead(sub: Submission, w: World): int {
    var started := Delivered(sub, w);
    if started.job.Some? then started.job.value.attempt else 1
  }

  // The rows and the handoff to processing, in one commit.
  function Persisted(sub: Submission, w: World): World
    requires w.stage.Parsing?
  {
    w.(rows := Completed(w.rows, sub.batch), stage := Processing(w.stage.attempt),
       job := Ledger(w.job, Update(Running, "processing", Some(w.stage.attempt), Some(0.8), None, true, None)))
  }

  function CompletedRun(w: World, next: Stage): World
    requires w.stage.Finishing?
  {
    w.(stage := next,
       job := Ledger(w.job, Update(Succeeded, "complete", Some(w.stage.attempt), Some(1.0), None, true, Some("success"))))
  }

  // An event that is not possible in w leaves w as it is.
  function Apply(sub: Submission, w: World, e: Event): World {
    match e
    case Dispatch(now, accepted, commits) =>
      if !Ready(w.event, now) then w
      else w.(sends := if accepted then w.sends + 1 else w.sends,
              event := if commits then Attempted(w.event, now, accepted) else w.event)
    case Deliver => if w.stage.Waiting? && w.sends > 0 then Delivered(sub, w) else w
    case StartRaises(written) =>
      if w.stage.Waiting? && w.sends > 0 then Terminalized(w, written, 1, "parsing", "job_start_failed") else w
    case StartCommitRaises(applied, written) =>
      if w.stage.Waiting? && w.sends > 0 then
        Terminalized(if applied then Delivered(sub, w) else w, written, AttemptRead(sub, w), "parsing", "job_start_failed")
      else w
    case ParseFails(written) =>
      if w.stage.Parsing? then Terminalized(w, written, w.stage.attempt, "parsing", "parse_failed") else w
    case Persist => if w.stage.Parsing? then Persisted(sub, w) else w
    case PersistRaises(applied, written) =>
      if w.stage.Parsing? then
        Terminalized(if applied then Persisted(sub, w) else w, written, w.stage.attempt, "parsing", "database_failure")
      else w
    case ProcessFails(written) =>
      if w.stage.Processing? then Terminalized(w, written, w.stage.attempt, "processing", "processing_failed") else w
    case ProcessSucceeds => if w.stage.Processing? then w.(stage := Finishing(w.stage.attempt)) else w
    case Complete => if w.stage.Finishing? then CompletedRun(w, Waiting) else w
    case CompleteRaises(written) =>
      if w.stage.Finishing? then Terminalized(w, written, w.stage.attempt, "processing", "database_failure") else w
    case CompleteMisleads => if w.stage.Finishing? then CompletedRun(w, Misled(w.stage.attempt)) else w
    case MisledFailure(written) =>
      if w.stage.Misled? then Terminalized(w, written, w.stage.attempt, "processing", "database_failure") else w
    case Crash => w.(stage := Waiting)
  }

  // The job row may be missing, queued, or cancelled before its first delivery.
  predicate Initial(w: World) {
    !w.event.dispatched && w.sends == 0 && w.rows == [] && w.stage.Waiting? && (w.job.Some? ==> !w.job.value.status.Succeeded?)
  }

  function After(sub: Submission, start: World, events: seq<Event>): World {
    if events == [] then start
    else Apply(sub, After(sub, start, events[..|events| - 1]), events[|events| - 1])
  }

  // The rows one undisturbed delivery stores.
  function CleanRows(sub: Submission): seq<Row> {
    Completed([], sub.batch)
  }

  predicate JobSucceeded(w: World) {
    w.job.Some? && w.job.value.status.Succeeded?
  }

  predicate Inv(sub: Submission, w: World) {
    && (w.rows == [] || w.rows == CleanRows(sub))
    && (w.stage.Processing? || w.stage.Finishing? || w.stage.Misled? ==> w.rows == CleanRows(sub))
    && (JobSucceeded(w) ==> w.rows == CleanRows(sub) && (w.stage.Waiting? || w.stage.Misled?))
    && (w.event.dispatched || !w.stage.Waiting? || JobSucceeded(w) ==> w.sends > 0)
  }

  lemma StoringAgainAddsNothing(sub: Submission)
    ensures DistinctKeys(CleanRows(sub)) && Keys(CleanRows(sub)) == Keys(sub.batch)
    ensures Completed(CleanRows(sub), sub.batch) == CleanRows(sub)
  {
    CompletedHasEveryKeyOnce([], sub.batch);
    CompletedTwice(CleanRows(sub), sub.batch);
  }

  lemma StepKeepsInv(sub: Submission, w: World, e: Event)
    requires Inv(sub, w)
    ensures Inv(sub, Apply(sub, w, e)) && (w.rows != [] ==> Apply(sub, w, e).rows == w.rows)
  {
    StoringAgainAddsNothing(sub);
  }

  lemma {:induction false} EveryRun(sub: Submission, start: World, events: seq<Event>)
    requires Initial(start)
    ensures Inv(sub, After(sub, start, events))
  {
    if events != [] {
      EveryRun(sub, start, events[..|events| - 1]);
      StepKeepsInv(sub, After(sub, start, events[..|events| - 1]), events[|events| - 1]);
    }
  }

  /**
   Whatever is repeated, fails or dies: no observation key is ever stored twice, the rows are none or
   those of one clean delivery, and a succeeded job has them all.
   */
  lemma EffectHappensOnce(sub: Submission, start: World, events: seq<Event>)
    requires Initial(start)
    ensures var w := After(sub, start, events);
      && DistinctKeys(w.rows) && (w.rows == [] || w.rows == CleanRows(sub))
      && (JobSucceeded(w) ==> w.rows == CleanRows(sub) && Keys(w.rows) == Keys(sub.batch))
  {
    EveryRun(sub, start, events);
    StoringAgainAddsNothing(sub);
  }

  /** Once stored, the rows never change again. */
  lemma {:induction false} RowsAreWrittenOnce(sub: Submission, start: World, events: seq<Event>, m: nat)
    requires Initial(start) && m <= |events| && After(sub, start, events[..m]).rows != []
    ensures After(sub, start, events).rows == After(sub, start, events[..m]).rows
    decreases |events|
  {
    if m == |events| {
      assert events[..m] == events;
    } else {
      var init := events[..|events| - 1];
      assert init[..m] == events[..m];
      RowsAreWrittenOnce(sub, start, init, m);
      EveryRun(sub, start, init);
      StepKeepsInv(sub, After(sub, start, init), events[|events| - 1]);
    }
  }

  // Everything but the bookkeeping of sends.
  predicate SameEffect(w: World, w': World) {
    w'.job == w.job && w'.rows == w.rows
  }

  // A start that fails, early or at its commit, with the failed state written down.
  predicate FailedStart(e: Event) {
    e == StartRaises(true) || (e.StartCommitRaises? && e.written)
  }

  // What turns a stored success into a failure: a failed start of a later delivery, or the worker itself,
  // misled by the raise of a final commit that took effect.
  predicate Undoes(w: World, e: Event) {
    (w.stage.Waiting? && FailedStart(e)) || (w.stage.Misled? && e == MisledFailure(true))
  }

  /** After success every event changes nothing, except those two. */
  lemma SuccessIsKeptUnlessUndone(sub: Submission, w: World, e: Event)
    requires Inv(sub, w) && JobSucceeded(w)
    ensures SameEffect(w, Apply(sub, w, e)) <==> !Undoes(w, e)
  {
  }

  lemma FiveSteps(sub: Submission, w: World, a: Event, b: Event, c: Event, d: Event, e: Event)
    ensures After(sub, w, [a, b, c, d, e]) ==
      Apply(sub, Apply(sub, Apply(sub, Apply(sub, Apply(sub, w, a), b), c), d), e)
  {
    assert [a, b, c, d, e][..4] == [a, b, c, d] && [a, b, c, d][..3] == [a, b, c] && [a, b, c][..2] == [a, b];
    assert [a, b][..1] == [a] && [a][..0] == [];
    assert After(sub, w, [a]) == Apply(sub, After(sub, w, []), a);
    assert After(sub, w, [a, b]) == Apply(sub, After(sub, w, [a]), b);
    assert After(sub, w, [a, b, c]) == Apply(sub, After(sub, w, [a, b]), c);
    assert After(sub, w, [a, b, c, d]) == Apply(sub, After(sub, w, [a, b, c]), d);
  }

  lemma CleanDeliverySucceeds(sub: Submission, w: World)
    requires w.stage.Waiting? && w.sends > 0 && w.job.Some? && !Terminal(w.job.value)
    ensures var done := Apply(sub, Apply(sub, Apply(sub, Apply(sub, w, Deliver), Persist), ProcessSucceeds), Complete);
      JobSucceeded(done) && done.stage.Waiting? && done.sends == w.sends
  {
  }

  /** A clean delivery, delivered once more: if that start fails, early or late, the succeeded job ends as failed. */
  lemma SuccessCanBeLost(batch: seq<Row>, late: bool)
    ensures var sub := Submission(false, batch);
      var start := World(OutboxEvent(0, false, 0, 0), 0, Some(NEW_JOB), [], Waiting);
      var clean := [Dispatch(0, true, true), Deliver, Persist, ProcessSucceeds, Complete];
      var again := Apply(sub, After(sub, start, clean), if late then StartCommitRaises(false, true) else StartRaises(true));
      Initial(start) && JobSucceeded(After(sub, start, clean)) && again.job.Some? && again.job.value.status.FailedJob?
  {
    var sub := Submission(false, batch);
    var start := World(OutboxEvent(0, false, 0, 0), 0, Some(NEW_JOB), [], Waiting);
    FiveSteps(sub, start, Dispatch(0, true, true), Deliver, Persist, ProcessSucceeds, Complete);
    CleanDeliverySucceeds(sub, Apply(sub, start, Dispatch(0, true, true)));
  }

  /** The final commit takes effect but raises: success is stored, and the worker then writes a failure over it. */
  lemma MisledCommitLosesSuccess(sub: Submission, w: World)
    requires w.stage.Finishing? && w.job.Some?
    ensures var stored := Apply(sub, w, CompleteMisleads);
      && JobSucceeded(stored)
      && var failed := Apply(sub, stored, MisledFailure(true)).job; failed.Some? && failed.value.status.FailedJob?
  {
  }

  /** So in runs where neither a failed start nor a misled failure is written down, success is final. */
  lemma {:induction false} SuccessIsFinal(sub: Submission, start: World, events: seq<Event>, more: seq<Event>)
    requires Initial(start) && JobSucceeded(After(sub, start, events)) && (forall e :: e in more ==> !FailedStart(e) && e != MisledFailure(true))
    ensures SameEffect(After(sub, start, events), After(sub, start, events + more))
  {
    if more == [] {
      assert events + more == events;
    } else {
      var init, e := more[..|more| - 1], more[|more| - 1];
      assert (events + more)[..|events + more| - 1] == events + init && e in more;
      SuccessIsFinal(sub, start, events, init);
      EveryRun(sub, start, events + init);
      SuccessIsKeptUnlessUndone(sub, After(sub, start, events + init), e);
    }
  }

  /** From every state of every run an undisturbed redelivery succeeds, unless the job was cancelled. */
  lemma RedeliveryRepairs(sub: Submission, start: World, events: seq<Event>)
    requires Initial(start)
    ensures var w := After(sub, start, events);
      var repaired := Apply(sub, Apply(sub, Apply(sub, Apply(sub, w, Deliver), Persist), ProcessSucceeds), Complete);
      w.stage.Waiting? && w.sends > 0 && (w.job.Some? || sub.legacy) && (w.job.Some? ==> !w.job.value.status.Cancelled?) ==>
        JobSucceeded(repaired) && repaired.rows == CleanRows(sub)
  {
    EveryRun(sub, start, events);
    StoringAgainAddsNothing(sub);
  }

  /**
   The event is never lost.  It is marked dispatched only after a message was sent; a try that is
   refused or not committed leaves it pending, and due again 256 seconds later at most.
   */
  lemma {:induction false} PendingUntilSent(sub: Submission, start: World, events: seq<Event>, now: int, accepted: bool, commits: bool)
    requires Initial(start)
    ensures var w := After(sub, start, events); var w' := Apply(sub, w, Dispatch(now, accepted, commits));
      && (w.event.dispatched ==> w.sends > 0)
      && (Ready(w.event, now) && accepted ==> w'.sends == w.sends + 1 && (commits ==> w'.event.dispatched))
      && (!w.event.dispatched && !(Ready(w.event, now) && accepted && commits) ==>
            forall t :: t >= now + 256 && t >= w.event.availableAt ==> Ready(w'.event, t))
  {
    EveryRun(sub, start, events);
    var w := After(sub, start, events);
    BackoffStopsAt256(w.event.attempts, w.event.attempts + 1);
  }

  // ----- what the ledger says -----

  // The attempt the worker is at is the one on record, and a succeeded job is complete in every field.
  predicate LedgerOk(w: World) {
    w.job.Some? ==>
      var job := w.job.value;
      && job.attempt >= 0 && 0.0 <= job.progress <= 1.0
      && (match w.stage
          case Waiting => true
          case Parsing(n) => n == job.attempt && job.started
          case Processing(n) => n == job.attempt && job.started
          case Finishing(n) => n == job.attempt && job.started
          case Misled(n) => n == job.attempt && job.started)
      && (job.status.Succeeded? ==>
            job == Job(Succeeded, "complete", job.attempt, 1.0, None, Some("success"), true, true))
  }

  // What one event does to the attempt on record: a delivery that starts the job raises it by one, also
  // if its commit raises but takes effect, or its failure is written; a failure before that writes 1.
  function NextAttempt(w: World, e: Event): int
    requires w.job.Some?
  {
    if !w.stage.Waiting? || w.sends == 0 then w.job.value.attempt
    else if (e.Deliver? || (e.StartCommitRaises? && (e.applied || e.written))) && !Terminal(w.job.value) then w.job.value.attempt + 1
    else if e == StartRaises(true) then 1
    else w.job.value.attempt
  }

  lemma StepKeepsLedger(sub: Submission, w: World, e: Event)
    requires LedgerOk(w)
    ensures LedgerOk(Apply(sub, w, e))
    ensures w.job.Some? ==> Apply(sub, w, e).job.Some? && Apply(sub, w, e).job.value.attempt == NextAttempt(w, e)
  {
  }

  /**
   In every run a succeeded job is complete: full progress, no error left, its result stored.  The
   attempt on record counts the deliveries that started the job, except that one which raises before
   reading it, and is written down, sets it to 1.
   */
  lemma {:induction false} LedgerCountsAttempts(sub: Submission, start: World, events: seq<Event>, e: Event)
    requires Initial(start) && LedgerOk(start)
    ensures var w := After(sub, start, events); var w' := Apply(sub, w, e);
      && LedgerOk(w)
      && (w.job.Some? ==> w'.job.Some? && w'.job.value.attempt == NextAttempt(w, e))
  {
    if events != [] {
      LedgerCountsAttempts(sub, start, events[..|events| - 1], events[|events| - 1]);
      StepKeepsLedger(sub, After(sub, start, events[..|events| - 1]), events[|events| - 1]);
    }
    StepKeepsLedger(sub, After(sub, start, events), e);
  }
}
