/**
 What stands on record of an inbound submission: the refusals and the due time of its outbox event
 (backend/app/outbox.py), and the fields of its job (backend/app/job_ledger.py).
 */
module InboundRecords {
  import opened Options
  import opened Fingerprint
  import opened InboundDelivery
  import opened InboundRuns

  // ----- the outbox event -----

  // Two seconds after the first refusal, doubled with each further one until 256.
  function Delay(n: nat): int
    requires n >= 1
  {
    if n == 1 then 2 else if Delay(n - 1) == 256 then 256 else 2 * Delay(n - 1)
  }

  lemma PowersOfTwo()
    ensures Power2(1) == 2 && Power2(2) == 4 && Power2(3) == 8 && Power2(4) == 16
    ensures Power2(5) == 32 && Power2(6) == 64 && Power2(7) == 128 && Power2(8) == 256
  {
    assert Power2(2) == 4;
    assert Power2(4) == 16;
    assert Power2(6) == 64;
  }

  lemma FirstDelays()
    ensures Delay(1) == 2 && Delay(2) == 4 && Delay(3) == 8 && Delay(4) == 16
    ensures Delay(5) == 32 && Delay(6) == 64 && Delay(7) == 128 && Delay(8) == 256
  {
    assert Delay(2) == 4;
    assert Delay(4) == 16;
    assert Delay(6) == 64;
  }

  lemma {:induction false} LongDelays(n: nat)
    requires n >= 8
    ensures Delay(n) == 256
  {
    FirstDelays();
    if n > 8 { LongDelays(n - 1); }
  }

  /** The backoff doubles from two seconds to 256. */
  lemma BackoffDoubles(n: nat)
    requires n >= 1
    ensures Backoff(n) == Delay(n)
  {
    PowersOfTwo();
    FirstDelays();
    if n >= 8 { LongDelays(n); }
  }

  // A try of the event that is due, and is refused, with the outcome committed.
  predicate Refusal(w: World, e: Event) {
    e.Dispatch? && !w.event.dispatched && w.event.availableAt <= e.now && !e.accepted && e.commits
  }

  predicate Acceptance(w: World, e: Event) {
    e.Dispatch? && !w.event.dispatched && w.event.availableAt <= e.now && e.accepted && e.commits
  }

  function Refusals(sub: Submission, start: World, events: seq<Event>): nat {
    if events == [] then 0
    else
      var init, e := events[..|events| - 1], events[|events| - 1];
      Refusals(sub, start, init) + (if Refusal(After(sub, start, init), e) then 1 else 0)
  }

  function LastRefusal(sub: Submission, start: World, events: seq<Event>): Option<int> {
    if events == [] then None
    else
      var init, e := events[..|events| - 1], events[|events| - 1];
      if Refusal(After(sub, start, init), e) then Some(e.now) else LastRefusal(sub, start, init)
  }

  lemma StepOnEvent(sub: Submission, w: World, e: Event)
    ensures var event := Apply(sub, w, e).event;
      if Refusal(w, e) then event == w.event.(attempts := w.event.attempts + 1, availableAt := e.now + Delay(w.event.attempts + 1))
      else if Acceptance(w, e) then event == w.event.(dispatched := true)
      else event == w.event
  {
    BackoffDoubles(w.event.attempts + 1);
  }

  /**
   In every run: the attempts on the event grow by one with each committed refusal of a try when it was due,
   and by nothing else; and after the last one it is due again exactly when the delay for that number of
   attempts has passed.
   */
  lemma {:induction false} RefusalsAreCounted(sub: Submission, start: World, events: seq<Event>)
    ensures var event := After(sub, start, events).event;
      && event.id == start.event.id
      && event.attempts == start.event.attempts + Refusals(sub, start, events)
      && match LastRefusal(sub, start, events)
         case None => event.availableAt == start.event.availableAt && event.attempts == start.event.attempts
         case Some(t) => event.attempts >= 1 && event.availableAt == t + Delay(event.attempts)
  {
    if events != [] {
      RefusalsAreCounted(sub, start, events[..|events| - 1]);
      StepOnEvent(sub, After(sub, start, events[..|events| - 1]), events[|events| - 1]);
    }
  }

  /** A try sends a message exactly if the event is pending and due, and is accepted; nothing else sends one. */
  lemma SendsAreTries(sub: Submission, w: World, e: Event)
    ensures Apply(sub, w, e).sends ==
      w.sends + (if e.Dispatch? && !w.event.dispatched && w.event.availableAt <= e.now && e.accepted then 1 else 0)
  {
  }

  /**
   One committed pass over an outbox of many events: of those fetched, the accepted ones are dispatched, the
   refused ones count one more attempt and wait out its delay; no other event changes.
   */
  lemma PassOverOutbox(events: seq<OutboxEvent>, now: int, limit: int, accepts: nat -> bool, k: nat)
    requires k < |events|
    ensures var ready := ReadyPositions(events, now, EffectiveLimit(limit)); var e := events[k];
      Tried(events, ready, now, accepts)[k] ==
        if k !in ready then e
        else if accepts(e.id) then e.(dispatched := true)
        else e.(attempts := e.attempts + 1, availableAt := now + Delay(e.attempts + 1))
  {
    BackoffDoubles(events[k].attempts + 1);
  }

  function Accepted(events: seq<OutboxEvent>, positions: seq<nat>, accepts: nat -> bool): set<nat>
    requires forall i :: 0 <= i < |positions| ==> positions[i] < |events|
  {
    set p | p in positions && accepts(events[p].id)
  }

  lemma LastAccepted(events: seq<OutboxEvent>, positions: seq<nat>, accepts: nat -> bool)
    requires positions != [] && forall i :: 0 <= i < |positions| ==> positions[i] < |events|
    ensures var init, p := positions[..|positions| - 1], positions[|positions| - 1];
      Accepted(events, positions, accepts) == Accepted(events, init, accepts) + (if accepts(events[p].id) then {p} else {})
  {
    assert positions == positions[..|positions| - 1] + [positions[|positions| - 1]];
  }

  // The ids are those of the events at these positions.
  ghost predicate Tells(events: seq<OutboxEvent>, ids: seq<nat>, positions: set<nat>) {
    && (forall p :: p in positions ==> p < |events|)
    && forall id :: id in ids <==> exists p :: p in positions && events[p].id == id
  }

  lemma TellsMore(events: seq<OutboxEvent>, ids: seq<nat>, positions: set<nat>, p: nat)
    requires Tells(events, ids, positions) && p < |events|
    ensures Tells(events, ids + [events[p].id], positions + {p})
  {
    var ids', all := ids + [events[p].id], positions + {p};
    forall id ensures id in ids' <==> exists q :: q in all && events[q].id == id {
      if id in ids {
        var q :| q in positions && events[q].id == id;
        assert q in all;
      }
      if id == events[p].id { assert p in all; }
      if q :| q in all && events[q].id == id { assert q in positions || q == p; }
    }
  }

  lemma {:induction false} SentIdsTell(events: seq<OutboxEvent>, positions: seq<nat>, accepts: nat -> bool)
    requires forall i :: 0 <= i < |positions| ==> positions[i] < |events|
    ensures Tells(events, SentIds(events, positions, accepts), Accepted(events, positions, accepts))
  {
    if positions != [] {
      var init, p := positions[..|positions| - 1], positions[|positions| - 1];
      SentIdsTell(events, init, accepts);
      LastAccepted(events, positions, accepts);
      if accepts(events[p].id) { TellsMore(events, SentIds(events, init, accepts), Accepted(events, init, accepts), p); }
    }
  }

  lemma OneMoreMember(a: set<nat>, p: nat)
    requires p !in a
    ensures |a + {p}| == |a| + 1
  {
  }

  lemma {:induction false} SentIdsCount(events: seq<OutboxEvent>, positions: seq<nat>, accepts: nat -> bool)
    requires forall i :: 0 <= i < |positions| ==> positions[i] < |events|
    requires forall i, j :: 0 <= i < j < |positions| ==> positions[i] < positions[j]
    ensures |SentIds(events, positions, accepts)| == |Accepted(events, positions, accepts)|
  {
    if positions != [] {
      var init, p := positions[..|positions| - 1], positions[|positions| - 1];
      SentIdsCount(events, init, accepts);
      LastAccepted(events, positions, accepts);
      assert p !in init;
      if accepts(events[p].id) { OneMoreMember(Accepted(events, init, accepts), p); }
    }
  }

  /** The messages sent are those of the accepted positions, each once. */
  lemma AcceptedAreSent(events: seq<OutboxEvent>, positions: seq<nat>, accepts: nat -> bool)
    requires forall i :: 0 <= i < |positions| ==> positions[i] < |events|
    requires forall i, j :: 0 <= i < j < |positions| ==> positions[i] < positions[j]
    ensures |SentIds(events, positions, accepts)| == |Accepted(events, positions, accepts)|
    ensures Tells(events, SentIds(events, positions, accepts), Accepted(events, positions, accepts))
  {
    SentIdsCount(events, positions, accepts);
    SentIdsTell(events, positions, accepts);
  }

  // ----- the job -----

  /** An update keeps what it does not speak of, and what it says is stored, the numbers within their bounds. */
  lemma UpdateSaysWhatChanges(job: Job, u: Update)
    ensures var job' := Updated(job, u);
      && job'.status == u.status && job'.phase == u.phase
      && (u.attempt.None? ==> job'.attempt == job.attempt)
      && (u.attempt.Some? ==> job'.attempt >= 0 && (u.attempt.value >= 0 ==> job'.attempt == u.attempt.value))
      && (u.progress.None? && u.status != Succeeded ==> job'.progress == job.progress)
      && (u.progress.Some? ==> 0.0 <= job'.progress <= 1.0)
      && (u.progress.Some? && u.status != Succeeded && 0.0 <= u.progress.value <= 1.0 ==> job'.progress == u.progress.value)
      && (u.status == Succeeded ==> job'.progress == 1.0)
      && (u.clearError ==> job'.lastError == None)
      && (!u.clearError && u.lastError.None? ==> job'.lastError == job.lastError)
      && (!u.clearError && u.lastError.Some? ==> job'.lastError == u.lastError)
      && (u.result.None? ==> job'.result == job.result) && (u.result.Some? ==> job'.result == u.result)
      && (job'.started <==> job.started || u.status == Running)
      && (job'.finished <==> job.finished || u.status in {Succeeded, FailedJob, Cancelled})
  {
  }

  // The failure an event writes down: the phase, the attempt and the error.
  datatype Failure = Failure(phase: string, attempt: int, error: string)

  function WrittenFailure(sub: Submission, w: World, e: Event): Option<Failure> {
    if w.stage.Waiting? && w.sends > 0 then
      if e == StartRaises(true) then Some(Failure("parsing", 1, "job_start_failed"))
      else if e.StartCommitRaises? && e.written then Some(Failure("parsing", AttemptRead(sub, w), "job_start_failed"))
      else None
    else match w.stage
      case Parsing(n) =>
        if e == ParseFails(true) then Some(Failure("parsing", n, "parse_failed"))
        else if e.PersistRaises? && e.written then Some(Failure("parsing", n, "database_failure"))
        else None
      case Processing(n) => if e == ProcessFails(true) then Some(Failure("processing", n, "processing_failed")) else None
      case Finishing(n) => if e == CompleteRaises(true) then Some(Failure("processing", n, "database_failure")) else None
      case Misled(n) => if e == MisledFailure(true) then Some(Failure("processing", n, "database_failure")) else None
      case Waiting => None
  }

  /** A failure that is written down leaves the job failed and finished, with that failure's phase, attempt and error. */
  lemma FailureIsRecorded(sub: Submission, w: World, e: Event)
    requires w.job.Some? && WrittenFailure(sub, w, e).Some?
    ensures var f, job := WrittenFailure(sub, w, e).value, Apply(sub, w, e).job;
      && job.Some? && job.value.status.FailedJob? && job.value.finished && job.value.phase == f.phase
      && job.value.attempt == (if f.attempt < 0 then 0 else f.attempt)
      && job.value.lastError == Some(f.error) && job.value.result == Some(f.error)
      && Apply(sub, w, e).stage.Waiting?
  {
  }

  /** Only written failures make a job failed. */
  lemma OnlyFailuresFail(sub: Submission, w: World, e: Event)
    requires w.job.Some? && !w.job.value.status.FailedJob? && WrittenFailure(sub, w, e).None?
    ensures Apply(sub, w, e).job.Some? && !Apply(sub, w, e).job.value.status.FailedJob?
  {
  }

  // The job as the worker leaves it at each of its commits.
  predicate Progressed(job: Job, job': Job, phase: string, attempt: int) {
    job'.status.Running? && job'.phase == phase && job'.attempt == attempt && job'.lastError == None && job'.started
    && job'.finished == job.finished && job'.result == job.result
  }

  /** An undisturbed delivery leaves, commit by commit, a started, a processed and a succeeded job without error. */
  lemma ProgressIsRecorded(sub: Submission, w: World)
    requires w.stage.Waiting? && w.sends > 0 && w.job.Some? && !Terminal(w.job.value) && w.job.value.attempt >= 0
    ensures
      var job := w.job.value;
      var delivered := Apply(sub, w, Deliver);
      var persisted := Apply(sub, delivered, Persist);
      var finished := Apply(sub, Apply(sub, persisted, ProcessSucceeds), Complete);
      && delivered.job.Some? && Progressed(job, delivered.job.value, "parsing", job.attempt + 1)
      && persisted.job.Some? && Progressed(job, persisted.job.value, "processing", job.attempt + 1) && persisted.job.value.progress == 0.8
      && finished.job == Some(Job(Succeeded, "complete", job.attempt + 1, 1.0, None, Some("success"), true, true))
  {
  }

  // ----- the rows -----

  // A missing locator is stored as the empty object.
  predicate SameLocator(a: Option<Bytes>, b: Option<Bytes>) {
    (if a == None then [123, 125] else a.value) == (if b == None then [123, 125] else b.value)
  }

  predicate SameRow(a: Row, b: Row) {
    a.attribute == b.attribute && a.value == b.value && a.extractor == b.extractor && SameLocator(a.locator, b.locator)
  }

  /** Rows have equal retry keys exactly if they say the same, a missing locator counting as the empty object. */
  lemma KeysAgreeIff(a: Row, b: Row)
    ensures KeyOf(a) == KeyOf(b) <==> SameRow(a, b)
  {
  }

  lemma KeyIsThere(rows: seq<Row>, r: Row)
    ensures KeyOf(r) in Keys(rows) <==> exists x :: x in rows && SameRow(x, r)
  {
    if KeyOf(r) in Keys(rows) {
      var x :| x in rows && KeyOf(x) == KeyOf(r);
      KeysAgreeIff(x, r);
    }
    if x :| x in rows && SameRow(x, r) {
      KeysAgreeIff(x, r);
      assert KeyOf(x) in Keys(rows);
    }
  }

  lemma {:induction false} CompletedAppends(stored: seq<Row>, batch: seq<Row>)
    ensures stored <= Completed(stored, batch)
    ensures forall r :: r in Completed(stored, batch) ==> r in stored || r in batch
  {
    if batch != [] { CompletedAppends(stored, batch[..|batch| - 1]); }
  }

  /**
   After success, whatever was repeated or died on the way: every row of the submission is stored, in the
   words of some row of it, once, and no other row.
   */
  lemma EveryRowIsStoredOnce(sub: Submission, start: World, events: seq<Event>, r: Row)
    requires Initial(start) && JobSucceeded(After(sub, start, events))
    ensures var rows := After(sub, start, events).rows;
      && (r in sub.batch ==> exists x :: x in rows && SameRow(x, r))
      && (r in rows ==> r in sub.batch)
      && forall i, j :: 0 <= i < j < |rows| ==> !SameRow(rows[i], rows[j])
  {
    EffectHappensOnce(sub, start, events);
    var rows := After(sub, start, events).rows;
    CompletedAppends([], sub.batch);
    KeyIsThere(rows, r);
    if r in sub.batch { assert KeyOf(r) in Keys(sub.batch); }
    forall i, j | 0 <= i < j < |rows| ensures !SameRow(rows[i], rows[j]) { KeysAgreeIff(rows[i], rows[j]); }
  }
}
