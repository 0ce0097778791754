/**
 The inbound delivery chain: the outbox (backend/app/outbox.py), the job ledger
 (backend/app/job_ledger.py) and the worker job (backend/app/agents/inbound_job.py).  Sends may
 repeat, deliveries are serial, and a worker may die between any two commits.
 */
module InboundDelivery {
  import opened Options
  import opened Fingerprint

  // ----- observation keys -----

  // A row of one submission; the locator is its canonical JSON text, never empty when present.
  datatype Row = Row(attribute: Bytes, value: Bytes, extractor: Bytes, locator: Option<Bytes>) {
    predicate Valid() { locator.Some? ==> locator.value != [] }
  }

  datatype Key = Key(attribute: Bytes, value: Bytes, extractor: Bytes, locator: Bytes)

  const NO_LOCATOR: Bytes := [123, 125]      // the text {}

  function KeyOf(r: Row): Key {
    Key(r.attribute, r.value, r.extractor, if r.locator.Some? then r.locator.value else NO_LOCATOR)
  }

  // What the unique index sees: snapshot, subject and opportunity come first.
  function IndexParts(scope: seq<Part>, r: Row): seq<Part> {
    scope + [Some(r.attribute), Some(r.value), Some(r.extractor), r.locator]
  }

  /** Equal index texts mean equal retry keys, so the index never refuses a deduplicated batch. */
  lemma SameIndexTextSameKey(scope: seq<Part>, a: Row, b: Row)
    requires a.Valid() && b.Valid() && Payload(IndexParts(scope, a)) == Payload(IndexParts(scope, b))
    ensures KeyOf(a) == KeyOf(b)
  {
    var n := |scope|;
    var p, q := IndexParts(scope, a), IndexParts(scope, b);
    PayloadIsInjective(p, q);
    assert Texts(p)[n] == Texts(q)[n] && Texts(p)[n + 1] == Texts(q)[n + 1];
    assert Texts(p)[n + 2] == Texts(q)[n + 2] && Texts(p)[n + 3] == Texts(q)[n + 3];
  }

  function Keys(rows: seq<Row>): set<Key> {
    set r | r in rows :: KeyOf(r)
  }

  predicate DistinctKeys(rows: seq<Row>) {
    forall i, j :: 0 <= i < j < |rows| ==> KeyOf(rows[i]) != KeyOf(rows[j])
  }

  // The stored rows followed by the rows of the batch whose key is new, each key once.
  function Completed(stored: seq<Row>, batch: seq<Row>): seq<Row> {
    if batch == [] then stored
    else
      var earlier := Completed(stored, batch[..|batch| - 1]);
      if KeyOf(batch[|batch| - 1]) in Keys(earlier) then earlier else earlier + [batch[|batch| - 1]]
  }

  lemma KeysOfAppend(rows: seq<Row>, r: Row)
    ensures Keys(rows + [r]) == Keys(rows) + {KeyOf(r)}
    ensures DistinctKeys(rows) && KeyOf(r) !in Keys(rows) ==> DistinctKeys(rows + [r])
  {
    assert (rows + [r])[|rows|] == r;
    forall x | x in rows ensures KeyOf(x) in Keys(rows + [r]) {
      assert x in rows + [r];
    }
    forall i | 0 <= i < |rows| ensures KeyOf(rows[i]) in Keys(rows) { }
  }

  /** The batch is stored completely, and no key is stored twice. */
  lemma {:induction false} CompletedHasEveryKeyOnce(stored: seq<Row>, batch: seq<Row>)
    requires DistinctKeys(stored)
    ensures DistinctKeys(Completed(stored, batch)) && Keys(Completed(stored, batch)) == Keys(stored) + Keys(batch)
  {
    if batch != [] {
      var init, r := batch[..|batch| - 1], batch[|batch| - 1];
      assert batch == init + [r];
      CompletedHasEveryKeyOnce(stored, init);
      KeysOfAppend(init, r);
      KeysOfAppend(Completed(stored, init), r);
    }
  }

  /** Storing a batch again adds nothing. */
  lemma {:induction false} CompletedTwice(stored: seq<Row>, batch: seq<Row>)
    requires Keys(batch) <= Keys(stored)
    ensures Completed(stored, batch) == stored
  {
    if batch != [] {
      var init, r := batch[..|batch| - 1], batch[|batch| - 1];
      assert batch == init + [r];
      KeysOfAppend(init, r);
      CompletedTwice(stored, init);
    }
  }

  /** The filtering loop of the worker, growing the key set as it goes. */
  method Deduplicate(batch: seq<Row>, stored: seq<Row>) returns (added: seq<Row>)
    ensures stored + added == Completed(stored, batch)
  {
    var existing := Keys(stored);
    added := [];
    for i := 0 to |batch|
      invariant stored + added == Completed(stored, batch[..i]) && existing == Keys(stored + added)
    {
      var row := batch[i];
      assert batch[..i + 1][..i] == batch[..i];
      if KeyOf(row) in existing {
        continue;
      }
      KeysOfAppend(stored + added, row);
      added := added + [row];
      existing := existing + {KeyOf(row)};
    }
    assert batch[..|batch|] == batch;
  }

  // ----- the ledger -----

  datatype JobStatus = Queued | Running | Succeeded | FailedJob | Cancelled

  datatype Job = Job(status: JobStatus, phase: string, attempt: int, progress: real,
                     lastError: Option<string>, result: Option<string>, started: bool, finished: bool)

  const NEW_JOB := Job(Queued, "queued", 0, 0.0, None, None, false, false)

  function Clamp(x: real): real {
    if x < 0.0 then 0.0 else if x > 1.0 then 1.0 else x
  }

  // The optional arguments of a ledger update.
  datatype Update = Update(status: JobStatus, phase: string, attempt: Option<int>, progress: Option<real>,
                           lastError: Option<string>, clearError: bool, result: Option<string>)

  function Updated(job: Job, u: Update): Job {
    Job(u.status, u.phase,
        if u.attempt.None? then job.attempt else if u.attempt.value < 0 then 0 else u.attempt.value,
        if u.status.Succeeded? then 1.0 else if u.progress.None? then job.progress else Clamp(u.progress.value),
        if u.clearError then None else if u.lastError.Some? then u.lastError else job.lastError,
        if u.result.Some? then u.result else job.result,
        job.started || u.status.Running?,
        job.finished || u.status.Succeeded? || u.status.FailedJob? || u.status.Cancelled?)
  }

  predicate Terminal(job: Job) {
    job.status.Succeeded? || job.status.Cancelled?
  }

  function StartedJob(job: Job, phase: string): Job {
    if Terminal(job) then job
    else Updated(job, Update(Running, phase, Some(if job.attempt + 1 < 1 then 1 else job.attempt + 1), None, None, true, None))
  }

  class JobRow {
    var status: JobStatus
    var phase: string
    var attempt: int
    var progress: real
    var lastError: Option<string>
    var result: Option<string>
    var started: bool
    var finished: bool

    function View(): Job
      reads this
    {
      Job(status, phase, attempt, progress, lastError, result, started, finished)
    }

    constructor ()
      ensures View() == NEW_JOB
    {
      status, phase, attempt, progress := Queued, "queued", 0, 0.0;
      lastError, result, started, finished := None, None, false, false;
    }

    method UpdateJob(u: Update)
      modifies this
      ensures View() == Updated(old(View()), u)
    {
      SetPhase(u);
      SetOutcome(u);
      SetTimes(u);
    }

    method SetPhase(u: Update)
      modifies `status, `phase, `attempt, `progress
      ensures status == u.status && phase == u.phase
      ensures attempt == Updated(old(View()), u).attempt
      ensures progress == if u.progress.Some? then Clamp(u.progress.value) else old(progress)
    {
      status := u.status;
      phase := u.phase;
      if u.attempt.Some? {
        attempt := if u.attempt.value < 0 then 0 else u.attempt.value;
      }
      if u.progress.Some? {
        progress := Clamp(u.progress.value);
      }
    }

    method SetOutcome(u: Update)
      modifies `lastError, `result
      ensures lastError == Updated(old(View()), u).lastError && result == Updated(old(View()), u).result
    {
      if u.clearError {
        lastError := None;
      } else if u.lastError.Some? {
        lastError := u.lastError;
      }
      if u.result.Some? {
        result := u.result;
      }
    }

    method SetTimes(u: Update)
      modifies `started, `finished, `progress
      ensures started == Updated(old(View()), u).started && finished == Updated(old(View()), u).finished
      ensures progress == if u.status.Succeeded? then 1.0 else old(progress)
    {
      if u.status == Running {
        started := true;
      }
      if u.status == Succeeded || u.status == FailedJob || u.status == Cancelled {
        finished := true;
        if u.status == Succeeded {
          progress := 1.0;
        }
      }
    }

    method StartJob(startPhase: string)
      modifies this
      ensures View() == StartedJob(old(View()), startPhase)
    {
      if status == Succeeded || status == Cancelled {
        return;
      }
      UpdateJob(Update(Running, startPhase, Some(if attempt + 1 < 1 then 1 else attempt + 1), None, None, true, None));
    }
  }

  // ----- the outbox -----

  datatype OutboxEvent = OutboxEvent(id: nat, dispatched: bool, attempts: nat, availableAt: int)

  const BATCH_LIMIT := 200

  function Power2(n: nat): nat {
    if n == 0 then 1 else 2 * Power2(n - 1)
  }

  function Backoff(attempts: nat): int {
    var delay := Power2(if attempts < 8 then attempts else 8);
    if delay < 300 then delay else 300
  }

  lemma {:induction false} Power2Grows(a: nat, b: nat)
    requires a <= b
    ensures 1 <= Power2(a) <= Power2(b)
    decreases b
  {
    if a < b { Power2Grows(a, b - 1); } else if a > 0 { Power2Grows(a - 1, b - 1); }
  }

  /** Delays grow with the attempts; they stop at 256 seconds, so the 300-second cap is never reached. */
  lemma BackoffStopsAt256(a: nat, b: nat)
    requires a <= b
    ensures 1 <= Backoff(a) <= Backoff(b) <= 256 && (b >= 8 ==> Backoff(b) == 256)
  {
    Power2Grows(if a < 8 then a else 8, if b < 8 then b else 8);
    Power2Grows(if b < 8 then b else 8, 8);
    assert Power2(8) == 256 by { assert Power2(4) == 16; assert Power2(6) == 64; }
  }

  predicate Ready(e: OutboxEvent, now: int) {
    !e.dispatched && e.availableAt <= now
  }

  function Attempted(e: OutboxEvent, now: int, accepted: bool): OutboxEvent {
    if accepted then e.(dispatched := true)
    else e.(attempts := e.attempts + 1, availableAt := now + Backoff(e.attempts + 1))
  }

  // The first `limit` ready positions, in creation order.
  function ReadyPositions(events: seq<OutboxEvent>, now: int, limit: nat): (r: seq<nat>)
    ensures |r| <= limit && forall i :: 0 <= i < |r| ==> r[i] < |events| && Ready(events[r[i]], now)
    ensures forall i, j :: 0 <= i < j < |r| ==> r[i] < r[j]
    ensures forall k :: 0 <= k < |events| && Ready(events[k], now) && k !in r ==> |r| == limit && forall j :: j in r ==> j < k
  {
    if events == [] then []
    else
      var earlier := ReadyPositions(events[..|events| - 1], now, limit);
      if |earlier| < limit && Ready(events[|events| - 1], now) then earlier + [|events| - 1] else earlier
  }

  function EffectiveLimit(limit: int): (n: nat)
    ensures 1 <= n <= 200 && (1 <= limit <= 200 ==> n == limit) && (limit < 1 ==> n == 1) && (limit > 200 ==> n == 200)
  {
    if limit < 1 then 1 else if limit > BATCH_LIMIT then BATCH_LIMIT else limit
  }

  // The rows once the positions listed have been tried.
  function Tried(events: seq<OutboxEvent>, positions: seq<nat>, now: int, accepts: nat -> bool): (r: seq<OutboxEvent>)
    ensures |r| == |events|
  {
    seq(|events|, i requires 0 <= i < |events| =>
      if i in positions then Attempted(events[i], now, accepts(events[i].id)) else events[i])
  }

  function SentIds(events: seq<OutboxEvent>, positions: seq<nat>, accepts: nat -> bool): seq<nat>
    requires forall i :: 0 <= i < |positions| ==> positions[i] < |events|
  {
    if positions == [] then []
    else
      var last := |positions| - 1;
      SentIds(events, positions[..last], accepts) +
      (if accepts(events[positions[last]].id) then [events[positions[last]].id] else [])
  }

  lemma TriedNext(events: seq<OutboxEvent>, positions: seq<nat>, i: nat, now: int, accepts: nat -> bool)
    requires i < |events| && i !in positions
    ensures Tried(events, positions, now, accepts)[i] == events[i]
    ensures Tried(events, positions + [i], now, accepts) ==
      Tried(events, positions, now, accepts)[i := Attempted(events[i], now, accepts(events[i].id))]
  {
    var before, after := Tried(events, positions, now, accepts), Tried(events, positions + [i], now, accepts);
    forall k | 0 <= k < |events| ensures after[k] == before[i := Attempted(events[i], now, accepts(events[i].id))][k] {
      assert k in positions + [i] <==> k in positions || k == i;
    }
  }

  lemma SentNext(events: seq<OutboxEvent>, positions: seq<nat>, i: nat, accepts: nat -> bool)
    requires i < |events| && forall k :: 0 <= k < |positions| ==> positions[k] < |events|
    ensures SentIds(events, positions + [i], accepts) ==
      SentIds(events, positions, accepts) + (if accepts(events[i].id) then [events[i].id] else [])
  {
    assert (positions + [i])[..|positions|] == positions;
  }

  /** The loop over the events fetched, on the rows of one uncommitted transaction. */
  method AttemptSends(events: seq<OutboxEvent>, ready: seq<nat>, now: int, accepts: nat -> bool)
    returns (rows: seq<OutboxEvent>, ids: seq<nat>)
    requires forall i :: 0 <= i < |ready| ==> ready[i] < |events|
    requires forall i, j :: 0 <= i < j < |ready| ==> ready[i] < ready[j]
    ensures rows == Tried(events, ready, now, accepts) && ids == SentIds(events, ready, accepts) && |ids| <= |ready|
  {
    rows, ids := events, [];
    assert Tried(events, ready[..0], now, accepts) == events;
    for n := 0 to |ready|
      invariant rows == Tried(events, ready[..n], now, accepts)
      invariant ids == SentIds(events, ready[..n], accepts) && |ids| <= n
    {
      var i := ready[n];
      assert ready[..n + 1] == ready[..n] + [i] && i !in ready[..n];
      TriedNext(events, ready[..n], i, now, accepts);
      SentNext(events, ready[..n], i, accepts);
      var e := rows[i];
      if accepts(e.id) {
        ids := ids + [e.id];
        e := e.(dispatched := true);
      } else {
        e := e.(attempts := e.attempts + 1, availableAt := now + Backoff(e.attempts + 1));
      }
      assert e == Attempted(events[i], now, accepts(events[i].id));
      rows := rows[i := e];
    }
    assert ready[..|ready|] == ready;
  }

  class Outbox {
    var events: seq<OutboxEvent>
    var sent: seq<nat>            // ids of the messages handed to the queue

    constructor (initial: seq<OutboxEvent>)
      ensures events == initial && sent == []
    {
      events, sent := initial, [];
    }

    /**
     One pass.  Sends happen as the loop runs; the rows change only if the final commit succeeds, so
     an uncommitted pass may send again later but never marks an event that was not sent.
     */
    method DispatchPending(limit: int, now: int, accepts: nat -> bool, commits: bool)
      returns (found: nat, dispatched: nat, failed: nat)
      modifies this
      ensures var ready := ReadyPositions(old(events), now, EffectiveLimit(limit));
        && found == |ready| == dispatched + failed
        && events == (if commits then Tried(old(events), ready, now, accepts) else old(events))
        && sent == old(sent) + SentIds(old(events), ready, accepts) && dispatched == |SentIds(old(events), ready, accepts)|
    {
      var ready := ReadyPositions(events, now, EffectiveLimit(limit));
      var rows, ids := AttemptSends(events, ready, now, accepts);
      sent := sent + ids;
      found, dispatched, failed := |ready|, |ids|, |ready| - |ids|;
      if commits {
        events := rows;
      }
    }
  }
}
