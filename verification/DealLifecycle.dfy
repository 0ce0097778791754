/**
 The deal lifecycle: the transition table (backend/app/lifecycle.py), audited transitions
 (backend/app/opportunity_service.py), the pipeline run (backend/app/agents/lifecycle_job.py) and
 human decisions (backend/app/api/routes/candidates.py).
 */
module DealLifecycle {
  import opened Options

  datatype Stage =
    | Discovered | Interesting | Investigating | Contacted | Received | Triage
    | Screening | Diligence | MemoReady | Hold | Approved | Closed

  function Transitions(s: Stage): set<Stage> {
    match s
    case Discovered => {Interesting, Closed}
    case Interesting => {Investigating, Closed}
    case Investigating => {Contacted, Received, Closed}
    case Contacted => {Received, Closed}
    case Received => {Triage, Closed}
    case Triage => {Screening, Closed}
    case Screening => {Diligence, Closed}
    case Diligence => {MemoReady, Closed}
    case MemoReady => {Hold, Approved, Closed}
    case Hold => {Approved, Closed}
    case Approved => {}
    case Closed => {}
  }

  predicate IsValidTransition(prior: Stage, next: Stage) {
    prior == next || next in Transitions(prior)
  }

  // How many changes can still follow.
  function Rank(s: Stage): (r: nat)
    ensures r <= 10
  {
    match s
    case Discovered => 10
    case Interesting => 9
    case Investigating => 8
    case Contacted => 7
    case Received => 6
    case Triage => 5
    case Screening => 4
    case Diligence => 3
    case MemoReady => 2
    case Hold => 1
    case Approved => 0
    case Closed => 0
  }

  datatype Actor = Pipeline | Human

  datatype Verb = Proceed | PutOnHold | Decline

  // The texts the pipeline writes, and those people write.
  datatype Reason =
    | SignalCrossed | InvestigationStarted | PipelineTimeout | PipelineRetry(n: nat) | DraftRequested
    | ProcessingQueued | ProcessingCompleted | FounderScoreQueued | TriageCompleted
    | ResearchQueued | AxesCompleted | MemoQueued | MemoGenerated
    | Stated(text: string)

  datatype DecisionEvent = DecisionEvent(opp: nat, prior: Stage, next: Stage, actor: Actor, reason: Reason,
                                         key: Option<string>, verb: Option<Verb>, at: int)

  // What exists for an opportunity; axes and a succeeded memo are never taken back.
  datatype Evidence = Evidence(founder: bool, signal: bool, claims: bool, founderScore: bool, contactReady: bool,
                               axes: bool, memo: bool)

  datatype Opportunity = Opportunity(initial: Stage, stage: Stage, evidence: Evidence, updatedAt: int)

  datatype WorkKind = Investigation | Draft | Processing | Scoring | Research | MemoWriting

  datatype Work = Work(opp: nat, kind: WorkKind)

  const MAX_RETRIES := 3

  function Cost(kind: WorkKind): nat {
    match kind
    case Investigation => 5
    case Draft => 1
    case Processing => 1
    case Scoring => 5
    case Research => 3
    case MemoWriting => 1
  }

  // The database as committed, and what the pipeline has done to Redis: the calls left and the work queued.
  datatype System = System(opps: map<nat, Opportunity>, events: seq<DecisionEvent>, budget: int, work: seq<Work>)

  // ----- audited transitions -----

  function Recorded(sys: System, id: nat, next: Stage, actor: Actor, reason: Reason, key: Option<string>,
                    verb: Option<Verb>, now: int): System
    requires id in sys.opps
  {
    var o := sys.opps[id];
    sys.(opps := sys.opps[id := o.(stage := next, updatedAt := now)],
         events := sys.events + [DecisionEvent(id, o.stage, next, actor, reason, key, verb, now)])
  }

  // An invalid transition is refused; a transition to the present stage writes nothing.
  function Transitioned(sys: System, id: nat, next: Stage, reason: Reason, now: int): System
    requires id in sys.opps
  {
    if !IsValidTransition(sys.opps[id].stage, next) || sys.opps[id].stage == next then sys
    else Recorded(sys, id, next, Pipeline, reason, None, None, now)
  }

  // ----- one opportunity in a pipeline run -----

  predicate MentionsRetry(e: DecisionEvent, id: nat) {
    e.opp == id && e.actor == Pipeline && e.reason.PipelineRetry?
  }

  predicate MentionsStart(e: DecisionEvent, id: nat) {
    e.opp == id && e.actor == Pipeline && e.reason.InvestigationStarted?
  }

  function CountRetries(events: seq<DecisionEvent>, id: nat): nat {
    if events == [] then 0
    else CountRetries(events[..|events| - 1], id) + (if MentionsRetry(events[|events| - 1], id) then 1 else 0)
  }

  function CountStarts(events: seq<DecisionEvent>, id: nat): nat {
    if events == [] then 0
    else CountStarts(events[..|events| - 1], id) + (if MentionsStart(events[|events| - 1], id) then 1 else 0)
  }

  predicate RecentEvent(e: DecisionEvent, id: nat, reason: Reason, since: int) {
    e.opp == id && e.actor == Pipeline && e.reason == reason && e.at >= since
  }

  predicate Recent(events: seq<DecisionEvent>, id: nat, reason: Reason, since: int) {
    exists i :: 0 <= i < |events| && RecentEvent(events[i], id, reason, since)
  }

  // What a pipeline run decides for one opportunity: nothing, a transition (with the investigation
  // paid and queued around it), or queued work noted in the log, possibly restarting the stuck interval.
  datatype Move =
    | Stay
    | Change(next: Stage, reason: Reason, starts: bool)
    | Note(kind: WorkKind, reason: Reason, touches: bool)

  // The work a move pays for and queues.
  function KindOfMove(move: Move): Option<WorkKind> {
    match move
    case Stay => None
    case Change(_, _, starts) => if starts then Some(Investigation) else None
    case Note(kind, _, _) => Some(kind)
  }

  function Price(move: Move): nat {
    match KindOfMove(move) case None => 0 case Some(kind) => Cost(kind)
  }

  // The database stamps what a run writes with the start of its transaction; the turn of each deal reads
  // the clock again.
  datatype Turn = Turn(start: int, now: int, stuck: int) {
    function Since(): int { now - stuck }
  }

  datatype Run = Run(start: int, clock: nat -> int, stuck: int) {
    function At(k: nat): Turn { Turn(start, clock(k), stuck) }
  }

  // Missing output: queue the work once per stuck interval, if the budget allows; otherwise advance.
  function Gate(sys: System, id: nat, ready: bool, kind: WorkKind, queued: Reason, next: Stage, done: Reason, since: int): Move {
    if ready then Change(next, done, false)
    else if sys.budget >= Cost(kind) && !Recent(sys.events, id, queued, since) then Note(kind, queued, false)
    else Stay
  }

  function InvestigatingMove(sys: System, id: nat, o: Opportunity, since: int): Move {
    var retries := CountRetries(sys.events, id);
    if !o.evidence.axes then
      if o.updatedAt > since then Stay
      else if retries >= MAX_RETRIES then Change(Closed, PipelineTimeout, false)
      else if sys.budget < Cost(Investigation) then Stay
      else Note(Investigation, PipelineRetry(retries + 1), true)
    else if !o.evidence.founderScore || !o.evidence.contactReady || sys.budget <= 0 then Stay
    else Note(Draft, DraftRequested, true)
  }

  function MoveOf(sys: System, id: nat, since: int): Move
    requires id in sys.opps
  {
    var o := sys.opps[id];
    if !o.evidence.founder then Stay
    else match o.stage
      case Discovered => if o.evidence.signal then Change(Interesting, SignalCrossed, false) else Stay
      case Interesting =>
        if o.evidence.axes || sys.budget < Cost(Investigation) then Stay
        else Change(Investigating, InvestigationStarted, true)
      case Investigating => InvestigatingMove(sys, id, o, since)
      case Received => Gate(sys, id, o.evidence.claims, Processing, ProcessingQueued, Triage, ProcessingCompleted, since)
      case Triage => Gate(sys, id, o.evidence.founderScore, Scoring, FounderScoreQueued, Screening, TriageCompleted, since)
      case Screening => Gate(sys, id, o.evidence.axes, Research, ResearchQueued, Diligence, AxesCompleted, since)
      case Diligence => Gate(sys, id, o.evidence.memo, MemoWriting, MemoQueued, MemoReady, MemoGenerated, since)
      case _ => Stay
  }

  function Queue(sys: System, id: nat, kind: WorkKind): System {
    sys.(budget := sys.budget - Cost(kind), work := sys.work + [Work(id, kind)])
  }

  // An event that leaves the stage as it is.
  function Noted(sys: System, id: nat, reason: Reason, touches: bool, t: Turn): System
    requires id in sys.opps
  {
    var o := sys.opps[id];
    sys.(opps := if touches then sys.opps[id := o.(updatedAt := t.now)] else sys.opps,
         events := sys.events + [DecisionEvent(id, o.stage, o.stage, Pipeline, reason, None, None, t.start)])
  }

  function Moved(sys: System, id: nat, move: Move, t: Turn): System
    requires id in sys.opps
  {
    match move
    case Stay => sys
    case Change(next, reason, starts) =>
      Transitioned(if starts then Queue(sys, id, Investigation) else sys, id, next, reason, t.start)
    case Note(kind, reason, touches) => Noted(Queue(sys, id, kind), id, reason, touches, t)
  }

  function AdvanceOne(sys: System, id: nat, t: Turn): System {
    if id !in sys.opps then sys else Moved(sys, id, MoveOf(sys, id, t.Since()), t)
  }

  // The turns of a batch, in one transaction that has not ended yet.
  function Advanced(sys: System, batch: seq<nat>, run: Run): System {
    if batch == [] then sys
    else
      var last := |batch| - 1;
      AdvanceOne(Advanced(sys, batch[..last], run), batch[last], run.At(last))
  }

  // How a run ends: its single commit takes effect; or it ends before that, after so many turns, possibly
  // with the call of the next turn paid and its work not queued.
  datatype End = Commits | Aborts(after: nat, paid: bool)

  function Reached(batch: seq<nat>, end: End): seq<nat> {
    if end.Aborts? && end.after < |batch| then batch[..end.after] else batch
  }

  predicate CutInTurn(batch: seq<nat>, end: End) {
    end.Aborts? && end.paid && end.after < |batch|
  }

  // The move whose price was paid in vain when the run was cut.
  function CutMove(sys: System, batch: seq<nat>, run: Run, end: End): Move {
    var mid := Advanced(sys, Reached(batch, end), run);
    if CutInTurn(batch, end) && batch[end.after] in mid.opps
    then MoveOf(mid, batch[end.after], run.At(end.after).Since()) else Stay
  }

  // An aborted run leaves the database as it was, but Redis as far as it had come.
  function Ran(sys: System, batch: seq<nat>, run: Run, end: End): System {
    var mid := Advanced(sys, Reached(batch, end), run);
    if end.Commits? then mid
    else System(sys.opps, sys.events, mid.budget - Price(CutMove(sys, batch, run, end)), mid.work)
  }

  // ----- human decisions -----

  function StageFor(verb: Verb): Stage {
    match verb case Proceed => Approved case PutOnHold => Hold case Decline => Closed
  }

  // Whether the candidate of the request exists and is canonical, and is a founder of the opportunity.
  datatype Link = NoCandidate | Unlinked | Founder

  datatype Outcome = BadKey | CandidateMissing | NotLinked | BadReason | KeyReused | NotAllowed | MemoRequired | Accepted(event: DecisionEvent)

  // The stored event of an idempotency key; at most one exists.
  function EventOfKey(events: seq<DecisionEvent>, key: string): Option<DecisionEvent> {
    if events == [] then None
    else if events[|events| - 1].key == Some(key) then Some(events[|events| - 1])
    else EventOfKey(events[..|events| - 1], key)
  }

  // Key and reason arrive stripped of surrounding white space.
  function OutcomeOf(sys: System, id: nat, link: Link, verb: Verb, key: string, reason: string, now: int): Outcome {
    if !(1 <= |key| <= 128) then BadKey
    else if link.NoCandidate? then CandidateMissing
    else if id !in sys.opps || link.Unlinked? then NotLinked
    else if |reason| < 3 then BadReason
    else match EventOfKey(sys.events, key)
      case Some(e) =>
        if e.opp != id || e.verb != Some(verb) || e.reason != Stated(reason) then KeyReused else Accepted(e)
      case None =>
        var prior, next := sys.opps[id].stage, StageFor(verb);
        if !IsValidTransition(prior, next) || prior == next then NotAllowed
        else if !sys.opps[id].evidence.memo then MemoRequired
        else Accepted(DecisionEvent(id, prior, next, Human, Stated(reason), Some(key), Some(verb), now))
  }

  function Decided(sys: System, id: nat, link: Link, verb: Verb, key: string, reason: string, now: int): System {
    if OutcomeOf(sys, id, link, verb, key, reason, now).Accepted? && EventOfKey(sys.events, key).None? then
      Recorded(sys, id, StageFor(verb), Human, Stated(reason), Some(key), Some(verb), now)
    else sys
  }

  // ----- runs -----

  datatype Action =
    | Open(id: nat, stage: Stage, evidence: Evidence, now: int)
    | Learn(id: nat, evidence: Evidence, touches: bool, now: int)   // another job stores a result, and may write the row
    | SignalAtCollection(id: nat, now: int)
    | RunPipeline(batch: seq<nat>, run: Run, end: End)
    | Decide(id: nat, link: Link, verb: Verb, key: string, reason: string, now: int)

  predicate Grows(a: Evidence, b: Evidence) {
    (a.axes ==> b.axes) && (a.memo ==> b.memo)
  }

  function Step(sys: System, action: Action): System {
    match action
    case Open(id, stage, evidence, now) =>
      if id in sys.opps || (stage != Discovered && stage != Received) then sys
      else sys.(opps := sys.opps[id := Opportunity(stage, stage, evidence, now)])
    case Learn(id, evidence, touches, now) =>
      if id !in sys.opps || !Grows(sys.opps[id].evidence, evidence) then sys
      else
        var o := sys.opps[id].(evidence := evidence);
        sys.(opps := sys.opps[id := if touches then o.(updatedAt := now) else o])
    case SignalAtCollection(id, now) =>
      if id in sys.opps && sys.opps[id].stage == Discovered then Transitioned(sys, id, Interesting, SignalCrossed, now) else sys
    case RunPipeline(batch, run, end) => Ran(sys, batch, run, end)
    case Decide(id, link, verb, key, reason, now) => Decided(sys, id, link, verb, key, reason, now)
  }

  function After(limit: nat, actions: seq<Action>): System {
    if actions == [] then System(map[], [], limit, [])
    else Step(After(limit, actions[..|actions| - 1]), actions[|actions| - 1])
  }

  // ----- what every run keeps -----

  // Following the log from the initial stage; None if an event does not start where the last one ended.
  function Replay(events: seq<DecisionEvent>, id: nat, initial: Stage): Option<Stage> {
    if events == [] then Some(initial)
    else
      var e, before := events[|events| - 1], Replay(events[..|events| - 1], id, initial);
      if e.opp != id then before else if before == Some(e.prior) then Some(e.next) else None
  }

  function Changes(events: seq<DecisionEvent>, id: nat): nat {
    if events == [] then 0
    else
      var e := events[|events| - 1];
      Changes(events[..|events| - 1], id) + (if e.opp == id && e.prior != e.next then 1 else 0)
  }

  predicate Early(s: Stage) { s == Discovered || s == Interesting }

  predicate NeedsMemo(s: Stage) { s == MemoReady || s == Hold || s == Approved }

  predicate NeedsAxes(s: Stage) { s == Diligence || NeedsMemo(s) }

  predicate OppOk(sys: System, id: nat)
    requires id in sys.opps
  {
    var o := sys.opps[id];
    && Replay(sys.events, id, o.initial) == Some(o.stage)
    && Changes(sys.events, id) + Rank(o.stage) <= Rank(o.initial)
    && (NeedsAxes(o.stage) ==> o.evidence.axes) && (NeedsMemo(o.stage) ==> o.evidence.memo)
    && CountRetries(sys.events, id) <= MAX_RETRIES
    && CountStarts(sys.events, id) <= (if Early(o.stage) then 0 else 1)
    && (Early(o.stage) ==> CountRetries(sys.events, id) == 0)
  }

  predicate KeysOnce(events: seq<DecisionEvent>) {
    forall i, j :: 0 <= i < j < |events| && events[i].key.Some? ==> events[i].key != events[j].key
  }

  ghost predicate Referenced(sys: System) {
    forall e :: e in sys.events ==> e.opp in sys.opps
  }

  ghost predicate Inv(sys: System) {
    && (forall id :: id in sys.opps ==> OppOk(sys, id))
    && Referenced(sys) && KeysOnce(sys.events) && sys.budget >= 0
  }

  lemma LastEvent(events: seq<DecisionEvent>, e: DecisionEvent, id: nat, initial: Stage)
    ensures Replay(events + [e], id, initial) ==
      if e.opp != id then Replay(events, id, initial)
      else if Replay(events, id, initial) == Some(e.prior) then Some(e.next) else None
    ensures Changes(events + [e], id) == Changes(events, id) + (if e.opp == id && e.prior != e.next then 1 else 0)
    ensures CountRetries(events + [e], id) == CountRetries(events, id) + (if MentionsRetry(e, id) then 1 else 0)
    ensures CountStarts(events + [e], id) == CountStarts(events, id) + (if MentionsStart(e, id) then 1 else 0)
  {
    assert (events + [e])[..|events|] == events;
  }

  // An event of opportunity id may have been logged, and its row written; nothing else of the database changed.
  ghost predicate Local(sys: System, sys': System, id: nat) {
    && id in sys.opps && sys'.opps.Keys == sys.opps.Keys
    && (forall k :: k in sys.opps && k != id ==> sys'.opps[k] == sys.opps[k])
    && (sys'.events == sys.events
        || (|sys'.events| == |sys.events| + 1 && sys'.events[..|sys.events|] == sys.events && sys'.events[|sys.events|].opp == id))
  }

  lemma OthersAreUntouched(sys: System, sys': System, id: nat, k: nat)
    requires Local(sys, sys', id) && k != id && k in sys.opps && OppOk(sys, k)
    ensures OppOk(sys', k)
  {
    if sys'.events != sys.events {
      var e := sys'.events[|sys.events|];
      assert sys'.events == sys.events + [e];
      LastEvent(sys.events, e, k, sys.opps[k].initial);
    }
  }

  lemma LocalKeepsReferences(sys: System, sys': System, id: nat)
    requires Referenced(sys) && Local(sys, sys', id)
    ensures Referenced(sys')
  {
    if sys'.events != sys.events { assert sys'.events == sys.events + [sys'.events[|sys.events|]]; }
  }

  lemma LocalKeepsInv(sys: System, sys': System, id: nat)
    requires Inv(sys) && Local(sys, sys', id) && OppOk(sys', id) && KeysOnce(sys'.events) && sys'.budget >= 0
    ensures Inv(sys')
  {
    LocalKeepsReferences(sys, sys', id);
    forall k | k in sys'.opps ensures OppOk(sys', k) {
      if k != id { OthersAreUntouched(sys, sys', id, k); }
    }
  }

  lemma NoneFound(events: seq<DecisionEvent>, key: string)
    ensures EventOfKey(events, key).None? <==> forall i :: 0 <= i < |events| ==> events[i].key != Some(key)
    ensures EventOfKey(events, key).Some? ==> EventOfKey(events, key).value in events && EventOfKey(events, key).value.key == Some(key)
  {
    if events != [] { NoneFound(events[..|events| - 1], key); }
  }

  lemma NewKeyOnce(events: seq<DecisionEvent>, e: DecisionEvent)
    requires KeysOnce(events) && (e.key.Some? ==> EventOfKey(events, e.key.value).None?)
    ensures KeysOnce(events + [e])
  {
    if e.key.Some? { NoneFound(events, e.key.value); }
  }

  // A stage change that the table allows, with the evidence its target needs.
  predicate ChangeOk(o: Opportunity, next: Stage) {
    next in Transitions(o.stage) && (NeedsAxes(next) ==> o.evidence.axes) && (NeedsMemo(next) ==> o.evidence.memo)
  }

  lemma RanksFall(a: Stage, b: Stage)
    requires b in Transitions(a)
    ensures Rank(b) < Rank(a) && (Early(b) ==> Early(a))
  {
  }

  // Reasons that mention no investigation.
  predicate Plain(reason: Reason) { !reason.PipelineRetry? && !reason.InvestigationStarted? }

  lemma RecordedIsOk(sys: System, id: nat, next: Stage, actor: Actor, reason: Reason,
                     key: Option<string>, verb: Option<Verb>, now: int)
    requires id in sys.opps && OppOk(sys, id) && ChangeOk(sys.opps[id], next) && Plain(reason)
    ensures OppOk(Recorded(sys, id, next, actor, reason, key, verb, now), id)
  {
    var o := sys.opps[id];
    RanksFall(o.stage, next);
    LastEvent(sys.events, DecisionEvent(id, o.stage, next, actor, reason, key, verb, now), id, o.initial);
  }

  lemma RecordKeepsInv(sys: System, id: nat, next: Stage, actor: Actor, reason: Reason,
                       key: Option<string>, verb: Option<Verb>, now: int)
    requires Inv(sys) && id in sys.opps && ChangeOk(sys.opps[id], next) && Plain(reason)
    requires key.Some? ==> EventOfKey(sys.events, key.value).None?
    ensures Inv(Recorded(sys, id, next, actor, reason, key, verb, now))
  {
    NewKeyOnce(sys.events, DecisionEvent(id, sys.opps[id].stage, next, actor, reason, key, verb, now));
    RecordedIsOk(sys, id, next, actor, reason, key, verb, now);
    LocalKeepsInv(sys, Recorded(sys, id, next, actor, reason, key, verb, now), id);
  }

  // The guards under which the pipeline makes each kind of move.
  predicate MoveOk(sys: System, id: nat, move: Move)
    requires id in sys.opps
  {
    var o := sys.opps[id];
    match move
    case Stay => true
    case Change(next, reason, starts) =>
      && ChangeOk(o, next) && (if starts then reason.InvestigationStarted? else Plain(reason))
      && (starts <==> next == Investigating) && (starts ==> o.stage == Interesting && sys.budget >= Cost(Investigation))
    case Note(kind, reason, _) =>
      && sys.budget >= Cost(kind) && (if kind == Investigation then reason.PipelineRetry? else Plain(reason))
      && (kind == Investigation ==> o.stage == Investigating && CountRetries(sys.events, id) < MAX_RETRIES)
  }

  lemma MovesAreGuarded(sys: System, id: nat, since: int)
    requires Inv(sys) && id in sys.opps
    ensures MoveOk(sys, id, MoveOf(sys, id, since))
  {
    assert OppOk(sys, id);
  }

  lemma NotedIsOk(sys: System, id: nat, kind: WorkKind, reason: Reason, touches: bool, t: Turn)
    requires id in sys.opps && OppOk(sys, id) && MoveOk(sys, id, Note(kind, reason, touches))
    ensures OppOk(Noted(Queue(sys, id, kind), id, reason, touches, t), id)
  {
    var o := sys.opps[id];
    LastEvent(sys.events, DecisionEvent(id, o.stage, o.stage, Pipeline, reason, None, None, t.start), id, o.initial);
  }

  // The event that notes queued work has no key.
  lemma NoteIsLocal(sys: System, id: nat, kind: WorkKind, reason: Reason, touches: bool, t: Turn)
    requires id in sys.opps && KeysOnce(sys.events)
    ensures var sys' := Noted(Queue(sys, id, kind), id, reason, touches, t);
      Local(sys, sys', id) && KeysOnce(sys'.events) && sys'.budget == sys.budget - Cost(kind)
  {
    NewKeyOnce(sys.events, DecisionEvent(id, sys.opps[id].stage, sys.opps[id].stage, Pipeline, reason, None, None, t.start));
  }

  lemma NoteKeepsInv(sys: System, id: nat, kind: WorkKind, reason: Reason, touches: bool, t: Turn)
    requires Inv(sys) && id in sys.opps && MoveOk(sys, id, Note(kind, reason, touches))
    ensures Inv(Noted(Queue(sys, id, kind), id, reason, touches, t))
  {
    NotedIsOk(sys, id, kind, reason, touches, t);
    NoteIsLocal(sys, id, kind, reason, touches, t);
    LocalKeepsInv(sys, Noted(Queue(sys, id, kind), id, reason, touches, t), id);
  }

  function Started(sys: System, id: nat, reason: Reason, start: int): System
    requires id in sys.opps
  {
    Recorded(Queue(sys, id, Investigation), id, Investigating, Pipeline, reason, None, None, start)
  }

  lemma StartIsRecorded(sys: System, id: nat, move: Move, t: Turn)
    requires id in sys.opps && MoveOk(sys, id, move) && move.Change? && move.starts
    ensures Moved(sys, id, move, t) == Started(sys, id, move.reason, t.start)
    ensures sys.opps[id].stage == Interesting && move.reason.InvestigationStarted?
  {
  }

  lemma StartedIsOk(sys: System, id: nat, reason: Reason, start: int)
    requires id in sys.opps && OppOk(sys, id) && sys.opps[id].stage == Interesting && reason.InvestigationStarted?
    ensures OppOk(Started(sys, id, reason, start), id)
  {
    LastEvent(sys.events, DecisionEvent(id, Interesting, Investigating, Pipeline, reason, None, None, start), id, sys.opps[id].initial);
  }

  lemma StartIsLocal(sys: System, id: nat, reason: Reason, start: int)
    requires id in sys.opps && KeysOnce(sys.events)
    ensures var sys' := Started(sys, id, reason, start);
      Local(sys, sys', id) && KeysOnce(sys'.events) && sys'.budget == sys.budget - Cost(Investigation)
  {
    NewKeyOnce(sys.events, DecisionEvent(id, sys.opps[id].stage, Investigating, Pipeline, reason, None, None, start));
  }

  lemma StartKeepsInv(sys: System, id: nat, move: Move, t: Turn)
    requires Inv(sys) && id in sys.opps && MoveOk(sys, id, move) && move.Change? && move.starts
    ensures Inv(Moved(sys, id, move, t))
  {
    StartIsRecorded(sys, id, move, t);
    StartedIsOk(sys, id, move.reason, t.start);
    StartIsLocal(sys, id, move.reason, t.start);
    LocalKeepsInv(sys, Started(sys, id, move.reason, t.start), id);
  }

  lemma MoveKeepsInv(sys: System, id: nat, move: Move, t: Turn)
    requires Inv(sys) && id in sys.opps && MoveOk(sys, id, move)
    ensures Inv(Moved(sys, id, move, t))
  {
    match move
    case Stay =>
    case Note(kind, reason, touches) => NoteKeepsInv(sys, id, kind, reason, touches, t);
    case Change(next, reason, starts) =>
      if starts { StartKeepsInv(sys, id, move, t); }
      else { RecordKeepsInv(sys, id, next, Pipeline, reason, None, None, t.start); }
  }

  lemma AdvanceKeepsInv(sys: System, id: nat, t: Turn)
    requires Inv(sys)
    ensures Inv(AdvanceOne(sys, id, t))
  {
    if id in sys.opps {
      MovesAreGuarded(sys, id, t.Since());
      MoveKeepsInv(sys, id, MoveOf(sys, id, t.Since()), t);
    }
  }

  lemma {:induction false} TurnsKeepInv(sys: System, batch: seq<nat>, run: Run)
    requires Inv(sys)
    ensures Inv(Advanced(sys, batch, run))
  {
    if batch != [] {
      var last := |batch| - 1;
      TurnsKeepInv(sys, batch[..last], run);
      AdvanceKeepsInv(Advanced(sys, batch[..last], run), batch[last], run.At(last));
    }
  }

  lemma SameDatabaseKeepsInv(sys: System, sys': System)
    requires Inv(sys) && sys'.opps == sys.opps && sys'.events == sys.events && sys'.budget >= 0
    ensures Inv(sys')
  {
    forall k | k in sys'.opps ensures OppOk(sys', k) { assert OppOk(sys, k); }
  }

  lemma RunKeepsInv(sys: System, batch: seq<nat>, run: Run, end: End)
    requires Inv(sys)
    ensures Inv(Ran(sys, batch, run, end))
  {
    var mid := Advanced(sys, Reached(batch, end), run);
    TurnsKeepInv(sys, Reached(batch, end), run);
    if end.Aborts? {
      if CutMove(sys, batch, run, end) != Stay { MovesAreGuarded(mid, batch[end.after], run.At(end.after).Since()); }
      SameDatabaseKeepsInv(sys, Ran(sys, batch, run, end));
    }
  }

  lemma {:induction false} NothingLogged(events: seq<DecisionEvent>, id: nat, initial: Stage)
    requires forall e :: e in events ==> e.opp != id
    ensures Replay(events, id, initial) == Some(initial) && Changes(events, id) == 0
    ensures CountRetries(events, id) == 0 && CountStarts(events, id) == 0
  {
    if events != [] {
      NothingLogged(events[..|events| - 1], id, initial);
      assert events[|events| - 1] in events;
    }
  }

  lemma OpeningKeepsInv(sys: System, id: nat, o: Opportunity)
    requires Inv(sys) && id !in sys.opps && o.stage == o.initial && (o.stage == Discovered || o.stage == Received)
    ensures Inv(sys.(opps := sys.opps[id := o]))
  {
    var sys' := sys.(opps := sys.opps[id := o]);
    NothingLogged(sys.events, id, o.initial);
    forall k | k in sys'.opps ensures OppOk(sys', k) {
      if k != id { assert OppOk(sys, k); }
    }
  }

  lemma LearningKeepsInv(sys: System, id: nat, o: Opportunity)
    requires Inv(sys) && id in sys.opps && Grows(sys.opps[id].evidence, o.evidence)
    requires o.stage == sys.opps[id].stage && o.initial == sys.opps[id].initial
    ensures Inv(sys.(opps := sys.opps[id := o]))
  {
    assert OppOk(sys, id);
    LocalKeepsInv(sys, sys.(opps := sys.opps[id := o]), id);
  }

  lemma DecisionKeepsInv(sys: System, id: nat, link: Link, verb: Verb, key: string, reason: string, now: int)
    requires Inv(sys)
    ensures Inv(Decided(sys, id, link, verb, key, reason, now))
  {
    if OutcomeOf(sys, id, link, verb, key, reason, now).Accepted? && EventOfKey(sys.events, key).None? {
      assert OppOk(sys, id);
      assert ChangeOk(sys.opps[id], StageFor(verb));
      RecordKeepsInv(sys, id, StageFor(verb), Human, Stated(reason), Some(key), Some(verb), now);
    }
  }

  lemma StepKeepsInv(sys: System, action: Action)
    requires Inv(sys)
    ensures Inv(Step(sys, action))
  {
    match action
    case Open(id, stage, evidence, now) =>
      if id !in sys.opps && (stage == Discovered || stage == Received) {
        OpeningKeepsInv(sys, id, Opportunity(stage, stage, evidence, now));
      }
    case Learn(id, evidence, _, _) =>
      if id in sys.opps && Grows(sys.opps[id].evidence, evidence) { LearningKeepsInv(sys, id, Step(sys, action).opps[id]); }
    case SignalAtCollection(id, now) =>
      if id in sys.opps && sys.opps[id].stage == Discovered {
        RecordKeepsInv(sys, id, Interesting, Pipeline, SignalCrossed, None, None, now);
      }
    case RunPipeline(batch, run, end) => RunKeepsInv(sys, batch, run, end);
    case Decide(id, link, verb, key, reason, now) => DecisionKeepsInv(sys, id, link, verb, key, reason, now);
  }

  lemma {:induction false} EveryRun(limit: nat, actions: seq<Action>)
    ensures Inv(After(limit, actions))
  {
    if actions != [] {
      EveryRun(limit, actions[..|actions| - 1]);
      StepKeepsInv(After(limit, actions[..|actions| - 1]), actions[|actions| - 1]);
    }
  }

  // ----- what that means -----

  /** Replaying the stored events from the initial stage yields the present stage, in every run. */
  lemma LogReplaysToStage(limit: nat, actions: seq<Action>, id: nat)
    requires id in After(limit, actions).opps
    ensures var sys := After(limit, actions);
      Replay(sys.events, id, sys.opps[id].initial) == Some(sys.opps[id].stage)
  {
    EveryRun(limit, actions);
    assert OppOk(After(limit, actions), id);
  }

  /** The stage changes at most as often as the rank of the initial stage: ten times from discovered. */
  lemma StageChangesAreBounded(limit: nat, actions: seq<Action>, id: nat)
    requires id in After(limit, actions).opps
    ensures var sys := After(limit, actions);
      Changes(sys.events, id) <= Rank(sys.opps[id].initial) - Rank(sys.opps[id].stage) <= 10
  {
    EveryRun(limit, actions);
    assert OppOk(After(limit, actions), id);
  }

  /** Late stages have the evidence their gates ask for. */
  lemma LateStagesHaveEvidence(limit: nat, actions: seq<Action>, id: nat)
    requires id in After(limit, actions).opps
    ensures var o := After(limit, actions).opps[id];
      && (o.stage in {Diligence, MemoReady, Hold, Approved} ==> o.evidence.axes)
      && (o.stage in {MemoReady, Hold, Approved} ==> o.evidence.memo)
  {
    EveryRun(limit, actions);
    assert OppOk(After(limit, actions), id);
  }

  /** The budget is never negative; a deal is noted as started at most once and as retried at most 3 times. */
  lemma BudgetAndAttemptsAreBounded(limit: nat, actions: seq<Action>, id: nat)
    ensures var sys := After(limit, actions); sys.budget >= 0 && (id in sys.opps ==> CountStarts(sys.events, id) <= 1 && CountRetries(sys.events, id) <= 3)
  {
    EveryRun(limit, actions);
    assert id in After(limit, actions).opps ==> OppOk(After(limit, actions), id);
  }

  lemma {:induction false} TurnsLeaveFinal(sys: System, batch: seq<nat>, run: Run, id: nat)
    requires id in sys.opps && Rank(sys.opps[id].stage) == 0
    ensures id in Advanced(sys, batch, run).opps && Advanced(sys, batch, run).opps[id] == sys.opps[id]
  {
    if batch != [] { TurnsLeaveFinal(sys, batch[..|batch| - 1], run, id); }
  }

  lemma StepLeavesFinal(sys: System, a: Action, id: nat)
    requires id in sys.opps && Rank(sys.opps[id].stage) == 0
    ensures id in Step(sys, a).opps && Step(sys, a).opps[id].stage == sys.opps[id].stage
  {
    if a.RunPipeline? { TurnsLeaveFinal(sys, Reached(a.batch, a.end), a.run, id); }
  }

  /** Approved and closed are absorbing. */
  lemma {:induction false} FinalStagesAreAbsorbing(limit: nat, actions: seq<Action>, more: seq<Action>, id: nat)
    requires id in After(limit, actions).opps && Rank(After(limit, actions).opps[id].stage) == 0
    ensures id in After(limit, actions + more).opps
    ensures After(limit, actions + more).opps[id].stage == After(limit, actions).opps[id].stage
  {
    if more == [] {
      assert actions + more == actions;
    } else {
      var init, a := more[..|more| - 1], more[|more| - 1];
      assert (actions + more)[..|actions + more| - 1] == actions + init;
      FinalStagesAreAbsorbing(limit, actions, init, id);
      StepLeavesFinal(After(limit, actions + init), a, id);
    }
  }

  /** Each idempotency key is stored at most once, whatever is decided and repeated. */
  lemma KeysTakeEffectOnce(limit: nat, actions: seq<Action>, i: nat, j: nat)
    requires i < j < |After(limit, actions).events|
    ensures var events := After(limit, actions).events; events[i].key.Some? ==> events[i].key != events[j].key
  {
    EveryRun(limit, actions);
  }

  // The log only grows: whatever happens next, what was written stays.
  lemma {:induction false} TurnsOnlyAppend(sys: System, batch: seq<nat>, run: Run)
    ensures sys.events <= Advanced(sys, batch, run).events
    ensures Advanced(sys, batch, run).opps.Keys == sys.opps.Keys
  {
    if batch != [] { TurnsOnlyAppend(sys, batch[..|batch| - 1], run); }
  }

  lemma {:induction false} LogOnlyGrows(limit: nat, actions: seq<Action>, more: seq<Action>)
    ensures After(limit, actions).events <= After(limit, actions + more).events
    ensures After(limit, actions).opps.Keys <= After(limit, actions + more).opps.Keys
  {
    if more == [] {
      assert actions + more == actions;
    } else {
      var init, a := more[..|more| - 1], more[|more| - 1];
      assert (actions + more)[..|actions + more| - 1] == actions + init;
      LogOnlyGrows(limit, actions, init);
      if a.RunPipeline? { TurnsOnlyAppend(After(limit, actions + init), Reached(a.batch, a.end), a.run); }
    }
  }

  lemma KeyIsRemembered(events: seq<DecisionEvent>, later: seq<DecisionEvent>, key: string)
    requires events <= later && KeysOnce(later) && EventOfKey(events, key).Some?
    ensures EventOfKey(later, key) == EventOfKey(events, key)
  {
    NoneFound(events, key);
    NoneFound(later, key);
    var i :| 0 <= i < |events| && events[i] == EventOfKey(events, key).value;
    assert later[i] == events[i];
    var j :| 0 <= j < |later| && later[j] == EventOfKey(later, key).value;
    assert i == j;
  }

  lemma DecisionIsStored(sys: System, id: nat, link: Link, verb: Verb, key: string, reason: string, now: int)
    requires OutcomeOf(sys, id, link, verb, key, reason, now).Accepted?
    ensures EventOfKey(Decided(sys, id, link, verb, key, reason, now).events, key) ==
      Some(OutcomeOf(sys, id, link, verb, key, reason, now).event)
  {
    var done := Decided(sys, id, link, verb, key, reason, now);
    if EventOfKey(sys.events, key).None? {
      assert done.events[..|done.events| - 1] == sys.events;
    }
  }

  function OutcomeIn(sys: System, action: Action): Outcome
    requires action.Decide?
  {
    OutcomeOf(sys, action.id, action.link, action.verb, action.key, action.reason, action.now)
  }

  /**
   Once a decision was accepted, and whatever runs and decisions follow it, the same request gets the
   same answer and changes nothing; any other request with that key is refused and changes nothing.
   */
  lemma AcceptedDecisionsAreFinal(limit: nat, actions: seq<Action>, more: seq<Action>, first: Action, again: Action)
    requires first.Decide? && again.Decide? && again.key == first.key
    requires OutcomeIn(After(limit, actions), first).Accepted?
    ensures var sys := After(limit, actions + [first] + more);
      && Step(sys, again) == sys
      && OutcomeIn(sys, again) ==
           if again.link.NoCandidate? then CandidateMissing
           else if again.id !in sys.opps || again.link.Unlinked? then NotLinked
           else if |again.reason| < 3 then BadReason
           else if again.id == first.id && again.verb == first.verb && again.reason == first.reason
             then OutcomeIn(After(limit, actions), first)
           else KeyReused
  {
    var before, done, sys := After(limit, actions), After(limit, actions + [first]), After(limit, actions + [first] + more);
    assert (actions + [first])[..|actions + [first]| - 1] == actions;
    DecisionIsStored(before, first.id, first.link, first.verb, first.key, first.reason, first.now);
    LogOnlyGrows(limit, actions + [first], more);
    EveryRun(limit, actions + [first] + more);
    KeyIsRemembered(done.events, sys.events, first.key);
    NoneFound(done.events, first.key);
  }

  // ----- the store -----

  class Store {
    var opps: map<nat, Opportunity>
    var events: seq<DecisionEvent>
    var budget: int
    var work: seq<Work>

    function View(): System
      reads this
    {
      System(opps, events, budget, work)
    }

    constructor (limit: nat)
      ensures View() == System(map[], [], limit, [])
    {
      opps, events, budget, work := map[], [], limit, [];
    }

    /** False is the error raised for a transition the table does not allow. */
    method TransitionOpportunity(id: nat, next: Stage, reason: Reason, now: int) returns (valid: bool)
      requires id in opps
      modifies this
      ensures valid == IsValidTransition(old(opps)[id].stage, next)
      ensures View() == Transitioned(old(View()), id, next, reason, now)
    {
      var o := opps[id];
      if !IsValidTransition(o.stage, next) {
        return false;
      }
      if o.stage == next {
        return true;
      }
      opps := opps[id := o.(stage := next, updatedAt := now)];
      events := events + [DecisionEvent(id, o.stage, next, Pipeline, reason, None, None, now)];
      return true;
    }

    /** The call is paid first; `cut` ends the run before the work is queued. */
    method QueueWork(id: nat, kind: WorkKind, cut: bool)
      modifies `budget, `work
      ensures budget == old(budget) - Cost(kind)
      ensures work == if cut then old(work) else old(work) + [Work(id, kind)]
    {
      budget := budget - Cost(kind);
      if !cut {
        work := work + [Work(id, kind)];
      }
    }

    method Note(id: nat, reason: Reason, touches: bool, t: Turn)
      requires id in opps
      modifies `opps, `events
      ensures View() == Noted(old(View()), id, reason, touches, t)
    {
      events := events + [DecisionEvent(id, opps[id].stage, opps[id].stage, Pipeline, reason, None, None, t.start)];
      if touches {
        opps := opps[id := opps[id].(updatedAt := t.now)];
      }
    }

    method QueueAndNote(id: nat, kind: WorkKind, reason: Reason, touches: bool, t: Turn, cut: bool)
      requires id in opps
      modifies this
      ensures !cut ==> View() == Noted(Queue(old(View()), id, kind), id, reason, touches, t)
      ensures cut ==> budget == old(budget) - Cost(kind) && work == old(work)
    {
      QueueWork(id, kind, cut);
      if !cut {
        Note(id, reason, touches, t);
      }
    }

    method AdvanceInvestigating(id: nat, t: Turn, cut: bool)
      requires id in opps && opps[id].stage == Investigating && opps[id].evidence.founder
      modifies this
      ensures !cut ==> View() == AdvanceOne(old(View()), id, t)
      ensures cut ==> budget == old(budget) - Price(MoveOf(old(View()), id, t.Since())) && work == old(work)
    {
      var o := opps[id];
      if !o.evidence.axes {
        if o.updatedAt > t.Since() {
          return;
        }
        var retries := CountRetries(events, id);
        if retries >= MAX_RETRIES {
          var _ := TransitionOpportunity(id, Closed, PipelineTimeout, t.start);
        } else if budget >= Cost(Investigation) {
          QueueAndNote(id, Investigation, PipelineRetry(retries + 1), true, t, cut);
        }
        return;
      }
      if !o.evidence.founderScore || !o.evidence.contactReady || budget <= 0 {
        return;
      }
      QueueAndNote(id, Draft, DraftRequested, true, t, cut);
    }

    /** A stage that waits for one output. */
    method PassGate(id: nat, ready: bool, kind: WorkKind, queued: Reason, next: Stage, done: Reason, t: Turn, cut: bool)
      requires id in opps
      modifies this
      ensures !cut && ready ==> View() == Transitioned(old(View()), id, next, done, t.start)
      ensures !cut && !ready && old(budget) >= Cost(kind) && !Recent(old(events), id, queued, t.Since()) ==>
        View() == Noted(Queue(old(View()), id, kind), id, queued, false, t)
      ensures !ready && (old(budget) < Cost(kind) || Recent(old(events), id, queued, t.Since())) ==> View() == old(View())
      ensures cut ==> work == old(work)
      ensures cut && ready ==> budget == old(budget)
      ensures cut && !ready && old(budget) >= Cost(kind) && !Recent(old(events), id, queued, t.Since()) ==>
        budget == old(budget) - Cost(kind)
    {
      if ready {
        var _ := TransitionOpportunity(id, next, done, t.start);
        return;
      }
      var recently := Recent(events, id, queued, t.Since());
      if budget >= Cost(kind) && !recently {
        QueueAndNote(id, kind, queued, false, t, cut);
      }
    }

    /** The turn of one deal; `cut` ends it once its call is paid. */
    method AdvanceOpportunity(id: nat, t: Turn, cut: bool)
      requires id in opps
      modifies this
      ensures !cut ==> View() == AdvanceOne(old(View()), id, t)
      ensures cut ==> budget == old(budget) - Price(MoveOf(old(View()), id, t.Since())) && work == old(work)
    {
      var o := opps[id];
      if !o.evidence.founder {
        return;
      }
      if o.stage == Discovered {
        if o.evidence.signal {
          var _ := TransitionOpportunity(id, Interesting, SignalCrossed, t.start);
        }
      } else if o.stage == Interesting {
        if o.evidence.axes || budget < Cost(Investigation) {
          return;
        }
        QueueWork(id, Investigation, cut);
        if !cut {
          var _ := TransitionOpportunity(id, Investigating, InvestigationStarted, t.start);
        }
      } else if o.stage == Investigating {
        AdvanceInvestigating(id, t, cut);
      } else if o.stage == Received {
        PassGate(id, o.evidence.claims, Processing, ProcessingQueued, Triage, ProcessingCompleted, t, cut);
      } else if o.stage == Triage {
        PassGate(id, o.evidence.founderScore, Scoring, FounderScoreQueued, Screening, TriageCompleted, t, cut);
      } else if o.stage == Screening {
        PassGate(id, o.evidence.axes, Research, ResearchQueued, Diligence, AxesCompleted, t, cut);
      } else if o.stage == Diligence {
        PassGate(id, o.evidence.memo, MemoWriting, MemoQueued, MemoReady, MemoGenerated, t, cut);
      }
    }

    /** The loop over the batch fetched, in one transaction; a run that aborts is rolled back. */
    method AdvancePipeline(batch: seq<nat>, run: Run, end: End)
      modifies this
      ensures View() == Ran(old(View()), batch, run, end)
    {
      var storedOpps, storedEvents := opps, events;
      for n := 0 to |batch|
        invariant View() == Advanced(old(View()), batch[..n], run)
        invariant end.Aborts? ==> n <= end.after
      {
        assert batch[..n + 1][..n] == batch[..n];
        var cut := end.Aborts? && end.after == n;
        if batch[n] in opps && (!cut || end.paid) {
          AdvanceOpportunity(batch[n], run.At(n), cut);
        }
        if cut {
          opps, events := storedOpps, storedEvents;
          return;
        }
      }
      assert batch[..|batch|] == batch;
      if end.Aborts? {
        opps, events := storedOpps, storedEvents;
      }
    }

    method RecordDecision(id: nat, link: Link, verb: Verb, key: string, reason: string, now: int) returns (outcome: Outcome)
      modifies this
      ensures outcome == OutcomeOf(old(View()), id, link, verb, key, reason, now)
      ensures View() == Decided(old(View()), id, link, verb, key, reason, now)
    {
      if !(1 <= |key| <= 128) {
        return BadKey;
      }
      if link.NoCandidate? {
        return CandidateMissing;
      }
      if id !in opps || link.Unlinked? {
        return NotLinked;
      }
      if |reason| < 3 {
        return BadReason;
      }
      var existing := EventOfKey(events, key);
      if existing.Some? {
        var e := existing.value;
        if e.opp != id || e.verb != Some(verb) || e.reason != Stated(reason) {
          return KeyReused;
        }
        return Accepted(e);
      }
      var prior, next := opps[id].stage, StageFor(verb);
      if !IsValidTransition(prior, next) || prior == next {
        return NotAllowed;
      }
      if !opps[id].evidence.memo {
        return MemoRequired;
      }
      var e := DecisionEvent(id, prior, next, Human, Stated(reason), Some(key), Some(verb), now);
      opps := opps[id := opps[id].(stage := next, updatedAt := now)];
      events := events + [e];
      return Accepted(e);
    }
  }
}
