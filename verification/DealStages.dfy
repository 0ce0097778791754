/**
 Where a deal goes, and who sends it there: the forward step of each stage (backend/app/agents/lifecycle_job.py),
 and human decisions (backend/app/api/routes/candidates.py) as they stand in the log.
 */
module DealStages {
  import opened Options
  import opened DealLifecycle
  import opened DealRequests

  // ----- the table -----

  /**
   A deal moves down its chain one stage at a time; besides, an open one may be closed, an investigation
   may skip the contact, and a finished memo needs no hold.
   */
  lemma TableIsAChain(a: Stage, b: Stage)
    ensures b in Transitions(a) <==>
      || Rank(b) + 1 == Rank(a)
      || (b == Closed && a != Approved && a != Closed)
      || (a == Investigating && b == Received) || (a == MemoReady && b == Approved)
  {
  }

  // ----- one turn -----

  // Three retries are logged, the axes are still missing, and nobody wrote the row within the interval.
  predicate TimesOut(sys: System, id: nat, t: Turn)
    requires id in sys.opps
  {
    var o := sys.opps[id];
    o.stage == Investigating && o.evidence.founder && !o.evidence.axes && o.updatedAt <= t.now - t.stuck && CountRetries(sys.events, id) >= 3
  }

  /** The stage after a turn: the one successor exactly if its evidence is there, and closed exactly after the last retry. */
  lemma ForwardStep(sys: System, id: nat, t: Turn)
    requires id in sys.opps
    ensures id in AdvanceOne(sys, id, t).opps
    ensures var o, next := sys.opps[id], AdvanceOne(sys, id, t).opps[id].stage;
      match o.stage
      case Discovered => next == if o.evidence.founder && o.evidence.signal then Interesting else Discovered
      case Interesting => next == if o.evidence.founder && !o.evidence.axes && sys.budget >= 5 then Investigating else Interesting
      case Investigating => next == if TimesOut(sys, id, t) then Closed else Investigating
      case Received => next == if o.evidence.founder && o.evidence.claims then Triage else Received
      case Triage => next == if o.evidence.founder && o.evidence.founderScore then Screening else Triage
      case Screening => next == if o.evidence.founder && o.evidence.axes then Diligence else Screening
      case Diligence => next == if o.evidence.founder && o.evidence.memo then MemoReady else Diligence
      case _ => next == o.stage
  {
    MovesAreRegular(sys, id, t.Since());
    MovedInDatabase(sys, id, MoveOf(sys, id, t.Since()), t);
  }

  /** Collection moves a discovered deal on, with an event, and no other. */
  lemma CollectionSignals(sys: System, id: nat, now: int)
    ensures Step(sys, SignalAtCollection(id, now)) ==
      if id in sys.opps && sys.opps[id].stage == Discovered then
        sys.(opps := sys.opps[id := sys.opps[id].(stage := Interesting, updatedAt := now)],
             events := sys.events + [DecisionEvent(id, Discovered, Interesting, Pipeline, SignalCrossed, None, None, now)])
      else sys
  {
  }

  // Work is paid for and queued, or nothing is.
  predicate Asks(sys: System, sys': System, id: nat, kind: WorkKind, price: nat, asks: bool) {
    && sys'.budget == (if asks then sys.budget - price else sys.budget)
    && sys'.work == if asks then sys.work + [Work(id, kind)] else sys.work
  }

  predicate Idle(sys: System, sys': System) {
    sys'.budget == sys.budget && sys'.work == sys.work
  }

  predicate AsksForOutput(sys: System, sys': System, id: nat, ready: bool, kind: WorkKind, price: nat, reason: Reason, since: int) {
    if ready then Idle(sys, sys')
    else Asks(sys, sys', id, kind, price, sys.budget >= price && !Recent(sys.events, id, reason, since))
  }

  /** What a turn pays for and queues, by the stage of the deal. */
  lemma TurnAsks(sys: System, id: nat, t: Turn)
    requires id in sys.opps
    ensures var o, sys' := sys.opps[id], AdvanceOne(sys, id, t);
      var v, since := o.evidence, t.now - t.stuck;
      if !v.founder then Idle(sys, sys')
      else match o.stage
        case Interesting => Asks(sys, sys', id, Investigation, 5, !v.axes && sys.budget >= 5)
        case Investigating =>
          if v.axes then Asks(sys, sys', id, Draft, 1, v.founderScore && v.contactReady && sys.budget >= 1)
          else Asks(sys, sys', id, Investigation, 5, o.updatedAt <= since && CountRetries(sys.events, id) < 3 && sys.budget >= 5)
        case Received => AsksForOutput(sys, sys', id, v.claims, Processing, 1, ProcessingQueued, since)
        case Triage => AsksForOutput(sys, sys', id, v.founderScore, Scoring, 5, FounderScoreQueued, since)
        case Screening => AsksForOutput(sys, sys', id, v.axes, Research, 3, ResearchQueued, since)
        case Diligence => AsksForOutput(sys, sys', id, v.memo, MemoWriting, 1, MemoQueued, since)
        case _ => Idle(sys, sys')
  {
    MovedInRedis(sys, id, MoveOf(sys, id, t.Since()), t);
  }

  // ----- what the log may say -----

  predicate LawfulPipeline(e: DecisionEvent) {
    e.key.None? && e.verb.None? && match e.reason
      case SignalCrossed => e.prior == Discovered && e.next == Interesting
      case InvestigationStarted => e.prior == Interesting && e.next == Investigating
      case PipelineTimeout => e.prior == Investigating && e.next == Closed
      case PipelineRetry(_) => e.prior == Investigating && e.next == Investigating
      case DraftRequested => e.prior == Investigating && e.next == Investigating
      case ProcessingQueued => e.prior == Received && e.next == Received
      case ProcessingCompleted => e.prior == Received && e.next == Triage
      case FounderScoreQueued => e.prior == Triage && e.next == Triage
      case TriageCompleted => e.prior == Triage && e.next == Screening
      case ResearchQueued => e.prior == Screening && e.next == Screening
      case AxesCompleted => e.prior == Screening && e.next == Diligence
      case MemoQueued => e.prior == Diligence && e.next == Diligence
      case MemoGenerated => e.prior == Diligence && e.next == MemoReady
      case Stated(_) => false
  }

  predicate LawfulDecision(e: DecisionEvent) {
    e.key.Some? && e.reason.Stated? && e.verb.Some? && match e.verb.value
      case Proceed => e.next == Approved && (e.prior == MemoReady || e.prior == Hold)
      case PutOnHold => e.next == Hold && e.prior == MemoReady
      case Decline => e.next == Closed && e.prior != Approved && e.prior != Closed
  }

  predicate Lawful(e: DecisionEvent) {
    if e.actor.Human? then LawfulDecision(e) else LawfulPipeline(e)
  }

  predicate LawfulLog(events: seq<DecisionEvent>) {
    forall e :: e in events ==> Lawful(e)
  }

  predicate OpenedEarly(sys: System) {
    forall id :: id in sys.opps ==> sys.opps[id].initial == Discovered || sys.opps[id].initial == Received
  }

  lemma MoveIsLawful(sys: System, id: nat, since: int, start: int)
    requires id in sys.opps
    ensures LawfulLog(EventOfMove(sys.opps[id], id, MoveOf(sys, id, since), start))
  {
  }

  lemma LogsTogether(a: seq<DecisionEvent>, b: seq<DecisionEvent>)
    requires LawfulLog(a) && LawfulLog(b)
    ensures LawfulLog(a + b)
  {
  }

  lemma TurnIsLawful(sys: System, id: nat, t: Turn)
    requires LawfulLog(sys.events) && OpenedEarly(sys)
    ensures LawfulLog(AdvanceOne(sys, id, t).events) && OpenedEarly(AdvanceOne(sys, id, t))
  {
    if id in sys.opps {
      var move := MoveOf(sys, id, t.Since());
      MovesAreRegular(sys, id, t.Since());
      MovedInDatabase(sys, id, move, t);
      MoveIsLawful(sys, id, t.Since(), t.start);
      LogsTogether(sys.events, EventOfMove(sys.opps[id], id, move, t.start));
    }
  }

  lemma {:induction false} TurnsAreLawful(sys: System, batch: seq<nat>, run: Run)
    requires LawfulLog(sys.events) && OpenedEarly(sys)
    ensures LawfulLog(Advanced(sys, batch, run).events) && OpenedEarly(Advanced(sys, batch, run))
  {
    if batch != [] {
      var last := |batch| - 1;
      TurnsAreLawful(sys, batch[..last], run);
      TurnIsLawful(Advanced(sys, batch[..last], run), batch[last], run.At(last));
    }
  }

  // The stages from which a verb may lead on.
  predicate StageAllows(stage: Stage, verb: Verb) {
    match verb
    case Proceed => stage == MemoReady || stage == Hold
    case PutOnHold => stage == MemoReady
    case Decline => stage != Approved && stage != Closed
  }

  // The memo and the table leave the deal to a decision.
  predicate Decidable(o: Opportunity, verb: Verb) {
    o.evidence.memo && StageAllows(o.stage, verb)
  }

  lemma VerbIsAllowedIff(o: Opportunity, verb: Verb)
    ensures IsValidTransition(o.stage, StageFor(verb)) && o.stage != StageFor(verb) <==> StageAllows(o.stage, verb)
  {
    TableIsAChain(o.stage, StageFor(verb));
  }

  /** A decision under a new key is accepted exactly so. */
  lemma DecisionIsAcceptedIff(sys: System, id: nat, link: Link, verb: Verb, key: string, reason: string, now: int)
    requires EventOfKey(sys.events, key).None?
    ensures OutcomeOf(sys, id, link, verb, key, reason, now).Accepted? <==>
      1 <= |key| <= 128 && |reason| >= 3 && link == Founder && id in sys.opps && Decidable(sys.opps[id], verb)
  {
    if id in sys.opps { VerbIsAllowedIff(sys.opps[id], verb); }
  }

  /** And it is refused, in this order, for its key, the candidate, the link, the reason, the stage, and the memo. */
  lemma DecisionIsRefusedFor(sys: System, id: nat, link: Link, verb: Verb, key: string, reason: string, now: int)
    requires EventOfKey(sys.events, key).None?
    ensures var outcome := OutcomeOf(sys, id, link, verb, key, reason, now);
      && (outcome.BadKey? <==> key == "" || |key| > 128)
      && (outcome.CandidateMissing? <==> 1 <= |key| <= 128 && link == NoCandidate)
      && (outcome.NotLinked? <==> 1 <= |key| <= 128 && link != NoCandidate && (id !in sys.opps || link == Unlinked))
      && (outcome.BadReason? <==> 1 <= |key| <= 128 && link == Founder && id in sys.opps && |reason| < 3)
      && (outcome.NotAllowed? <==>
            1 <= |key| <= 128 && link == Founder && id in sys.opps && |reason| >= 3 && !StageAllows(sys.opps[id].stage, verb))
      && (outcome.MemoRequired? <==>
            && 1 <= |key| <= 128 && link == Founder && id in sys.opps && |reason| >= 3
            && StageAllows(sys.opps[id].stage, verb) && !sys.opps[id].evidence.memo)
      && !outcome.KeyReused?
  {
    if id in sys.opps { VerbIsAllowedIff(sys.opps[id], verb); }
  }

  /** It then sends the deal where its verb says, and is logged; a decision refused changes nothing. */
  lemma DecisionTakesEffect(sys: System, id: nat, link: Link, verb: Verb, key: string, reason: string, now: int)
    requires EventOfKey(sys.events, key).None?
    ensures var outcome, sys' := OutcomeOf(sys, id, link, verb, key, reason, now), Decided(sys, id, link, verb, key, reason, now);
      if outcome.Accepted? then
        && id in sys.opps && sys'.events == sys.events + [outcome.event] && Lawful(outcome.event)
        && outcome.event ==
             DecisionEvent(id, sys.opps[id].stage, outcome.event.next, Human, Stated(reason), Some(key), Some(verb), now)
        && sys'.opps == sys.opps[id := sys.opps[id].(stage := outcome.event.next, updatedAt := now)]
      else sys' == sys
  {
    DecisionIsAcceptedIff(sys, id, link, verb, key, reason, now);
  }

  lemma DecisionIsLawful(sys: System, id: nat, link: Link, verb: Verb, key: string, reason: string, now: int)
    requires LawfulLog(sys.events) && OpenedEarly(sys)
    ensures var sys' := Decided(sys, id, link, verb, key, reason, now); LawfulLog(sys'.events) && OpenedEarly(sys')
  {
    if EventOfKey(sys.events, key).None? { DecisionTakesEffect(sys, id, link, verb, key, reason, now); }
  }

  lemma StepIsLawful(sys: System, a: Action)
    requires LawfulLog(sys.events) && OpenedEarly(sys)
    ensures LawfulLog(Step(sys, a).events) && OpenedEarly(Step(sys, a))
  {
    match a
    case Open(_, _, _, _) =>
    case Learn(_, _, _, _) =>
    case SignalAtCollection(id, now) =>
    case RunPipeline(batch, run, end) => TurnsAreLawful(sys, Reached(batch, end), run);
    case Decide(id, link, verb, key, reason, now) => DecisionIsLawful(sys, id, link, verb, key, reason, now);
  }

  lemma {:induction false} EveryRunIsLawful(limit: nat, actions: seq<Action>)
    ensures LawfulLog(After(limit, actions).events) && OpenedEarly(After(limit, actions))
  {
    if actions != [] {
      EveryRunIsLawful(limit, actions[..|actions| - 1]);
      StepIsLawful(After(limit, actions[..|actions| - 1]), actions[|actions| - 1]);
    }
  }

  /** In every run: the pipeline closes a deal only after its retries, approves none, and holds none. */
  lemma PipelineOnlyTimesOut(limit: nat, actions: seq<Action>, e: DecisionEvent)
    requires e in After(limit, actions).events && e.actor.Pipeline?
    ensures e.next != Approved && e.next != Hold
    ensures e.next == Closed <==> e.reason == PipelineTimeout
    ensures e.next == Closed ==> e.prior == Investigating
  {
    EveryRunIsLawful(limit, actions);
    assert Lawful(e);
  }

  /** In every run the stored events say where each verb leads. */
  lemma VerbsLeadWhereTheySay(limit: nat, actions: seq<Action>, e: DecisionEvent)
    requires e in After(limit, actions).events
    ensures e.next == Approved <==> e.verb == Some(Proceed)
    ensures e.next == Hold <==> e.verb == Some(PutOnHold)
    ensures e.verb == Some(Decline) ==> e.next == Closed
    ensures e.verb.Some? <==> e.actor.Human?
  {
    EveryRunIsLawful(limit, actions);
    assert Lawful(e);
  }

  // ----- the stage is what the log says last -----

  // The last event that changed the stage of a deal.
  function LastChange(events: seq<DecisionEvent>, id: nat): Option<DecisionEvent> {
    if events == [] then None
    else
      var e := events[|events| - 1];
      if e.opp == id && e.prior != e.next then Some(e) else LastChange(events[..|events| - 1], id)
  }

  lemma {:induction false} ReplayEndsAtLastChange(events: seq<DecisionEvent>, id: nat, initial: Stage)
    requires Replay(events, id, initial).Some?
    ensures Replay(events, id, initial).value == match LastChange(events, id) case None => initial case Some(e) => e.next
    ensures LastChange(events, id).Some? ==> LastChange(events, id).value in events
  {
    if events != [] {
      var init, e := events[..|events| - 1], events[|events| - 1];
      ReplayEndsAtLastChange(init, id, initial);
    }
  }

  /**
   In every run a deal is approved, or on hold, exactly if the last event that changed its stage is an
   accepted decision with that verb.
   */
  lemma StageIsLastDecision(limit: nat, actions: seq<Action>, id: nat)
    requires id in After(limit, actions).opps
    ensures var sys := After(limit, actions); var stage, last := sys.opps[id].stage, LastChange(sys.events, id);
      && (stage == Approved <==> last.Some? && last.value.verb == Some(Proceed))
      && (stage == Hold <==> last.Some? && last.value.verb == Some(PutOnHold))
      && (stage == Closed <==> last.Some? && (last.value.verb == Some(Decline) || last.value.reason == PipelineTimeout))
  {
    var sys := After(limit, actions);
    LogReplaysToStage(limit, actions, id);
    ReplayEndsAtLastChange(sys.events, id, sys.opps[id].initial);
    EveryRunIsLawful(limit, actions);
    var last := LastChange(sys.events, id);
    if last.Some? { assert Lawful(last.value); }
  }
}
