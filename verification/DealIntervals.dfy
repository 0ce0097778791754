/**
 How far the requests of the pipeline for one deal are apart (backend/app/agents/lifecycle_job.py). The
 stuck interval counts from the time the database keeps, which for most requests is the start of the run:
 they are apart by the interval less the time the first run had taken until then.
 */
module DealIntervals {
  import opened Options
  import opened DealLifecycle
  import opened DealRequests
  import opened DealAttempts

  // Work queued because a stage waits for an output.
  predicate Gated(kind: WorkKind) {
    kind == Processing || kind == Scoring || kind == Research || kind == MemoWriting
  }

  predicate Same(a: Request, b: Request) { a.opp == b.opp && a.kind == b.kind }

  // How long its run had been going when the request was made.
  function Progress(r: Request): int { r.at - r.start }

  predicate GatesApart(rs: seq<Request>, stuck: int) {
    forall i, j :: 0 <= i < j < |rs| && rs[i].logged && Same(rs[i], rs[j]) && Gated(rs[i].kind) ==>
      rs[j].at - rs[i].at > stuck - Progress(rs[i])
  }

  predicate InvestigationsApart(rs: seq<Request>, stuck: int) {
    forall i, j :: 0 <= i < j < |rs| && rs[i].logged && Same(rs[i], rs[j]) && rs[i].kind == Investigation ==>
      rs[j].at - rs[i].at >= stuck - (rs[i].at - rs[i].since)
  }

  // ----- when a gate asks -----

  // The stage of the deal waits for the output of this work.
  predicate WaitsFor(o: Opportunity, kind: WorkKind) {
    o.evidence.founder && match o.stage
      case Received => !o.evidence.claims && kind == Processing
      case Triage => !o.evidence.founderScore && kind == Scoring
      case Screening => !o.evidence.axes && kind == Research
      case Diligence => !o.evidence.memo && kind == MemoWriting
      case _ => false
  }

  // The log holds such an entry of at least that time.
  predicate Remembers(log: seq<Entry>, work: Work, since: int) {
    exists x :: x in log && x.work == work && x.at >= since
  }

  lemma OneMoreRemembered(log: seq<Entry>, more: seq<Entry>, work: Work, since: int)
    ensures Remembers(log + more, work, since) <==> Remembers(log, work, since) || Remembers(more, work, since)
  {
    if Remembers(log, work, since) {
      var x :| x in log && x.work == work && x.at >= since;
      assert x in log + more;
    }
    if Remembers(more, work, since) {
      var x :| x in more && x.work == work && x.at >= since;
      assert x in log + more;
    }
  }

  // A reason of a gate.
  predicate Queues(reason: Reason) {
    reason.ProcessingQueued? || reason.FounderScoreQueued? || reason.ResearchQueued? || reason.MemoQueued?
  }

  lemma OneMoreRecent(events: seq<DecisionEvent>, e: DecisionEvent, id: nat, reason: Reason, since: int)
    ensures Recent(events + [e], id, reason, since) <==> Recent(events, id, reason, since) || RecentEvent(e, id, reason, since)
  {
    var more := events + [e];
    if Recent(more, id, reason, since) {
      var i :| 0 <= i < |more| && RecentEvent(more[i], id, reason, since);
      assert i < |events| ==> RecentEvent(events[i], id, reason, since);
    }
    if Recent(events, id, reason, since) {
      var i :| 0 <= i < |events| && RecentEvent(events[i], id, reason, since);
      assert more[i] == events[i];
    }
    if RecentEvent(e, id, reason, since) { assert more[|events|] == e; }
  }

  lemma EntryOfGate(e: DecisionEvent, id: nat, reason: Reason, since: int)
    requires Queues(reason)
    ensures Remembers(EntryOf(e), Work(id, KindOf(reason).value), since) <==> RecentEvent(e, id, reason, since)
  {
    if RecentEvent(e, id, reason, since) { assert EntryOf(e)[0] in EntryOf(e); }
  }

  lemma {:induction false} RecentIsRemembered(events: seq<DecisionEvent>, id: nat, reason: Reason, since: int)
    requires Queues(reason)
    ensures Recent(events, id, reason, since) <==> Remembers(LogOf(events), Work(id, KindOf(reason).value), since)
  {
    if events != [] {
      var init, e := events[..|events| - 1], events[|events| - 1];
      assert events == init + [e];
      RecentIsRemembered(init, id, reason, since);
      OneMoreRecent(init, e, id, reason, since);
      EntryOfGate(e, id, reason, since);
      OneMoreRemembered(LogOf(init), EntryOf(e), Work(id, KindOf(reason).value), since);
    }
  }

  // No logged request for this work started within the interval.
  predicate NoneSince(rs: seq<Request>, work: Work, since: int) {
    forall r :: r in rs && r.logged && WorkOf(r) == work ==> r.start < since
  }

  lemma OneMoreNoneSince(rs: seq<Request>, r: Request, work: Work, since: int)
    ensures NoneSince(rs + [r], work, since) <==> NoneSince(rs, work, since) && (r.logged && WorkOf(r) == work ==> r.start < since)
  {
  }

  lemma {:induction false} LoggedIsRemembered(rs: seq<Request>, work: Work, since: int)
    ensures Remembers(LoggedEntries(rs), work, since) <==> !NoneSince(rs, work, since)
  {
    if rs != [] {
      var init, r := rs[..|rs| - 1], rs[|rs| - 1];
      assert rs == init + [r];
      LoggedIsRemembered(init, work, since);
      OneMoreLogged(init, r);
      var x := Entry(WorkOf(r), r.start);
      assert x in [x];
      if r.logged { OneMoreRemembered(LoggedEntries(init), [x], work, since); }
      OneMoreNoneSince(init, r, work, since);
    }
  }

  // The reason a gate logs.
  function ReasonFor(kind: WorkKind): Reason
    requires Gated(kind)
  {
    match kind
    case Processing => ProcessingQueued
    case Scoring => FounderScoreQueued
    case Research => ResearchQueued
    case MemoWriting => MemoQueued
  }

  lemma GateRequests(sys: System, id: nat, t: Turn, kind: WorkKind)
    requires id in sys.opps && WaitsFor(sys.opps[id], kind)
    ensures Gated(kind) && KindOf(ReasonFor(kind)) == Some(kind)
    ensures RequestOfTurn(sys, id, t, true, true) != [] <==>
      sys.budget >= Cost(kind) && !Recent(sys.events, id, ReasonFor(kind), t.Since())
  {
  }

  /**
   In every run: a stage that waits for an output requests its work in the next run exactly if the budget
   allows, and every earlier request of a run that committed started longer ago than the interval.
   Requests of runs that did not commit do not count.
   */
  lemma GateRequestsIff(limit: nat, actions: seq<Action>, id: nat, t: Turn, kind: WorkKind)
    requires id in After(limit, actions).opps && WaitsFor(After(limit, actions).opps[id], kind)
    ensures var sys := After(limit, actions);
      RequestOfTurn(sys, id, t, true, true) != [] <==>
        sys.budget >= Cost(kind) && NoneSince(AllRequests(limit, actions), Work(id, kind), t.now - t.stuck)
  {
    var sys := After(limit, actions);
    GateRequests(sys, id, t, kind);
    RecentIsRemembered(sys.events, id, ReasonFor(kind), t.Since());
    CommittedRequestsAreLogged(limit, actions);
    LoggedIsRemembered(AllRequests(limit, actions), Work(id, kind), t.Since());
  }

  // ----- how far requests are apart -----

  predicate HasEvent(events: seq<DecisionEvent>, r: Request) {
    exists e :: e in events && EntryOf(e) == [Entry(WorkOf(r), r.start)]
  }

  // The log holds what committed runs requested, also while a run is under way.
  predicate Known(rs: seq<Request>, events: seq<DecisionEvent>) {
    forall r :: r in rs && r.logged ==> HasEvent(events, r)
  }

  // Between its investigation and its axes, the row is as old as the last investigation, or younger.
  predicate RowHolds(o: Opportunity, since: int) {
    !Early(o.stage) && (o.stage == Investigating && !o.evidence.axes ==> o.updatedAt >= since)
  }

  predicate Held(sys: System, r: Request) {
    r.opp in sys.opps && RowHolds(sys.opps[r.opp], r.since)
  }

  predicate RowsHold(rs: seq<Request>, sys: System) {
    forall r :: r in rs && r.logged && r.kind == Investigation ==> Held(sys, r)
  }

  // What all of rs keep from a further request.
  predicate NewIsApart(rs: seq<Request>, r: Request, stuck: int) {
    forall x :: x in rs && x.logged && Same(x, r) && Gated(x.kind) ==> r.at - x.at > stuck - Progress(x)
  }

  predicate NewInvestigationIsApart(rs: seq<Request>, r: Request, stuck: int) {
    forall x :: x in rs && x.logged && Same(x, r) && x.kind == Investigation ==> r.at - x.at >= stuck - (x.at - x.since)
  }

  lemma OneMoreGateApart(rs: seq<Request>, r: Request, stuck: int)
    requires GatesApart(rs, stuck) && NewIsApart(rs, r, stuck)
    ensures GatesApart(rs + [r], stuck)
  {
  }

  lemma OneMoreInvestigationApart(rs: seq<Request>, r: Request, stuck: int)
    requires InvestigationsApart(rs, stuck) && NewInvestigationIsApart(rs, r, stuck)
    ensures InvestigationsApart(rs + [r], stuck)
  {
  }

  lemma GateIsApart(rs: seq<Request>, sys: System, id: nat, t: Turn, queued: bool, logged: bool)
    requires Known(rs, sys.events)
    ensures forall r :: r in RequestOfTurn(sys, id, t, queued, logged) ==> NewIsApart(rs, r, t.stuck)
  {
    forall r, x | r in RequestOfTurn(sys, id, t, queued, logged) && x in rs && x.logged && Same(x, r) && Gated(x.kind)
      ensures r.at - x.at > t.stuck - Progress(x)
    {
      assert HasEvent(sys.events, x);
      var e :| e in sys.events && EntryOf(e) == [Entry(WorkOf(x), x.start)];
      var i :| 0 <= i < |sys.events| && sys.events[i] == e;
      assert e.opp == id && e.reason == ReasonFor(x.kind) && e.at == x.start;
      assert !Recent(sys.events, id, ReasonFor(x.kind), t.Since());
    }
  }

  lemma InvestigationIsApart(rs: seq<Request>, sys: System, id: nat, t: Turn, queued: bool, logged: bool)
    requires RowsHold(rs, sys)
    ensures forall r :: r in RequestOfTurn(sys, id, t, queued, logged) ==> NewInvestigationIsApart(rs, r, t.stuck)
  {
    forall r, x | r in RequestOfTurn(sys, id, t, queued, logged) && x in rs && x.logged && Same(x, r) && x.kind == Investigation
      ensures r.at - x.at >= t.stuck - (x.at - x.since)
    {
      assert Held(sys, x);
      MovesAreRegular(sys, id, t.Since());
    }
  }

  // All of it; the second part asks that rows do not go back in time.
  predicate Timed(rs: seq<Request>, sys: System, stuck: int, forward: bool) {
    && Known(rs, sys.events) && GatesApart(rs, stuck)
    && (forward ==> RowsHold(rs, sys) && InvestigationsApart(rs, stuck))
  }

  lemma KnownGrows(rs: seq<Request>, events: seq<DecisionEvent>, more: seq<DecisionEvent>)
    requires Known(rs, events)
    ensures Known(rs, events + more)
  {
    forall r | r in rs && r.logged ensures HasEvent(events + more, r) {
      assert HasEvent(events, r);
      var e :| e in events && EntryOf(e) == [Entry(WorkOf(r), r.start)];
      assert e in events + more;
    }
  }

  lemma NewIsKnown(rs: seq<Request>, events: seq<DecisionEvent>, o: Opportunity, id: nat, move: Move, t: Turn, logged: bool)
    requires Known(rs, events) && Regular(o, move)
    ensures Known(rs + RequestOfMove(id, move, t, true, logged), events + EventOfMove(o, id, move, t.start))
  {
    var asked, e := RequestOfMove(id, move, t, true, logged), EventOfMove(o, id, move, t.start);
    KnownGrows(rs, events, e);
    if asked != [] {
      assert EntryOf(e[0]) == [Entry(WorkOf(asked[0]), asked[0].start)] && e[0] in events + e;
      assert HasEvent(events + e, asked[0]);
    }
  }

  predicate WrittenBy(o: Opportunity, o': Opportunity, move: Move, t: Turn) {
    match move
    case Stay => o' == o
    case Change(next, _, _) => o' == o.(stage := next, updatedAt := t.start)
    case Note(_, _, touches) => o' == if touches then o.(updatedAt := t.now) else o
  }

  // What the pipeline writes keeps every row as young as the last investigation of its deal.
  lemma MoveHolds(o: Opportunity, o': Opportunity, move: Move, t: Turn, since: int)
    requires Regular(o, move) && RowHolds(o, since) && t.stuck >= 0
    requires move.Note? && move.kind == Investigation ==> !o.evidence.axes && o.updatedAt <= t.Since()
    requires WrittenBy(o, o', move, t)
    ensures RowHolds(o', since)
  {
    if move.Change? { RanksFall(o.stage, move.next); }
  }

  lemma RetryIsDue(sys: System, id: nat, since: int)
    requires id in sys.opps && MoveOf(sys, id, since).Note? && MoveOf(sys, id, since).kind == Investigation
    ensures !sys.opps[id].evidence.axes && sys.opps[id].updatedAt <= since
  {
  }

  lemma TurnHolds(rs: seq<Request>, sys: System, id: nat, t: Turn, r: Request)
    requires t.stuck >= 0 && Held(sys, r)
    ensures Held(AdvanceOne(sys, id, t), r)
  {
    if id in sys.opps {
      var move := MoveOf(sys, id, t.Since());
      MovesAreRegular(sys, id, t.Since());
      MovedInDatabase(sys, id, move, t);
      if r.opp == id {
        if move.Note? && move.kind == Investigation { RetryIsDue(sys, id, t.Since()); }
        MoveHolds(sys.opps[id], AdvanceOne(sys, id, t).opps[id], move, t, r.since);
      }
    }
  }

  lemma NewHolds(sys: System, id: nat, t: Turn, logged: bool)
    ensures forall r :: r in RequestOfTurn(sys, id, t, true, logged) && r.kind == Investigation ==> Held(AdvanceOne(sys, id, t), r)
  {
    if id in sys.opps {
      MovesAreRegular(sys, id, t.Since());
      MovedInDatabase(sys, id, MoveOf(sys, id, t.Since()), t);
    }
  }

  lemma TurnKeepsRows(rs: seq<Request>, sys: System, id: nat, t: Turn, logged: bool)
    requires t.stuck >= 0 && RowsHold(rs, sys)
    ensures RowsHold(rs + RequestOfTurn(sys, id, t, true, logged), AdvanceOne(sys, id, t))
  {
    NewHolds(sys, id, t, logged);
    forall r | r in rs && r.logged && r.kind == Investigation ensures Held(AdvanceOne(sys, id, t), r) {
      assert Held(sys, r);
      TurnHolds(rs, sys, id, t, r);
    }
  }

  lemma TurnIsKnown(rs: seq<Request>, sys: System, id: nat, t: Turn, logged: bool)
    requires Known(rs, sys.events)
    ensures Known(rs + RequestOfTurn(sys, id, t, true, logged), AdvanceOne(sys, id, t).events)
  {
    if id in sys.opps {
      var move := MoveOf(sys, id, t.Since());
      MovesAreRegular(sys, id, t.Since());
      MovedInDatabase(sys, id, move, t);
      NewIsKnown(rs, sys.events, sys.opps[id], id, move, t, logged);
    }
  }

  lemma TurnIsApart(rs: seq<Request>, sys: System, id: nat, t: Turn, queued: bool, logged: bool, forward: bool)
    requires Timed(rs, sys, t.stuck, forward)
    ensures var all := rs + RequestOfTurn(sys, id, t, queued, logged);
      GatesApart(all, t.stuck) && (forward ==> InvestigationsApart(all, t.stuck))
  {
    var asked := RequestOfTurn(sys, id, t, queued, logged);
    if asked == [] {
      assert rs + asked == rs;
    } else {
      assert asked == [asked[0]] && asked[0] in asked;
      GateIsApart(rs, sys, id, t, queued, logged);
      OneMoreGateApart(rs, asked[0], t.stuck);
      if forward {
        InvestigationIsApart(rs, sys, id, t, queued, logged);
        OneMoreInvestigationApart(rs, asked[0], t.stuck);
      }
    }
  }

  lemma TurnIsTimed(rs: seq<Request>, sys: System, id: nat, t: Turn, logged: bool, forward: bool)
    requires t.stuck >= 0 && Timed(rs, sys, t.stuck, forward)
    ensures Timed(rs + RequestOfTurn(sys, id, t, true, logged), AdvanceOne(sys, id, t), t.stuck, forward)
  {
    TurnIsApart(rs, sys, id, t, true, logged, forward);
    TurnIsKnown(rs, sys, id, t, logged);
    if forward { TurnKeepsRows(rs, sys, id, t, logged); }
  }

  lemma {:induction false} TurnsAreTimed(rs: seq<Request>, sys: System, batch: seq<nat>, run: Run, logged: bool, forward: bool)
    requires run.stuck >= 0 && Timed(rs, sys, run.stuck, forward)
    ensures Timed(rs + RequestsOfTurns(sys, batch, run, logged), Advanced(sys, batch, run), run.stuck, forward)
  {
    if batch == [] {
      assert rs + [] == rs;
    } else {
      var last := |batch| - 1;
      var before, mid := RequestsOfTurns(sys, batch[..last], run, logged), Advanced(sys, batch[..last], run);
      TurnsAreTimed(rs, sys, batch[..last], run, logged, forward);
      TurnIsTimed(rs + before, mid, batch[last], run.At(last), logged, forward);
      Regroup(rs, before, RequestOfTurn(mid, batch[last], run.At(last), true, logged));
    }
  }

  // Back to the database as it was: what the run requested is not logged.
  lemma AbortIsTimed(rs: seq<Request>, more: seq<Request>, sys: System, sys': System, stuck: int, forward: bool)
    requires Timed(rs, sys, stuck, forward) && Unlogged(more) && sys'.opps == sys.opps && sys'.events == sys.events
    requires GatesApart(rs + more, stuck) && (forward ==> InvestigationsApart(rs + more, stuck))
    ensures Timed(rs + more, sys', stuck, forward)
  {
    forall r | r in rs + more && r.logged ensures r in rs && HasEvent(sys'.events, r) {
      assert r !in more;
      assert HasEvent(sys.events, r);
    }
    if forward {
      forall r | r in rs + more && r.logged && r.kind == Investigation ensures Held(sys', r) {
        assert r !in more;
        assert Held(sys, r);
      }
    }
  }

  lemma RunIsTimed(rs: seq<Request>, sys: System, batch: seq<nat>, run: Run, end: End, forward: bool)
    requires run.stuck >= 0 && Timed(rs, sys, run.stuck, forward)
    ensures Timed(rs + RequestsOfRun(sys, batch, run, end), Ran(sys, batch, run, end), run.stuck, forward)
  {
    var reached := Reached(batch, end);
    var turns, cut := RequestsOfTurns(sys, reached, run, end.Commits?), RequestOfCut(sys, batch, run, end);
    TurnsAreTimed(rs, sys, reached, run, end.Commits?, forward);
    Regroup(rs, turns, cut);
    if CutInTurn(batch, end) {
      TurnIsApart(rs + turns, Advanced(sys, reached, run), batch[end.after], run.At(end.after), false, false, forward);
    } else {
      assert rs + turns + cut == rs + turns;
    }
    if end.Aborts? {
      RunLogs(sys, batch, run, end);
      AbortIsTimed(rs, turns + cut, sys, Ran(sys, batch, run, end), run.stuck, forward);
    }
  }

  // ----- other actions -----

  // Another job that writes the row of a deal under investigation does not set it back in time.
  predicate Forward(sys: System, a: Action) {
    a.Learn? && a.touches && a.id in sys.opps && sys.opps[a.id].stage == Investigating ==> sys.opps[a.id].updatedAt <= a.now
  }

  lemma OtherStepsHold(sys: System, a: Action, r: Request)
    requires !a.RunPipeline? && Forward(sys, a) && Held(sys, r)
    ensures Held(Step(sys, a), r)
  {
  }

  lemma StepIsTimed(rs: seq<Request>, sys: System, a: Action, stuck: int, forward: bool)
    requires stuck >= 0 && Timed(rs, sys, stuck, forward) && (a.RunPipeline? ==> a.run.stuck == stuck)
    requires forward ==> Forward(sys, a)
    ensures Timed(rs + RequestsOfStep(sys, a), Step(sys, a), stuck, forward)
  {
    if a.RunPipeline? {
      RunIsTimed(rs, sys, a.batch, a.run, a.end, forward);
    } else {
      assert rs + [] == rs;
      OtherStepsRequestNothing(sys, a);
      if Step(sys, a).events != sys.events {
        var e :| Step(sys, a).events == sys.events + [e];
        KnownGrows(rs, sys.events, [e]);
      }
      if forward {
        forall r | r in rs && r.logged && r.kind == Investigation ensures Held(Step(sys, a), r) {
          assert Held(sys, r);
          OtherStepsHold(sys, a, r);
        }
      }
    }
  }

  predicate RowsGoForward(limit: nat, actions: seq<Action>) {
    actions == [] ||
    var init, a := actions[..|actions| - 1], actions[|actions| - 1];
    RowsGoForward(limit, init) && Forward(After(limit, init), a)
  }

  ghost predicate SameInterval(actions: seq<Action>, stuck: int) {
    forall a :: a in actions && a.RunPipeline? ==> a.run.stuck == stuck
  }

  lemma {:induction false} EveryRunIsTimed(limit: nat, actions: seq<Action>, stuck: int, forward: bool)
    requires stuck >= 0 && SameInterval(actions, stuck) && (forward ==> RowsGoForward(limit, actions))
    ensures Timed(AllRequests(limit, actions), After(limit, actions), stuck, forward)
  {
    if actions != [] {
      var init, a := actions[..|actions| - 1], actions[|actions| - 1];
      assert a in actions;
      EveryRunIsTimed(limit, init, stuck, forward);
      StepIsTimed(AllRequests(limit, init), After(limit, init), a, stuck, forward);
    }
  }

  /**
   While an output is missing, two requests for it, of which the first is on the log, are more than the
   interval less the progress of the first run apart: in every run, whether the second run commits or not,
   and even if the clock goes back.
   */
  lemma GatesKeepTheInterval(limit: nat, actions: seq<Action>, stuck: int, i: nat, j: nat)
    requires stuck >= 0 && SameInterval(actions, stuck) && i < j < |AllRequests(limit, actions)|
    requires var rs := AllRequests(limit, actions); rs[i].logged && Same(rs[i], rs[j]) && Gated(rs[i].kind)
    ensures var rs := AllRequests(limit, actions); rs[j].at - rs[i].at > stuck - (rs[i].at - rs[i].start)
  {
    EveryRunIsTimed(limit, actions, stuck, false);
  }

  // A retry restarts the interval at its own time.
  lemma {:induction false} TurnsSince(sys: System, batch: seq<nat>, run: Run, logged: bool)
    ensures forall r :: r in RequestsOfTurns(sys, batch, run, logged) ==> r.since == r.start || r.since == r.at
  {
    if batch != [] { TurnsSince(sys, batch[..|batch| - 1], run, logged); }
  }

  lemma {:induction false} EverySince(limit: nat, actions: seq<Action>)
    ensures forall r :: r in AllRequests(limit, actions) ==> r.since == r.start || r.since == r.at
  {
    if actions != [] {
      var a := actions[|actions| - 1];
      EverySince(limit, actions[..|actions| - 1]);
      if a.RunPipeline? { TurnsSince(After(limit, actions[..|actions| - 1]), Reached(a.batch, a.end), a.run, a.end.Commits?); }
    }
  }

  /**
   The same for investigations, if no other job sets the row of a deal under investigation back in time;
   after a retry they even keep the whole interval.
   */
  lemma InvestigationsKeepTheInterval(limit: nat, actions: seq<Action>, stuck: int, i: nat, j: nat)
    requires stuck >= 0 && SameInterval(actions, stuck) && RowsGoForward(limit, actions)
    requires i < j < |AllRequests(limit, actions)|
    requires var rs := AllRequests(limit, actions); rs[i].logged && Same(rs[i], rs[j]) && rs[i].kind == Investigation
    ensures var rs := AllRequests(limit, actions);
      && rs[j].at - rs[i].at >= stuck - (rs[i].at - rs[i].since) && (rs[i].since == rs[i].start || rs[i].since == rs[i].at)
  {
    EveryRunIsTimed(limit, actions, stuck, true);
    EverySince(limit, actions);
    assert AllRequests(limit, actions)[i] in AllRequests(limit, actions);
  }

  // ----- the interval alone is not kept -----

  lemma OneMoreStep(limit: nat, actions: seq<Action>, a: Action)
    ensures After(limit, actions + [a]) == Step(After(limit, actions), a)
    ensures AllRequests(limit, actions + [a]) == AllRequests(limit, actions) + RequestsOfStep(After(limit, actions), a)
  {
    assert (actions + [a])[..|actions|] == actions;
  }

  lemma RunOverOne(sys: System, id: nat, run: Run)
    ensures Ran(sys, [id], run, Commits) == AdvanceOne(sys, id, run.At(0))
    ensures RequestsOfRun(sys, [id], run, Commits) == RequestOfTurn(sys, id, run.At(0), true, true)
  {
    var batch := [id];
    assert batch[..0] == [] && Advanced(sys, batch[..0], run) == sys;
    assert RequestsOfTurns(sys, batch[..0], run, true) == [];
    assert RequestsOfTurns(sys, batch, run, true) == RequestOfTurn(sys, id, run.At(0), true, true);
  }

  // A received deal without claims asks for them in a run.
  lemma RunAsksForClaims(sys: System, id: nat, run: Run)
    requires id in sys.opps && WaitsFor(sys.opps[id], Processing) && sys.budget >= 1
    requires !Recent(sys.events, id, ProcessingQueued, run.At(0).Since())
    ensures RequestsOfRun(sys, [id], run, Commits) == [Request(id, Processing, run.start, run.start, run.clock(0), true, true)]
    ensures Ran(sys, [id], run, Commits) == Noted(Queue(sys, id, Processing), id, ProcessingQueued, false, run.At(0))
  {
    RunOverOne(sys, id, run);
    assert MoveOf(sys, id, run.At(0).Since()) == Note(Processing, ProcessingQueued, false);
  }

  /**
   A received deal, a run, and a second run that reaches the deal just after the interval since the start of
   the first: the two requests are apart by the interval less the progress of the first run, and one.
   */
  lemma ProgressShortensInterval(limit: nat, evidence: Evidence, first: Run, second: Run)
    requires limit >= 2 && evidence.founder && !evidence.claims
    requires second.stuck == first.stuck && second.clock(0) == first.start + first.stuck + 1
    ensures var rs := AllRequests(limit,
        [Open(0, Received, evidence, 0)] + [RunPipeline([0], first, Commits)] + [RunPipeline([0], second, Commits)]);
      && |rs| == 2 && Same(rs[0], rs[1]) && rs[0].logged && rs[0].at == first.clock(0)
      && rs[1].at - rs[0].at == first.stuck - (first.clock(0) - first.start) + 1
  {
    var open, run1, run2 := Open(0, Received, evidence, 0), RunPipeline([0], first, Commits), RunPipeline([0], second, Commits);
    OneMoreStep(limit, [], open);
    assert [] + [open] == [open];
    OneMoreStep(limit, [open], run1);
    OneMoreStep(limit, [open] + [run1], run2);
    RunAsksForClaims(After(limit, [open]), 0, first);
    RunAsksForClaims(After(limit, [open] + [run1]), 0, second);
  }
}
