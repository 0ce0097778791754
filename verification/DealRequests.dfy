/**
 The work the pipeline requests (backend/app/agents/lifecycle_job.py): what runs that commit and runs that
 do not spend on it, what the log says of it, how often a deal is investigated, and how far requests for
 one deal are apart.
 */
module DealRequests {
  import opened Options
  import opened DealLifecycle

  // ----- requests -----

  // A call the pipeline paid for: the deal and the kind of work, the start of the run's transaction, the
  // time from which the stuck interval counts, and the time of the request itself; whether the work was
  // queued, and whether the run committed, which puts it on the log.
  datatype Request = Request(opp: nat, kind: WorkKind, start: int, since: int, at: int, queued: bool, logged: bool)

  function RequestOfMove(id: nat, move: Move, t: Turn, queued: bool, logged: bool): seq<Request> {
    match move
    case Stay => []
    case Change(_, _, starts) => if starts then [Request(id, Investigation, t.start, t.start, t.now, queued, logged)] else []
    case Note(kind, _, touches) => [Request(id, kind, t.start, if touches then t.now else t.start, t.now, queued, logged)]
  }

  function RequestOfTurn(sys: System, id: nat, t: Turn, queued: bool, logged: bool): seq<Request> {
    if id in sys.opps then RequestOfMove(id, MoveOf(sys, id, t.Since()), t, queued, logged) else []
  }

  function RequestsOfTurns(sys: System, batch: seq<nat>, run: Run, logged: bool): seq<Request> {
    if batch == [] then []
    else
      var last := |batch| - 1;
      RequestsOfTurns(sys, batch[..last], run, logged)
        + RequestOfTurn(Advanced(sys, batch[..last], run), batch[last], run.At(last), true, logged)
  }

  // The turn a run was cut in: its call is paid, and its work not queued.
  function RequestOfCut(sys: System, batch: seq<nat>, run: Run, end: End): seq<Request> {
    if CutInTurn(batch, end)
    then RequestOfTurn(Advanced(sys, Reached(batch, end), run), batch[end.after], run.At(end.after), false, false) else []
  }

  function RequestsOfRun(sys: System, batch: seq<nat>, run: Run, end: End): seq<Request> {
    RequestsOfTurns(sys, Reached(batch, end), run, end.Commits?) + RequestOfCut(sys, batch, run, end)
  }

  function RequestsOfStep(sys: System, a: Action): seq<Request> {
    match a
    case RunPipeline(batch, run, end) => RequestsOfRun(sys, batch, run, end)
    case _ => []
  }

  function AllRequests(limit: nat, actions: seq<Action>): seq<Request> {
    if actions == [] then []
    else
      var init, a := actions[..|actions| - 1], actions[|actions| - 1];
      AllRequests(limit, init) + RequestsOfStep(After(limit, init), a)
  }

  // ----- what requests leave in Redis -----

  function WorkOf(r: Request): Work { Work(r.opp, r.kind) }

  function QueuedWork(rs: seq<Request>): seq<Work> {
    if rs == [] then []
    else QueuedWork(rs[..|rs| - 1]) + (if rs[|rs| - 1].queued then [WorkOf(rs[|rs| - 1])] else [])
  }

  function Spent(rs: seq<Request>): nat {
    if rs == [] then 0 else Spent(rs[..|rs| - 1]) + Cost(rs[|rs| - 1].kind)
  }

  lemma OneMoreQueued(rs: seq<Request>, r: Request)
    ensures QueuedWork(rs + [r]) == if r.queued then QueuedWork(rs) + [WorkOf(r)] else QueuedWork(rs)
    ensures Spent(rs + [r]) == Spent(rs) + Cost(r.kind)
  {
    assert (rs + [r])[..|rs|] == rs;
  }

  ghost predicate InRedis(limit: nat, rs: seq<Request>, sys: System) {
    sys.work == QueuedWork(rs) && limit - sys.budget == Spent(rs)
  }

  // What a move does to Redis.
  lemma MovedInRedis(sys: System, id: nat, move: Move, t: Turn)
    requires id in sys.opps
    ensures var sys' := Moved(sys, id, move, t);
      && sys'.budget == sys.budget - Price(move)
      && sys'.work == match KindOfMove(move) case None => sys.work case Some(kind) => sys.work + [Work(id, kind)]
  {
  }

  lemma MoveInRedis(limit: nat, rs: seq<Request>, sys: System, id: nat, move: Move, t: Turn, logged: bool)
    requires id in sys.opps && InRedis(limit, rs, sys)
    ensures InRedis(limit, rs + RequestOfMove(id, move, t, true, logged), Moved(sys, id, move, t))
  {
    MovedInRedis(sys, id, move, t);
    var r := RequestOfMove(id, move, t, true, logged);
    if r == [] { assert rs + r == rs; } else { OneMoreQueued(rs, r[0]); }
  }

  lemma TurnInRedis(limit: nat, rs: seq<Request>, sys: System, id: nat, t: Turn, logged: bool)
    requires InRedis(limit, rs, sys)
    ensures InRedis(limit, rs + RequestOfTurn(sys, id, t, true, logged), AdvanceOne(sys, id, t))
  {
    if id in sys.opps { MoveInRedis(limit, rs, sys, id, MoveOf(sys, id, t.Since()), t, logged); }
    else { assert rs + [] == rs; }
  }

  lemma Regroup(a: seq<Request>, b: seq<Request>, c: seq<Request>)
    ensures a + (b + c) == a + b + c
  {
  }

  lemma {:induction false} TurnsInRedis(limit: nat, rs: seq<Request>, sys: System, batch: seq<nat>, run: Run, logged: bool)
    requires InRedis(limit, rs, sys)
    ensures InRedis(limit, rs + RequestsOfTurns(sys, batch, run, logged), Advanced(sys, batch, run))
  {
    if batch == [] {
      assert rs + [] == rs;
    } else {
      var last := |batch| - 1;
      var before, mid := RequestsOfTurns(sys, batch[..last], run, logged), Advanced(sys, batch[..last], run);
      TurnsInRedis(limit, rs, sys, batch[..last], run, logged);
      TurnInRedis(limit, rs + before, mid, batch[last], run.At(last), logged);
      Regroup(rs, before, RequestOfTurn(mid, batch[last], run.At(last), true, logged));
    }
  }

  lemma CutInRedis(limit: nat, rs: seq<Request>, sys: System, batch: seq<nat>, run: Run, end: End)
    requires end.Aborts? && InRedis(limit, rs, Advanced(sys, Reached(batch, end), run))
    ensures InRedis(limit, rs + RequestOfCut(sys, batch, run, end), Ran(sys, batch, run, end))
  {
    var r := RequestOfCut(sys, batch, run, end);
    if r == [] { assert rs + r == rs; } else { OneMoreQueued(rs, r[0]); }
  }

  lemma RunInRedis(limit: nat, rs: seq<Request>, sys: System, batch: seq<nat>, run: Run, end: End)
    requires InRedis(limit, rs, sys)
    ensures InRedis(limit, rs + RequestsOfRun(sys, batch, run, end), Ran(sys, batch, run, end))
  {
    var turns := RequestsOfTurns(sys, Reached(batch, end), run, end.Commits?);
    TurnsInRedis(limit, rs, sys, Reached(batch, end), run, end.Commits?);
    Regroup(rs, turns, RequestOfCut(sys, batch, run, end));
    if end.Aborts? { CutInRedis(limit, rs + turns, sys, batch, run, end); }
    else { assert rs + turns + [] == rs + turns; }
  }

  lemma StepInRedis(limit: nat, rs: seq<Request>, sys: System, a: Action)
    requires InRedis(limit, rs, sys)
    ensures InRedis(limit, rs + RequestsOfStep(sys, a), Step(sys, a))
  {
    if a.RunPipeline? { RunInRedis(limit, rs, sys, a.batch, a.run, a.end); }
    else { assert rs + [] == rs; }
  }

  /**
   In every run, whichever runs of the pipeline commit: the queue holds exactly the work of the requests
   whose work was queued, in order, and the calls spent are the cost of all requests.
   */
  lemma {:induction false} BudgetPaysForRequests(limit: nat, actions: seq<Action>)
    ensures var sys := After(limit, actions);
      && sys.work == QueuedWork(AllRequests(limit, actions)) && limit - sys.budget == Spent(AllRequests(limit, actions))
  {
    if actions != [] {
      var init := actions[..|actions| - 1];
      BudgetPaysForRequests(limit, init);
      StepInRedis(limit, AllRequests(limit, init), After(limit, init), actions[|actions| - 1]);
    }
  }

  // ----- what requests leave on the log -----

  datatype Entry = Entry(work: Work, at: int)

  function KindOf(reason: Reason): Option<WorkKind> {
    match reason
    case InvestigationStarted => Some(Investigation)
    case PipelineRetry(_) => Some(Investigation)
    case DraftRequested => Some(Draft)
    case ProcessingQueued => Some(Processing)
    case FounderScoreQueued => Some(Scoring)
    case ResearchQueued => Some(Research)
    case MemoQueued => Some(MemoWriting)
    case _ => None
  }

  function EntryOf(e: DecisionEvent): seq<Entry> {
    if e.actor.Human? then []
    else match KindOf(e.reason) case None => [] case Some(kind) => [Entry(Work(e.opp, kind), e.at)]
  }

  // The requests the log names, with the times it keeps.
  function LogOf(events: seq<DecisionEvent>): seq<Entry> {
    if events == [] then [] else LogOf(events[..|events| - 1]) + EntryOf(events[|events| - 1])
  }

  lemma LogOfAppend(events: seq<DecisionEvent>, e: DecisionEvent)
    ensures LogOf(events + [e]) == LogOf(events) + EntryOf(e)
  {
    assert (events + [e])[..|events|] == events;
  }

  function LoggedEntries(rs: seq<Request>): seq<Entry> {
    if rs == [] then []
    else
      var r := rs[|rs| - 1];
      LoggedEntries(rs[..|rs| - 1]) + (if r.logged then [Entry(WorkOf(r), r.start)] else [])
  }

  lemma OneMoreLogged(rs: seq<Request>, r: Request)
    ensures LoggedEntries(rs + [r]) == if r.logged then LoggedEntries(rs) + [Entry(WorkOf(r), r.start)] else LoggedEntries(rs)
  {
    assert (rs + [r])[..|rs|] == rs;
  }

  ghost predicate OnLog(rs: seq<Request>, events: seq<DecisionEvent>) {
    LogOf(events) == LoggedEntries(rs)
  }

  // A move of the pipeline follows the table, and queues work exactly if the reason it logs names that work.
  predicate Regular(o: Opportunity, move: Move) {
    match move
    case Stay => true
    case Change(next, reason, starts) =>
      && next in Transitions(o.stage) && KindOf(reason) == (if starts then Some(Investigation) else None)
      && (starts <==> next == Investigating) && (starts ==> o.stage == Interesting)
      && (o.stage == Investigating ==> next == Closed)
    case Note(kind, reason, touches) =>
      && KindOf(reason) == Some(kind) && (touches <==> kind == Investigation || kind == Draft)
      && (touches ==> o.stage == Investigating) && (kind == Draft ==> o.evidence.axes)
  }

  lemma MovesAreRegular(sys: System, id: nat, since: int)
    requires id in sys.opps
    ensures Regular(sys.opps[id], MoveOf(sys, id, since))
  {
  }

  function EventOfMove(o: Opportunity, id: nat, move: Move, start: int): seq<DecisionEvent> {
    match move
    case Stay => []
    case Change(next, reason, _) => [DecisionEvent(id, o.stage, next, Pipeline, reason, None, None, start)]
    case Note(_, reason, _) => [DecisionEvent(id, o.stage, o.stage, Pipeline, reason, None, None, start)]
  }

  // What a move does to the database.
  lemma MovedInDatabase(sys: System, id: nat, move: Move, t: Turn)
    requires id in sys.opps && Regular(sys.opps[id], move)
    ensures var sys', o := Moved(sys, id, move, t), sys.opps[id];
      && sys'.events == sys.events + EventOfMove(o, id, move, t.start)
      && sys'.opps == match move
           case Stay => sys.opps
           case Change(next, _, _) => sys.opps[id := o.(stage := next, updatedAt := t.start)]
           case Note(_, _, touches) => if touches then sys.opps[id := o.(updatedAt := t.now)] else sys.opps
  {
    if move.Change? { RanksFall(sys.opps[id].stage, move.next); }
  }

  lemma MoveIsOnLog(rs: seq<Request>, events: seq<DecisionEvent>, o: Opportunity, id: nat, move: Move, t: Turn)
    requires OnLog(rs, events) && Regular(o, move)
    ensures OnLog(rs + RequestOfMove(id, move, t, true, true), events + EventOfMove(o, id, move, t.start))
  {
    var r, e := RequestOfMove(id, move, t, true, true), EventOfMove(o, id, move, t.start);
    if e == [] { assert events + e == events; } else { LogOfAppend(events, e[0]); }
    if r == [] { assert rs + r == rs; } else { OneMoreLogged(rs, r[0]); }
  }

  lemma TurnIsOnLog(rs: seq<Request>, sys: System, id: nat, t: Turn)
    requires OnLog(rs, sys.events)
    ensures OnLog(rs + RequestOfTurn(sys, id, t, true, true), AdvanceOne(sys, id, t).events)
  {
    if id in sys.opps {
      var move := MoveOf(sys, id, t.Since());
      MovesAreRegular(sys, id, t.Since());
      MovedInDatabase(sys, id, move, t);
      MoveIsOnLog(rs, sys.events, sys.opps[id], id, move, t);
    } else {
      assert rs + [] == rs;
    }
  }

  lemma {:induction false} TurnsAreOnLog(rs: seq<Request>, sys: System, batch: seq<nat>, run: Run)
    requires OnLog(rs, sys.events)
    ensures OnLog(rs + RequestsOfTurns(sys, batch, run, true), Advanced(sys, batch, run).events)
  {
    if batch == [] {
      assert rs + [] == rs;
    } else {
      var last := |batch| - 1;
      var before, mid := RequestsOfTurns(sys, batch[..last], run, true), Advanced(sys, batch[..last], run);
      TurnsAreOnLog(rs, sys, batch[..last], run);
      TurnIsOnLog(rs + before, mid, batch[last], run.At(last));
      Regroup(rs, before, RequestOfTurn(mid, batch[last], run.At(last), true, true));
    }
  }

  predicate Unlogged(rs: seq<Request>) { forall r :: r in rs ==> !r.logged }

  lemma {:induction false} UnloggedAddsNothing(rs: seq<Request>, more: seq<Request>)
    requires Unlogged(more)
    ensures LoggedEntries(rs + more) == LoggedEntries(rs)
  {
    if more == [] {
      assert rs + more == rs;
    } else {
      var init, r := more[..|more| - 1], more[|more| - 1];
      assert rs + more == rs + init + [r];
      assert r in more;
      UnloggedAddsNothing(rs, init);
      OneMoreLogged(rs + init, r);
    }
  }

  // A request is on the log exactly if its run committed.
  lemma {:induction false} TurnsLog(sys: System, batch: seq<nat>, run: Run, logged: bool)
    ensures forall r :: r in RequestsOfTurns(sys, batch, run, logged) ==> r.logged == logged && r.queued
  {
    if batch != [] { TurnsLog(sys, batch[..|batch| - 1], run, logged); }
  }

  lemma RunLogs(sys: System, batch: seq<nat>, run: Run, end: End)
    ensures forall r :: r in RequestsOfRun(sys, batch, run, end) ==> r.logged == end.Commits? && (r.logged ==> r.queued)
  {
    TurnsLog(sys, Reached(batch, end), run, end.Commits?);
  }

  lemma RunIsOnLog(rs: seq<Request>, sys: System, batch: seq<nat>, run: Run, end: End)
    requires OnLog(rs, sys.events)
    ensures OnLog(rs + RequestsOfRun(sys, batch, run, end), Ran(sys, batch, run, end).events)
  {
    if end.Commits? {
      TurnsAreOnLog(rs, sys, batch, run);
      assert RequestsOfRun(sys, batch, run, end) == RequestsOfTurns(sys, batch, run, true);
    } else {
      RunLogs(sys, batch, run, end);
      UnloggedAddsNothing(rs, RequestsOfRun(sys, batch, run, end));
    }
  }

  lemma RecordIsOnLog(rs: seq<Request>, events: seq<DecisionEvent>, e: DecisionEvent)
    requires OnLog(rs, events) && (e.actor.Human? || KindOf(e.reason).None?)
    ensures OnLog(rs, events + [e])
  {
    LogOfAppend(events, e);
  }

  // Actions other than runs add at most one event, and it requests nothing.
  lemma OtherStepsRequestNothing(sys: System, a: Action)
    requires !a.RunPipeline?
    ensures Step(sys, a).events == sys.events || exists e ::
      Step(sys, a).events == sys.events + [e] && (e.actor.Human? || KindOf(e.reason).None?)
  {
  }

  lemma StepIsOnLog(rs: seq<Request>, sys: System, a: Action)
    requires OnLog(rs, sys.events)
    ensures OnLog(rs + RequestsOfStep(sys, a), Step(sys, a).events)
  {
    if a.RunPipeline? {
      RunIsOnLog(rs, sys, a.batch, a.run, a.end);
    } else {
      assert rs + [] == rs;
      OtherStepsRequestNothing(sys, a);
      if Step(sys, a).events != sys.events {
        var e :| Step(sys, a).events == sys.events + [e] && (e.actor.Human? || KindOf(e.reason).None?);
        RecordIsOnLog(rs, sys.events, e);
      }
    }
  }

  /** In every run the log names exactly the requests of the runs that committed, in order, at the start of their run. */
  lemma {:induction false} CommittedRequestsAreLogged(limit: nat, actions: seq<Action>)
    ensures LogOf(After(limit, actions).events) == LoggedEntries(AllRequests(limit, actions))
  {
    if actions != [] {
      var init := actions[..|actions| - 1];
      CommittedRequestsAreLogged(limit, init);
      StepIsOnLog(AllRequests(limit, init), After(limit, init), actions[|actions| - 1]);
    }
  }

  // ----- where the log and Redis agree -----

  function Works(log: seq<Entry>): (work: seq<Work>)
    ensures |work| == |log|
  {
    if log == [] then [] else Works(log[..|log| - 1]) + [log[|log| - 1].work]
  }

  function CostOf(log: seq<Entry>): nat {
    if log == [] then 0 else CostOf(log[..|log| - 1]) + Cost(log[|log| - 1].work.kind)
  }

  lemma OneMoreEntry(log: seq<Entry>, x: Entry)
    ensures Works(log + [x]) == Works(log) + [x.work] && CostOf(log + [x]) == CostOf(log) + Cost(x.work.kind)
  {
    assert (log + [x])[..|log|] == log;
  }

  // The log names all requests, or all whose work was queued.
  predicate AllLogged(rs: seq<Request>, queued: bool) { forall r :: r in rs && (queued ==> r.queued) ==> r.logged }

  predicate LoggedAreQueued(rs: seq<Request>) { forall r :: r in rs && r.logged ==> r.queued }

  lemma SplitLast(rs: seq<Request>)
    requires rs != []
    ensures var init, r := rs[..|rs| - 1], rs[|rs| - 1];
      && rs == init + [r]
      && (AllLogged(rs, true) <==> AllLogged(init, true) && (r.queued ==> r.logged))
      && (AllLogged(rs, false) <==> AllLogged(init, false) && r.logged)
      && (LoggedAreQueued(rs) <==> LoggedAreQueued(init) && (r.logged ==> r.queued))
  {
    var init, r := rs[..|rs| - 1], rs[|rs| - 1];
    assert rs == init + [r];
  }

  lemma {:induction false} LoggedWorkIsPart(rs: seq<Request>)
    requires LoggedAreQueued(rs)
    ensures |LoggedEntries(rs)| <= |QueuedWork(rs)|
    ensures AllLogged(rs, true) ==> Works(LoggedEntries(rs)) == QueuedWork(rs)
    ensures !AllLogged(rs, true) ==> |LoggedEntries(rs)| < |QueuedWork(rs)|
  {
    if rs != [] {
      var init, r := rs[..|rs| - 1], rs[|rs| - 1];
      SplitLast(rs);
      LoggedWorkIsPart(init);
      OneMoreQueued(init, r);
      OneMoreLogged(init, r);
      OneMoreEntry(LoggedEntries(init), Entry(WorkOf(r), r.start));
    }
  }

  // The last request costs something, so the log explains the cost exactly if it names the request.
  lemma LastCost(init: seq<Request>, r: Request)
    ensures Spent(init + [r]) == Spent(init) + Cost(r.kind)
    ensures CostOf(LoggedEntries(init + [r])) == CostOf(LoggedEntries(init)) + (if r.logged then Cost(r.kind) else 0)
  {
    OneMoreQueued(init, r);
    OneMoreLogged(init, r);
    OneMoreEntry(LoggedEntries(init), Entry(WorkOf(r), r.start));
  }

  lemma {:induction false} LoggedCostIsPart(rs: seq<Request>)
    ensures CostOf(LoggedEntries(rs)) <= Spent(rs)
    ensures AllLogged(rs, false) <==> CostOf(LoggedEntries(rs)) == Spent(rs)
  {
    if rs != [] {
      var init, r := rs[..|rs| - 1], rs[|rs| - 1];
      SplitLast(rs);
      LoggedCostIsPart(init);
      LastCost(init, r);
    }
  }

  lemma {:induction false} LoggedRequestsAreQueued(limit: nat, actions: seq<Action>)
    ensures LoggedAreQueued(AllRequests(limit, actions))
  {
    if actions != [] {
      var init, a := actions[..|actions| - 1], actions[|actions| - 1];
      LoggedRequestsAreQueued(limit, init);
      if a.RunPipeline? { RunLogs(After(limit, init), a.batch, a.run, a.end); }
    }
  }

  // Action k is a run that did not commit and requested something, or queued work for it.
  predicate AbortsWithRequests(limit: nat, actions: seq<Action>, k: nat, queued: bool)
    requires k < |actions|
  {
    && actions[k].RunPipeline? && actions[k].end.Aborts?
    && exists r :: r in RequestsOfStep(After(limit, actions[..k]), actions[k]) && (queued ==> r.queued)
  }

  lemma EarlierAborts(limit: nat, actions: seq<Action>, k: nat, queued: bool)
    requires k + 1 < |actions|
    ensures AbortsWithRequests(limit, actions, k, queued) == AbortsWithRequests(limit, actions[..|actions| - 1], k, queued)
  {
    assert actions[..|actions| - 1][..k] == actions[..k];
  }

  lemma AllLoggedAdd(before: seq<Request>, more: seq<Request>, queued: bool)
    ensures AllLogged(before + more, queued) <==> AllLogged(before, queued) && AllLogged(more, queued)
  {
    assert forall r :: r in before || r in more ==> r in before + more;
  }

  lemma LastRequests(limit: nat, actions: seq<Action>, queued: bool)
    requires actions != []
    ensures var init, last := actions[..|actions| - 1], |actions| - 1;
      AllLogged(AllRequests(limit, actions), queued) <==>
        AllLogged(AllRequests(limit, init), queued) && !AbortsWithRequests(limit, actions, last, queued)
  {
    var init, a := actions[..|actions| - 1], actions[|actions| - 1];
    AllLoggedAdd(AllRequests(limit, init), RequestsOfStep(After(limit, init), a), queued);
    if a.RunPipeline? { RunLogs(After(limit, init), a.batch, a.run, a.end); }
  }

  ghost predicate NoRunAborts(limit: nat, actions: seq<Action>, queued: bool) {
    forall k :: 0 <= k < |actions| ==> !AbortsWithRequests(limit, actions, k, queued)
  }

  lemma LastNoRunAborts(limit: nat, actions: seq<Action>, queued: bool)
    requires actions != []
    ensures var init, last := actions[..|actions| - 1], |actions| - 1;
      NoRunAborts(limit, actions, queued) <==> NoRunAborts(limit, init, queued) && !AbortsWithRequests(limit, actions, last, queued)
  {
    var init, last := actions[..|actions| - 1], |actions| - 1;
    forall k | 0 <= k < last ensures AbortsWithRequests(limit, actions, k, queued) == AbortsWithRequests(limit, init, k, queued) {
      EarlierAborts(limit, actions, k, queued);
    }
    if NoRunAborts(limit, actions, queued) {
      forall k | 0 <= k < last ensures !AbortsWithRequests(limit, init, k, queued) {
        assert !AbortsWithRequests(limit, actions, k, queued);
      }
    }
  }

  lemma {:induction false} AllLoggedIff(limit: nat, actions: seq<Action>, queued: bool)
    ensures AllLogged(AllRequests(limit, actions), queued) <==> NoRunAborts(limit, actions, queued)
  {
    if actions != [] {
      AllLoggedIff(limit, actions[..|actions| - 1], queued);
      LastRequests(limit, actions, queued);
      LastNoRunAborts(limit, actions, queued);
    }
  }

  /**
   The work queued is what the log says exactly if no run queued work without committing; the calls spent are
   what the log says exactly if no run paid for anything without committing.
   */
  lemma LogExplainsRedisIff(limit: nat, actions: seq<Action>)
    ensures var sys := After(limit, actions);
      && (sys.work == Works(LogOf(sys.events)) <==> NoRunAborts(limit, actions, true))
      && (limit - sys.budget == CostOf(LogOf(sys.events)) <==> NoRunAborts(limit, actions, false))
  {
    BudgetPaysForRequests(limit, actions);
    CommittedRequestsAreLogged(limit, actions);
    LoggedRequestsAreQueued(limit, actions);
    LoggedWorkIsPart(AllRequests(limit, actions));
    LoggedCostIsPart(AllRequests(limit, actions));
    AllLoggedIff(limit, actions, true);
    AllLoggedIff(limit, actions, false);
  }
}
