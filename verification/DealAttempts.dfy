/**
 How often the pipeline investigates one deal (backend/app/agents/lifecycle_job.py): at most four times in
 runs that commit, and once more in every run that tries it and does not commit.
 */
module DealAttempts {
  import opened DealLifecycle
  import opened DealRequests

  predicate Investigates(r: Request, id: nat) { r.opp == id && r.kind == Investigation }

  // The requests to investigate a deal made by runs that committed, or by those that did not.
  function Attempts(rs: seq<Request>, id: nat, logged: bool): nat {
    if rs == [] then 0
    else
      var r := rs[|rs| - 1];
      Attempts(rs[..|rs| - 1], id, logged) + (if Investigates(r, id) && r.logged == logged then 1 else 0)
  }

  // The calls spent on investigating a deal.
  function SpentOn(rs: seq<Request>, id: nat): nat {
    if rs == [] then 0
    else SpentOn(rs[..|rs| - 1], id) + (if Investigates(rs[|rs| - 1], id) then Cost(Investigation) else 0)
  }

  lemma {:induction false} SpentPerAttempt(rs: seq<Request>, id: nat)
    ensures SpentOn(rs, id) == 5 * (Attempts(rs, id, true) + Attempts(rs, id, false))
  {
    if rs != [] { SpentPerAttempt(rs[..|rs| - 1], id); }
  }

  lemma OneMoreAttempt(rs: seq<Request>, r: Request, id: nat, logged: bool)
    ensures Attempts(rs + [r], id, logged) == Attempts(rs, id, logged) + (if Investigates(r, id) && r.logged == logged then 1 else 0)
  {
    assert (rs + [r])[..|rs|] == rs;
  }

  lemma {:induction false} AttemptsAdd(a: seq<Request>, b: seq<Request>, id: nat, logged: bool)
    ensures Attempts(a + b, id, logged) == Attempts(a, id, logged) + Attempts(b, id, logged)
  {
    if b == [] {
      assert a + b == a;
    } else {
      var init, r := b[..|b| - 1], b[|b| - 1];
      assert a + b == a + init + [r];
      AttemptsAdd(a, init, id, logged);
      OneMoreAttempt(a + init, r, id, logged);
    }
  }

  // ----- runs that commit -----

  function AttemptsOnLog(log: seq<Entry>, id: nat): nat {
    if log == [] then 0
    else AttemptsOnLog(log[..|log| - 1], id) + (if log[|log| - 1].work == Work(id, Investigation) then 1 else 0)
  }

  lemma OneMoreOnLog(log: seq<Entry>, x: Entry, id: nat)
    ensures AttemptsOnLog(log + [x], id) == AttemptsOnLog(log, id) + (if x.work == Work(id, Investigation) then 1 else 0)
  {
    assert (log + [x])[..|log|] == log;
  }

  lemma EventCountsAttempts(log: seq<Entry>, e: DecisionEvent, id: nat)
    ensures AttemptsOnLog(log + EntryOf(e), id) ==
      AttemptsOnLog(log, id) + (if MentionsStart(e, id) then 1 else 0) + (if MentionsRetry(e, id) then 1 else 0)
  {
    if EntryOf(e) == [] { assert log + EntryOf(e) == log; } else { OneMoreOnLog(log, EntryOf(e)[0], id); }
  }

  lemma {:induction false} LogCountsAttempts(events: seq<DecisionEvent>, id: nat)
    ensures AttemptsOnLog(LogOf(events), id) == CountStarts(events, id) + CountRetries(events, id)
  {
    if events != [] {
      var init, e := events[..|events| - 1], events[|events| - 1];
      LogCountsAttempts(init, id);
      EventCountsAttempts(LogOf(init), e, id);
    }
  }

  lemma {:induction false} LoggedAttempts(rs: seq<Request>, id: nat)
    ensures AttemptsOnLog(LoggedEntries(rs), id) == Attempts(rs, id, true)
  {
    if rs != [] {
      var init, r := rs[..|rs| - 1], rs[|rs| - 1];
      assert rs == init + [r];
      LoggedAttempts(init, id);
      OneMoreLogged(init, r);
      OneMoreOnLog(LoggedEntries(init), Entry(WorkOf(r), r.start), id);
    }
  }

  // ----- runs that do not -----

  // A batch comes from one query and holds each deal once.
  predicate Distinct(batch: seq<nat>) {
    forall i, j :: 0 <= i < j < |batch| ==> batch[i] != batch[j]
  }

  lemma SplitBatch(batch: seq<nat>)
    requires batch != [] && Distinct(batch)
    ensures var init := batch[..|batch| - 1]; Distinct(init) && batch[|batch| - 1] !in init
  {
  }

  predicate Tries(rs: seq<Request>, id: nat) {
    exists r :: r in rs && Investigates(r, id)
  }

  lemma {:induction false} UntriedCountsNothing(rs: seq<Request>, id: nat, logged: bool)
    requires !Tries(rs, id)
    ensures Attempts(rs, id, logged) == 0
  {
    if rs != [] {
      var init, r := rs[..|rs| - 1], rs[|rs| - 1];
      assert r in rs;
      assert !Tries(init, id);
      UntriedCountsNothing(init, id, logged);
    }
  }

  predicate OnlyOf(rs: seq<Request>, batch: seq<nat>) { forall r :: r in rs ==> r.opp in batch }

  lemma {:induction false} TurnsServeTheBatch(sys: System, batch: seq<nat>, run: Run, logged: bool)
    ensures OnlyOf(RequestsOfTurns(sys, batch, run, logged), batch)
  {
    if batch != [] { TurnsServeTheBatch(sys, batch[..|batch| - 1], run, logged); }
  }

  // One turn tries its own deal at most once.
  lemma TurnTriesOnce(sys: System, k: nat, t: Turn, queued: bool, logged: bool, id: nat)
    ensures var rs := RequestOfTurn(sys, k, t, queued, logged);
      Attempts(rs, id, logged) == (if Tries(rs, id) then 1 else 0) && (Tries(rs, id) ==> k == id)
  {
    var rs := RequestOfTurn(sys, k, t, queued, logged);
    if rs != [] {
      assert rs == [rs[0]] && rs[..0] == [];
      assert Tries(rs, id) ==> Investigates(rs[0], id);
      assert Investigates(rs[0], id) ==> rs[0] in rs;
    }
  }

  // Both parts of some requests cannot try the same deal, so together they count it at most once.
  lemma TogetherOnce(a: seq<Request>, b: seq<Request>, id: nat, logged: bool)
    requires Attempts(a, id, logged) == (if Tries(a, id) then 1 else 0)
    requires Attempts(b, id, logged) == (if Tries(b, id) then 1 else 0)
    requires !Tries(a, id) || !Tries(b, id)
    ensures Attempts(a + b, id, logged) == (if Tries(a + b, id) then 1 else 0)
  {
    AttemptsAdd(a, b, id, logged);
    if Tries(a, id) {
      var r :| r in a && Investigates(r, id);
      assert r in a + b;
    }
    if Tries(b, id) {
      var r :| r in b && Investigates(r, id);
      assert r in a + b;
    }
  }

  lemma {:induction false} TurnsTryOnce(sys: System, batch: seq<nat>, run: Run, logged: bool, id: nat)
    requires Distinct(batch)
    ensures var rs := RequestsOfTurns(sys, batch, run, logged); Attempts(rs, id, logged) == if Tries(rs, id) then 1 else 0
  {
    if batch != [] {
      var last := |batch| - 1;
      SplitBatch(batch);
      TurnsTryOnce(sys, batch[..last], run, logged, id);
      TurnsServeTheBatch(sys, batch[..last], run, logged);
      TurnTriesOnce(Advanced(sys, batch[..last], run), batch[last], run.At(last), true, logged, id);
      TogetherOnce(RequestsOfTurns(sys, batch[..last], run, logged),
                   RequestOfTurn(Advanced(sys, batch[..last], run), batch[last], run.At(last), true, logged), id, logged);
    }
  }

  lemma ReachedIsDistinct(batch: seq<nat>, end: End)
    requires Distinct(batch)
    ensures Distinct(Reached(batch, end)) && (CutInTurn(batch, end) ==> batch[end.after] !in Reached(batch, end))
  {
  }

  lemma AbortedRunTriesOnce(sys: System, batch: seq<nat>, run: Run, end: End, id: nat)
    requires Distinct(batch) && end.Aborts?
    ensures var rs := RequestsOfRun(sys, batch, run, end); Attempts(rs, id, false) == if Tries(rs, id) then 1 else 0
  {
    var reached := Reached(batch, end);
    var turns, cut := RequestsOfTurns(sys, reached, run, false), RequestOfCut(sys, batch, run, end);
    ReachedIsDistinct(batch, end);
    TurnsTryOnce(sys, reached, run, false, id);
    if CutInTurn(batch, end) {
      TurnsServeTheBatch(sys, reached, run, false);
      TurnTriesOnce(Advanced(sys, reached, run), batch[end.after], run.At(end.after), false, false, id);
      TogetherOnce(turns, cut, id, false);
    } else {
      assert turns + cut == turns;
    }
  }

  lemma {:induction false} LoggedCountsNothing(rs: seq<Request>, id: nat)
    requires AllLogged(rs, false)
    ensures Attempts(rs, id, false) == 0
  {
    if rs != [] {
      SplitLast(rs);
      LoggedCountsNothing(rs[..|rs| - 1], id);
    }
  }

  // A run that starts or retries the deal, and does not commit.
  predicate TriesInVain(sys: System, a: Action, id: nat) {
    a.RunPipeline? && a.end.Aborts? && Tries(RequestsOfStep(sys, a), id)
  }

  lemma StepTriesOnce(sys: System, a: Action, id: nat)
    requires a.RunPipeline? ==> Distinct(a.batch)
    ensures Attempts(RequestsOfStep(sys, a), id, false) == if TriesInVain(sys, a, id) then 1 else 0
  {
    if a.RunPipeline? {
      if a.end.Aborts? {
        AbortedRunTriesOnce(sys, a.batch, a.run, a.end, id);
      } else {
        RunLogs(sys, a.batch, a.run, a.end);
        LoggedCountsNothing(RequestsOfRun(sys, a.batch, a.run, a.end), id);
      }
    }
  }

  function RunsInVain(limit: nat, actions: seq<Action>, id: nat): nat {
    if actions == [] then 0
    else
      var init, a := actions[..|actions| - 1], actions[|actions| - 1];
      RunsInVain(limit, init, id) + (if TriesInVain(After(limit, init), a, id) then 1 else 0)
  }

  ghost predicate DistinctBatches(actions: seq<Action>) {
    forall a :: a in actions && a.RunPipeline? ==> Distinct(a.batch)
  }

  lemma {:induction false} VainAttempts(limit: nat, actions: seq<Action>, id: nat)
    requires DistinctBatches(actions)
    ensures Attempts(AllRequests(limit, actions), id, false) == RunsInVain(limit, actions, id)
  {
    if actions != [] {
      var init, a := actions[..|actions| - 1], actions[|actions| - 1];
      assert a in actions;
      VainAttempts(limit, init, id);
      StepTriesOnce(After(limit, init), a, id);
      AttemptsAdd(AllRequests(limit, init), RequestsOfStep(After(limit, init), a), id, false);
    }
  }

  /**
   In every run the calls spent on investigating a deal are five for each start and retry on its log, which
   are at most four, and five for each run that started or retried it and did not commit.
   */
  lemma InvestigationIsBounded(limit: nat, actions: seq<Action>, id: nat)
    requires id in After(limit, actions).opps && DistinctBatches(actions)
    ensures var events, vain := After(limit, actions).events, RunsInVain(limit, actions, id);
      && SpentOn(AllRequests(limit, actions), id) == 5 * (CountStarts(events, id) + CountRetries(events, id) + vain)
      && SpentOn(AllRequests(limit, actions), id) <= 20 + 5 * vain
  {
    var rs, events := AllRequests(limit, actions), After(limit, actions).events;
    SpentPerAttempt(rs, id);
    VainAttempts(limit, actions, id);
    LoggedAttempts(rs, id);
    CommittedRequestsAreLogged(limit, actions);
    LogCountsAttempts(events, id);
    BudgetAndAttemptsAreBounded(limit, actions, id);
  }

  // ----- the bound of twenty calls fails -----

  // The same action, again and again.
  function Rerun(sys: System, a: Action, n: nat): System {
    if n == 0 then sys else Step(Rerun(sys, a, n - 1), a)
  }

  function Copies(work: seq<Work>, w: Work, n: nat): seq<Work> {
    if n == 0 then work else Copies(work, w, n - 1) + [w]
  }

  // A deal whose investigation the next run starts, if the budget allows.
  predicate AwaitsStart(sys: System, id: nat) {
    id in sys.opps && sys.opps[id].stage == Interesting && sys.opps[id].evidence.founder && !sys.opps[id].evidence.axes
  }

  // One run over the deal alone, which does not commit: cut after its turn, or between paying and queueing.
  lemma AbortedStart(sys: System, id: nat, run: Run, end: End)
    requires AwaitsStart(sys, id) && sys.budget >= 5 && end.Aborts? && (end.after == 0 ==> end.paid)
    ensures var sys' := Ran(sys, [id], run, end);
      && sys'.opps == sys.opps && sys'.events == sys.events && sys'.budget == sys.budget - 5
      && sys'.work == if end.after == 0 then sys.work else sys.work + [Work(id, Investigation)]
  {
    var batch := [id];
    var move := Change(Investigating, InvestigationStarted, true);
    assert batch[..0] == [] && Advanced(sys, batch[..0], run) == sys;
    assert MoveOf(sys, id, run.At(0).Since()) == move;
    MovedInRedis(sys, id, move, run.At(0));
    assert Advanced(sys, batch, run) == Moved(sys, id, move, run.At(0));
    if end.after == 0 { assert CutMove(sys, batch, run, end) == move; }
  }

  // What n such runs leave.
  ghost predicate SpentInVain(sys: System, sys': System, id: nat, end: End, n: nat) {
    && sys'.opps == sys.opps && sys'.events == sys.events && sys'.budget == sys.budget - 5 * n
    && sys'.work == if end.Aborts? && end.after == 0 then sys.work else Copies(sys.work, Work(id, Investigation), n)
  }

  lemma OnceMoreInVain(sys: System, sys': System, id: nat, run: Run, end: End, n: nat)
    requires AwaitsStart(sys, id) && sys.budget >= 5 * (n + 1) && SpentInVain(sys, sys', id, end, n)
    requires end.Aborts? && (end.after == 0 ==> end.paid)
    ensures SpentInVain(sys, Step(sys', RunPipeline([id], run, end)), id, end, n + 1)
  {
    AbortedStart(sys', id, run, end);
  }

  lemma {:induction false} RerunInVain(sys: System, id: nat, run: Run, end: End, n: nat)
    requires AwaitsStart(sys, id) && sys.budget >= 5 * n && end.Aborts? && (end.after == 0 ==> end.paid)
    ensures SpentInVain(sys, Rerun(sys, RunPipeline([id], run, end), n), id, end, n)
  {
    if n > 0 {
      RerunInVain(sys, id, run, end, n - 1);
      OnceMoreInVain(sys, Rerun(sys, RunPipeline([id], run, end), n - 1), id, run, end, n - 1);
    }
  }

  /**
   Whatever happened before: n runs over a deal that awaits its investigation, none of which commits, spend
   5 n calls and leave the deal and the log as they were. They queue n investigations, or none if each is
   cut between paying and queueing.
   */
  lemma AbortedRunsInvestigateAgain(limit: nat, actions: seq<Action>, id: nat, run: Run, end: End, n: nat)
    requires AwaitsStart(After(limit, actions), id) && After(limit, actions).budget >= 5 * n
    requires end.Aborts? && (end.after == 0 ==> end.paid)
    ensures var sys, sys' := After(limit, actions), Rerun(After(limit, actions), RunPipeline([id], run, end), n);
      && sys'.opps == sys.opps && sys'.events == sys.events && sys'.budget == sys.budget - 5 * n
      && sys'.work == if end.after == 0 then sys.work else Copies(sys.work, Work(id, Investigation), n)
  {
    RerunInVain(After(limit, actions), id, run, end, n);
  }

  lemma AfterTwo(limit: nat, a: Action, b: Action)
    ensures After(limit, [a, b]) == Step(Step(After(limit, []), a), b)
  {
    var one, two := [a], [a, b];
    assert two[..1] == one && one[..0] == [];
  }

  /** A deal that crosses the signal threshold, and five runs that do not commit: 25 calls on its investigation. */
  lemma TwentyCallsAreExceeded(evidence: Evidence, run: Run)
    requires evidence.founder && !evidence.axes
    ensures
      var sys := After(25, [Open(0, Discovered, evidence, 0), SignalAtCollection(0, 0)]);
      var sys' := Rerun(sys, RunPipeline([0], run, Aborts(1, false)), 5);
      && sys'.opps == sys.opps && sys'.events == sys.events
      && sys'.budget == 0 && sys'.work == Copies([], Work(0, Investigation), 5)
  {
    var open, signal := Open(0, Discovered, evidence, 0), SignalAtCollection(0, 0);
    AfterTwo(25, open, signal);
    AbortedRunsInvestigateAgain(25, [open, signal], 0, run, Aborts(1, false), 5);
  }
}
