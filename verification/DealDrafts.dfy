/**
 Requests for contact drafts (backend/app/agents/lifecycle_job.py), which keep no interval: a deal that is
 ready for outreach gets one in every run.
 */
module DealDrafts {
  import opened Options
  import opened DealLifecycle
  import opened DealRequests
  import opened DealAttempts

  // Ready for outreach, and outreach is all that keeps it in this stage.
  predicate AwaitsOutreach(sys: System, id: nat) {
    id in sys.opps && sys.opps[id].stage == Investigating && var v := sys.opps[id].evidence;
    v.founder && v.axes && v.founderScore && v.contactReady
  }

  predicate Drafts(rs: seq<Request>, id: nat) {
    exists r :: r in rs && r.opp == id && r.kind == Draft
  }

  lemma DraftsAdd(a: seq<Request>, b: seq<Request>, id: nat)
    ensures Drafts(a + b, id) <==> Drafts(a, id) || Drafts(b, id)
  {
    if Drafts(a, id) {
      var r :| r in a && r.opp == id && r.kind == Draft;
      assert r in a + b;
    }
    if Drafts(b, id) {
      var r :| r in b && r.opp == id && r.kind == Draft;
      assert r in a + b;
    }
  }

  lemma TurnDrafts(sys: System, k: nat, t: Turn, queued: bool, logged: bool, id: nat)
    ensures Drafts(RequestOfTurn(sys, k, t, queued, logged), id) <==> k == id && AwaitsOutreach(sys, id) && sys.budget > 0
  {
    var rs := RequestOfTurn(sys, k, t, queued, logged);
    if rs != [] { assert rs == [rs[0]] && rs[0] in rs; }
  }

  // The turns of other deals leave a deal as it is.
  lemma {:induction false} OtherTurnsKeepTheDeal(sys: System, batch: seq<nat>, run: Run, id: nat)
    requires id !in batch
    ensures AwaitsOutreach(Advanced(sys, batch, run), id) == AwaitsOutreach(sys, id)
  {
    if batch != [] {
      var last := |batch| - 1;
      assert batch[last] in batch;
      OtherTurnsKeepTheDeal(sys, batch[..last], run, id);
    }
  }

  // The deal gets its turn while a call is left.
  predicate HasTurn(sys: System, batch: seq<nat>, run: Run, id: nat) {
    exists k :: 0 <= k < |batch| && batch[k] == id && Advanced(sys, batch[..k], run).budget > 0
  }

  lemma LastTurn(sys: System, batch: seq<nat>, run: Run, id: nat)
    requires batch != []
    ensures var last := |batch| - 1;
      HasTurn(sys, batch, run, id) <==>
        HasTurn(sys, batch[..last], run, id) || (batch[last] == id && Advanced(sys, batch[..last], run).budget > 0)
  {
    var last := |batch| - 1;
    var init := batch[..last];
    if HasTurn(sys, batch, run, id) {
      var k :| 0 <= k < |batch| && batch[k] == id && Advanced(sys, batch[..k], run).budget > 0;
      assert k < last ==> init[k] == id && init[..k] == batch[..k];
    }
    if HasTurn(sys, init, run, id) {
      var k :| 0 <= k < last && init[k] == id && Advanced(sys, init[..k], run).budget > 0;
      assert batch[k] == id && init[..k] == batch[..k];
    }
  }

  /**
   A run requests a draft for a deal exactly if the deal was ready for outreach when the run began, and a call
   is left when its turn comes.
   */
  lemma {:induction false} DraftIsRequestedIff(sys: System, batch: seq<nat>, run: Run, logged: bool, id: nat)
    requires Distinct(batch)
    ensures Drafts(RequestsOfTurns(sys, batch, run, logged), id) <==> AwaitsOutreach(sys, id) && HasTurn(sys, batch, run, id)
  {
    if batch != [] {
      var last := |batch| - 1;
      var mid := Advanced(sys, batch[..last], run);
      SplitBatch(batch);
      DraftIsRequestedIff(sys, batch[..last], run, logged, id);
      DraftsAdd(RequestsOfTurns(sys, batch[..last], run, logged), RequestOfTurn(mid, batch[last], run.At(last), true, logged), id);
      TurnDrafts(mid, batch[last], run.At(last), true, logged, id);
      LastTurn(sys, batch, run, id);
      if batch[last] == id { OtherTurnsKeepTheDeal(sys, batch[..last], run, id); }
    }
  }

  // ----- drafts repeat -----

  function Repeated(sys: System, id: nat, runs: seq<Run>): System {
    if runs == [] then sys
    else Ran(Repeated(sys, id, runs[..|runs| - 1]), [id], runs[|runs| - 1], Commits)
  }

  lemma DraftRun(sys: System, id: nat, run: Run)
    requires AwaitsOutreach(sys, id) && sys.budget > 0
    ensures var sys' := Ran(sys, [id], run, Commits);
      AwaitsOutreach(sys', id) && sys'.budget == sys.budget - 1 && sys'.work == sys.work + [Work(id, Draft)]
  {
    assert [id][..0] == [] && Advanced(sys, [], run) == sys;
    assert MoveOf(sys, id, run.At(0).Since()) == Note(Draft, DraftRequested, true);
    assert Ran(sys, [id], run, Commits) == Moved(sys, id, Note(Draft, DraftRequested, true), run.At(0));
  }

  /**
   The pipeline is not idempotent in this state: nothing remembers that a draft was requested, so n runs make
   n requests and spend n calls, until the budget is empty.
   */
  lemma {:induction false} DraftsRepeatEveryRun(sys: System, id: nat, runs: seq<Run>)
    requires AwaitsOutreach(sys, id) && |runs| <= sys.budget
    ensures var sys' := Repeated(sys, id, runs);
      AwaitsOutreach(sys', id) && sys'.budget == sys.budget - |runs| && sys'.work == Copies(sys.work, Work(id, Draft), |runs|)
  {
    if runs != [] {
      DraftsRepeatEveryRun(sys, id, runs[..|runs| - 1]);
      DraftRun(Repeated(sys, id, runs[..|runs| - 1]), id, runs[|runs| - 1]);
    }
  }
}
