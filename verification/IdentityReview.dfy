/**
 The review queue (backend/app/identity/resolve.py, backend/app/api/routes/collection.py): a doubtful pair is
 flagged once, decided once, and stays decided.
 */
module IdentityReview {
  import opened Options
  import opened Identity

  predicate SamePair(m: Match, a: nat, b: nat) {
    (m.a == a && m.b == b) || (m.a == b && m.b == a)
  }

  // The pair waits for a decision.
  predicate Waiting(db: Db, a: nat, b: nat) {
    exists i :: 0 <= i < |db.matches| && db.matches[i].status == Pending && SamePair(db.matches[i], a, b)
  }

  lemma WaitingIsPending(db: Db, a: nat, b: nat)
    ensures Waiting(db, a, b) <==> PendingPair(db, a, b)
  {
    if Waiting(db, a, b) {
      var i :| 0 <= i < |db.matches| && db.matches[i].status == Pending && SamePair(db.matches[i], a, b);
      assert db.matches[i].status.Pending?;
    }
    if PendingPair(db, a, b) {
      var i :| 0 <= i < |db.matches| && db.matches[i].status.Pending?
        && ((db.matches[i].a == a && db.matches[i].b == b) || (db.matches[i].a == b && db.matches[i].b == a));
      assert SamePair(db.matches[i], a, b);
    }
  }

  /**
   A pair of canonical persons, by verdict: merging makes the younger one follow the older; a review leaves
   the pair waiting, with one match more exactly if it did not wait already; anything else changes nothing.
   */
  lemma PairIsHandled(db: Db, a: nat, b: nat, verdict: Verdict)
    requires a in db.persons && b in db.persons && a < b && db.persons[a].canonical && db.persons[b].canonical
    ensures var db' := PairResolved(db, a, b, verdict);
      match verdict
      case Merge =>
        && db'.matches == db.matches && db'.persons.Keys == db.persons.Keys
        && var (kept, gone) := if Older(db, a, b) then (a, b) else (b, a);
          db'.persons == db.persons[gone := db.persons[gone].(canonical := false, supersededBy := Some(kept))]
      case Review =>
        && db'.persons == db.persons && db'.subjects == db.subjects && db'.relations == db.relations && Waiting(db', a, b)
        && db'.matches == if Waiting(db, a, b) then db.matches else db.matches + [Match(a, b, Pending)]
      case Ignore => db' == db
  {
    WaitingIsPending(db, a, b);
    if verdict.Review? && !Waiting(db, a, b) {
      var db' := PairResolved(db, a, b, verdict);
      assert db'.matches[|db.matches|] == Match(a, b, Pending);
    }
  }

  /** A pair of which one person is missing or was merged before is passed over. */
  lemma StalePairIsPassedOver(db: Db, a: nat, b: nat, verdict: Verdict)
    requires a !in db.persons || b !in db.persons || !db.persons[a].canonical || !db.persons[b].canonical
    ensures PairResolved(db, a, b, verdict) == db
  {
  }

  // ----- decisions -----

  // The decision of match i changes that match alone.
  predicate Decides(db: Db, db': Db, i: nat, status: MatchStatus) {
    && i < |db.matches| && |db'.matches| == |db.matches| && db.matches[i].status == Pending
    && db'.matches[i] == Match(db.matches[i].a, db.matches[i].b, status)
    && forall j :: 0 <= j < |db.matches| && j != i ==> db'.matches[j] == db.matches[j]
  }

  // A decided match can be neither approved nor rejected, and trying changes nothing.
  predicate Closed(db: Db, i: nat) {
    ApprovalOf(db, i) == AlreadyResolved && AfterApproval(db, i) == db && Reject(db, i) == db
  }

  /** An approval that goes through is stored as such, and closes the match; any other changes nothing. */
  lemma ApprovalIsStored(db: Db, i: nat)
    ensures if ApprovalOf(db, i) == Done then Decides(db, AfterApproval(db, i), i, Approved) && Closed(AfterApproval(db, i), i)
      else AfterApproval(db, i) == db
    ensures ApprovalOf(db, i) == Done <==>
      i < |db.matches| && db.matches[i].status == Pending && db.matches[i].a in db.persons && db.matches[i].b in db.persons
    ensures ApprovalOf(db, i) == NotFound <==> i >= |db.matches|
    ensures ApprovalOf(db, i) == AlreadyResolved <==> i < |db.matches| && db.matches[i].status != Pending
  {
  }

  /** A rejection of a pending match is stored as such, changes no person, and closes the match. */
  lemma RejectionIsStored(db: Db, i: nat)
    ensures if i < |db.matches| && db.matches[i].status == Pending
      then Decides(db, Reject(db, i), i, Rejected) && Closed(Reject(db, i), i) && Reject(db, i) == db.(matches := Reject(db, i).matches)
      else Reject(db, i) == db
  {
  }

  // ----- runs -----

  predicate FlaggedOnce(db: Db) {
    forall i, j :: 0 <= i < j < |db.matches| && db.matches[i].status == db.matches[j].status == Pending ==>
      !SamePair(db.matches[i], db.matches[j].a, db.matches[j].b)
  }

  // Matches are only added; a decided one is never written again, and no match changes its persons.
  predicate KeepsDecisions(before: seq<Match>, after: seq<Match>) {
    && |before| <= |after|
    && forall i :: 0 <= i < |before| ==>
         && after[i].a == before[i].a && after[i].b == before[i].b
         && (before[i].status != Pending ==> after[i] == before[i])
  }

  lemma FlaggingKeepsOnce(db: Db, a: nat, b: nat)
    requires FlaggedOnce(db) && !Waiting(db, a, b)
    ensures FlaggedOnce(db.(matches := db.matches + [Match(a, b, Pending)]))
  {
    forall i | 0 <= i < |db.matches| && db.matches[i].status == Pending ensures !SamePair(db.matches[i], a, b) { }
  }

  lemma DecidingKeepsOnce(db: Db, db': Db, i: nat, status: MatchStatus)
    requires FlaggedOnce(db) && Decides(db, db', i, status) && status != Pending
    ensures FlaggedOnce(db') && KeepsDecisions(db.matches, db'.matches)
  {
  }

  lemma StepKeepsDecisions(db: Db, action: Action)
    requires FlaggedOnce(db)
    ensures FlaggedOnce(Step(db, action)) && KeepsDecisions(db.matches, Step(db, action).matches)
  {
    match action
    case Create(_, _) =>
    case ResolvePair(a, b, verdict) =>
      WaitingIsPending(db, a, b);
      if !Waiting(db, a, b) { FlaggingKeepsOnce(db, a, b); }
    case ApproveMatch(i) =>
      ApprovalIsStored(db, i);
      if ApprovalOf(db, i) == Done { DecidingKeepsOnce(db, AfterApproval(db, i), i, Approved); }
    case RejectMatch(i) =>
      RejectionIsStored(db, i);
      if i < |db.matches| && db.matches[i].status == Pending { DecidingKeepsOnce(db, Reject(db, i), i, Rejected); }
  }

  /** In every run no pair waits for two decisions at once. */
  lemma {:induction false} PairsAreFlaggedOnce(actions: seq<Action>)
    ensures FlaggedOnce(After(actions))
  {
    if actions != [] {
      PairsAreFlaggedOnce(actions[..|actions| - 1]);
      StepKeepsDecisions(After(actions[..|actions| - 1]), actions[|actions| - 1]);
    }
  }

  lemma KeepsOn(a: seq<Match>, b: seq<Match>, c: seq<Match>)
    requires KeepsDecisions(a, b) && KeepsDecisions(b, c)
    ensures KeepsDecisions(a, c)
  {
  }

  /** And whatever follows, a decision on a match stands. */
  lemma {:induction false} DecisionsStand(actions: seq<Action>, more: seq<Action>)
    ensures KeepsDecisions(After(actions).matches, After(actions + more).matches)
  {
    if more == [] {
      assert actions + more == actions;
    } else {
      var init, a := more[..|more| - 1], more[|more| - 1];
      assert (actions + more)[..|actions + more| - 1] == actions + init;
      DecisionsStand(actions, init);
      PairsAreFlaggedOnce(actions + init);
      StepKeepsDecisions(After(actions + init), a);
      KeepsOn(After(actions).matches, After(actions + init).matches, After(actions + more).matches);
    }
  }
}
