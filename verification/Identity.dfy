/**
 Identity resolution: blocking, merging and following merges
 (backend/app/identity/resolve.py, backend/app/identity/merge.py, the match approval of
 backend/app/api/routes/collection.py and the chain loop of backend/app/collectors/jobs.py).
 */
module Identity {
  import opened Options
  import opened Sequences

  datatype Person = Person(createdAt: nat, canonical: bool, supersededBy: Option<nat>)

  datatype MatchStatus = Pending | Approved | Rejected

  datatype Match = Match(a: nat, b: nat, status: MatchStatus)

  // `subjects` maps an observation to the person it is about; `relations` maps a row to its two ends.
  datatype Db = Db(persons: map<nat, Person>, subjects: map<nat, nat>, relations: map<nat, (nat, nat)>, matches: seq<Match>)

  // ----- order -----

  predicate Older(db: Db, p: nat, q: nat)
    requires p in db.persons && q in db.persons
  {
    db.persons[p].createdAt < db.persons[q].createdAt || (db.persons[p].createdAt == db.persons[q].createdAt && p < q)
  }

  // The person kept and the person merged away.
  function Choice(db: Db, a: nat, b: nat): (nat, nat)
    requires a in db.persons && b in db.persons
  {
    if db.persons[a].createdAt <= db.persons[b].createdAt then (a, b) else (b, a)
  }

  /** With the pair in id order, as every pair is built, the person kept is strictly older. */
  lemma ChoiceIsOlder(db: Db, a: nat, b: nat)
    requires a in db.persons && b in db.persons && a < b
    ensures var (kept, gone) := Choice(db, a, b); Older(db, kept, gone) && {kept, gone} == {a, b}
  {
  }

  predicate Placed(db: Db, p: nat)
    requires p in db.persons
  {
    match db.persons[p].supersededBy
    case None => db.persons[p].canonical
    case Some(q) => !db.persons[p].canonical && q in db.persons && Older(db, q, p)
  }

  // Supersession leads from a person that is not canonical to a strictly older one.
  ghost predicate Ordered(db: Db) {
    forall p :: p in db.persons ==> Placed(db, p)
  }

  function Root(db: Db, p: nat): (r: nat)
    requires Ordered(db) && p in db.persons
    ensures r in db.persons && db.persons[r].canonical && (r == p || Older(db, r, p))
    decreases db.persons[p].createdAt, p
  {
    assert Placed(db, p);
    if db.persons[p].canonical then p else Root(db, db.persons[p].supersededBy.value)
  }

  /** The loop that follows merges ends, at the canonical person the merges lead to. */
  method FollowChain(db: Db, start: nat) returns (person: nat)
    requires Ordered(db) && start in db.persons
    ensures person == Root(db, start)
  {
    person := start;
    while !db.persons[person].canonical && db.persons[person].supersededBy.Some?
      invariant person in db.persons && Root(db, person) == Root(db, start)
      decreases db.persons[person].createdAt, person
    {
      assert Placed(db, person);
      person := db.persons[person].supersededBy.value;
    }
    assert Placed(db, person);
  }

  // ----- one merge -----

  function Redirect(x: nat, kept: nat, gone: nat): nat {
    if x == gone then kept else x
  }

  function Merged(db: Db, kept: nat, gone: nat): Db
    requires kept in db.persons && gone in db.persons
  {
    if !db.persons[gone].canonical then db
    else
      var moved := map r | r in db.relations :: (Redirect(db.relations[r].0, kept, gone), Redirect(db.relations[r].1, kept, gone));
      db.(persons := db.persons[gone := db.persons[gone].(canonical := false, supersededBy := Some(kept))],
          subjects := map o | o in db.subjects :: Redirect(db.subjects[o], kept, gone),
          relations := map r | r in moved && moved[r] != (kept, kept) :: moved[r])
  }

  lemma MergeKeepsOrdered(db: Db, kept: nat, gone: nat)
    requires Ordered(db) && kept in db.persons && gone in db.persons && Older(db, kept, gone)
    ensures Ordered(Merged(db, kept, gone))
  {
    var db' := Merged(db, kept, gone);
    forall p | p in db'.persons ensures Placed(db', p) {
      assert Placed(db, p);
    }
  }

  /** A merge of two canonical persons redirects exactly the persons that led to the one merged away. */
  lemma {:induction false} RootAfterMerge(db: Db, kept: nat, gone: nat, p: nat)
    requires Ordered(db) && kept in db.persons && gone in db.persons && Older(db, kept, gone) && p in db.persons
    requires db.persons[kept].canonical && db.persons[gone].canonical
    ensures Ordered(Merged(db, kept, gone))
    ensures Root(Merged(db, kept, gone), p) == Redirect(Root(db, p), kept, gone)
    decreases db.persons[p].createdAt, p
  {
    MergeKeepsOrdered(db, kept, gone);
    assert Placed(db, p);
    if !db.persons[p].canonical {
      RootAfterMerge(db, kept, gone, db.persons[p].supersededBy.value);
    }
  }

  // ----- blocking -----

  type Keys = map<nat, set<string>>

  type Index = map<string, seq<nat>>

  predicate SharesKey(keys: Keys, a: nat, b: nat) {
    a in keys && b in keys && a < b && keys[a] * keys[b] != {}
  }

  function Filed(index: Index, k: string): seq<nat> {
    if k in index then index[k] else []
  }

  // The persons that have key k, in the order they were loaded.
  function Holders(keys: Keys, persons: seq<nat>, k: string): seq<nat> {
    if persons == [] then []
    else
      var p := persons[|persons| - 1];
      Holders(keys, persons[..|persons| - 1], k) + (if p in keys && k in keys[p] then [p] else [])
  }

  lemma {:induction false} HoldersHaveTheKey(keys: Keys, persons: seq<nat>, k: string)
    requires Distinct(persons)
    ensures forall p :: p in Holders(keys, persons, k) <==> p in persons && p in keys && k in keys[p]
    ensures Distinct(Holders(keys, persons, k))
  {
    if persons != [] {
      var init, p := persons[..|persons| - 1], persons[|persons| - 1];
      HoldersHaveTheKey(keys, init, k);
      assert persons == init + [p] && p !in init;
    }
  }

  method FileUnder(index: Index, p: nat, ks: set<string>) returns (index': Index)
    ensures forall k :: Filed(index', k) == Filed(index, k) + (if k in ks then [p] else [])
    ensures index'.Keys == index.Keys + ks
  {
    index' := index;
    var rest := ks;
    while rest != {}
      invariant rest <= ks && index'.Keys == index.Keys + (ks - rest)
      invariant forall k :: Filed(index', k) == Filed(index, k) + (if k in ks - rest then [p] else [])
      decreases rest
    {
      var key :| key in rest;
      if key !in index' {
        index' := index'[key := []];
      }
      index' := index'[key := index'[key] + [p]];
      rest := rest - {key};
    }
  }

  method InvertKeys(keys: Keys, persons: seq<nat>) returns (index: Index)
    requires forall p :: p in persons ==> p in keys
    ensures forall k :: Filed(index, k) == Holders(keys, persons, k)
  {
    index := map[];
    for n := 0 to |persons|
      invariant forall k :: Filed(index, k) == Holders(keys, persons[..n], k)
    {
      assert persons[..n + 1][..n] == persons[..n];
      index := FileUnder(index, persons[n], keys[persons[n]]);
    }
    assert persons[..|persons|] == persons;
  }

  // Both orders of indices are covered once the outer loop has passed one of the two.
  ghost predicate Paired(pids: seq<nat>, i: nat, a: nat, b: nat) {
    a < b && a in pids && b in pids && i <= |pids| && (a in pids[..i] || b in pids[..i])
  }

  predicate PairedWith(p: nat, others: seq<nat>, a: nat, b: nat) {
    a < b && ((a == p && b in others) || (b == p && a in others))
  }

  method PairsOfOne(pids: seq<nat>, found: set<(nat, nat)>) returns (pairs: set<(nat, nat)>)
    requires Distinct(pids)
    ensures forall a: nat, b: nat :: (a, b) in pairs <==> ((a, b) in found || (a in pids && b in pids && a < b))
  {
    pairs := found;
    for i := 0 to |pids|
      invariant forall a: nat, b: nat :: (a, b) in pairs <==> ((a, b) in found || Paired(pids, i, a, b))
    {
      ghost var before := pairs;
      var p := pids[i];
      for j := i + 1 to |pids|
        invariant forall a: nat, b: nat :: (a, b) in pairs <==> ((a, b) in before || PairedWith(p, pids[i + 1..j], a, b))
      {
        assert pids[i + 1..j + 1] == pids[i + 1..j] + [pids[j]];
        var q := pids[j];
        if p != q {
          pairs := pairs + {if p < q then (p, q) else (q, p)};
        }
      }
      forall a: nat, b: nat ensures Paired(pids, i + 1, a, b) <==> Paired(pids, i, a, b) || PairedWith(p, pids[i + 1..], a, b) {
        assert pids == pids[..i] + [p] + pids[i + 1..] && pids[..i + 1] == pids[..i] + [p];
      }
      assert pids[i + 1..|pids|] == pids[i + 1..];
    }
    assert pids[..|pids|] == pids;
  }

  // a and b are filed together under one of the keys done so far.
  ghost predicate Together(index: Index, done: set<string>, a: nat, b: nat) {
    a < b && exists k :: k in done && a in Filed(index, k) && b in Filed(index, k)
  }

  method PairsOfAll(index: Index) returns (pairs: set<(nat, nat)>)
    requires forall k :: k in index ==> Distinct(index[k])
    ensures forall a: nat, b: nat :: (a, b) in pairs <==> Together(index, index.Keys, a, b)
  {
    pairs := {};
    var rest := index.Keys;
    while rest != {}
      invariant rest <= index.Keys
      invariant forall a: nat, b: nat :: (a, b) in pairs <==> Together(index, index.Keys - rest, a, b)
      decreases rest
    {
      var k :| k in rest;
      ghost var done, before := index.Keys - rest, pairs;
      if |index[k]| >= 2 {
        pairs := PairsOfOne(index[k], pairs);
      }
      rest := rest - {k};
      forall a: nat, b: nat ensures Together(index, index.Keys - rest, a, b) <==>
        Together(index, done, a, b) || (a < b && a in index[k] && b in index[k])
      {
        assert index.Keys - rest == done + {k};
        if a < b && a in index[k] && b in index[k] { assert a in Filed(index, k) && b in Filed(index, k); }
      }
    }
    assert index.Keys - rest == index.Keys;
  }

  lemma TogetherMeansSharing(keys: Keys, persons: seq<nat>, index: Index, a: nat, b: nat)
    requires Distinct(persons) && forall p :: p in persons <==> p in keys
    requires forall k :: Filed(index, k) == Holders(keys, persons, k)
    ensures Together(index, index.Keys, a, b) <==> SharesKey(keys, a, b)
  {
    if SharesKey(keys, a, b) {
      var k :| k in keys[a] * keys[b];
      HoldersHaveTheKey(keys, persons, k);
      assert a in Filed(index, k) && b in Filed(index, k);
    }
    if Together(index, index.Keys, a, b) {
      var k :| k in index.Keys && a in Filed(index, k) && b in Filed(index, k);
      HoldersHaveTheKey(keys, persons, k);
      assert k in keys[a] * keys[b];
    }
  }

  /** The index yields exactly the unordered pairs that share a key, each once. */
  method CandidatePairs(keys: Keys, persons: seq<nat>) returns (pairs: set<(nat, nat)>)
    requires Distinct(persons) && forall p :: p in persons <==> p in keys
    ensures forall a: nat, b: nat :: (a, b) in pairs <==> SharesKey(keys, a, b)
  {
    var index := InvertKeys(keys, persons);
    forall k | k in index ensures Distinct(index[k]) {
      HoldersHaveTheKey(keys, persons, k);
      assert index[k] == Filed(index, k);
    }
    pairs := PairsOfAll(index);
    forall a: nat, b: nat ensures Together(index, index.Keys, a, b) <==> SharesKey(keys, a, b) {
      TogetherMeansSharing(keys, persons, index, a, b);
    }
  }

  // ----- resolving the pairs -----

  // What the matcher says about a pair at the moment it is evaluated.
  datatype Verdict = Merge | Review | Ignore

  predicate PendingPair(db: Db, a: nat, b: nat) {
    exists i :: 0 <= i < |db.matches| && db.matches[i].status.Pending?
      && ((db.matches[i].a == a && db.matches[i].b == b) || (db.matches[i].a == b && db.matches[i].b == a))
  }

  predicate BothCanonical(db: Db, a: nat, b: nat) {
    a in db.persons && b in db.persons && db.persons[a].canonical && db.persons[b].canonical
  }

  function PairResolved(db: Db, a: nat, b: nat, verdict: Verdict): Db {
    if !BothCanonical(db, a, b) then db
    else match verdict
      case Merge => Merged(db, Choice(db, a, b).0, Choice(db, a, b).1)
      case Review => if PendingPair(db, a, b) then db else db.(matches := db.matches + [Match(a, b, Pending)])
      case Ignore => db
  }

  function Resolved(db: Db, order: seq<(nat, nat)>, verdict: nat -> Verdict): Db {
    if order == [] then db
    else
      var last := |order| - 1;
      PairResolved(Resolved(db, order[..last], verdict), order[last].0, order[last].1, verdict(last))
  }

  function Canonical(db: Db): set<nat> {
    set p | p in db.persons && db.persons[p].canonical
  }

  function MergeCount(db: Db, order: seq<(nat, nat)>, verdict: nat -> Verdict): nat {
    if order == [] then 0
    else
      var last := |order| - 1;
      MergeCount(db, order[..last], verdict) +
      (if BothCanonical(Resolved(db, order[..last], verdict), order[last].0, order[last].1) && verdict(last).Merge? then 1 else 0)
  }

  // The observation is now about the person its old subject leads to.
  ghost predicate SubjectFollows(before: Db, after: Db, o: nat)
    requires Ordered(after) && o in before.subjects
  {
    o in after.subjects && before.subjects[o] in after.persons && after.subjects[o] == Root(after, before.subjects[o])
  }

  // The relation joins the persons its old ends lead to, and is gone exactly if that is one person.
  ghost predicate RelationFollows(before: Db, after: Db, r: nat)
    requires Ordered(after) && r in before.relations
  {
    && before.relations[r].0 in after.persons && before.relations[r].1 in after.persons
    && var (x, y) := (Root(after, before.relations[r].0), Root(after, before.relations[r].1));
      (r in after.relations <==> x != y) && (r in after.relations ==> after.relations[r] == (x, y))
  }

  ghost predicate Follows(before: Db, after: Db) {
    && Ordered(after) && after.persons.Keys == before.persons.Keys && after.subjects.Keys == before.subjects.Keys
    && after.relations.Keys <= before.relations.Keys
    && (forall o :: o in before.subjects ==> SubjectFollows(before, after, o))
    && (forall r :: r in before.relations ==> RelationFollows(before, after, r))
  }

  predicate CleanRelation(db: Db, ends: (nat, nat)) {
    ends.0 in Canonical(db) && ends.1 in Canonical(db) && ends.0 != ends.1
  }

  // Every row is about canonical persons and no relation joins a person to itself.
  ghost predicate Clean(db: Db) {
    && Ordered(db)
    && (forall o :: o in db.subjects ==> db.subjects[o] in Canonical(db))
    && (forall r :: r in db.relations ==> CleanRelation(db, db.relations[r]))
  }

  lemma MergeMovesSubject(before: Db, db: Db, kept: nat, gone: nat, o: nat)
    requires Ordered(db) && BothCanonical(db, kept, gone) && Older(db, kept, gone)
    requires o in before.subjects && SubjectFollows(before, db, o)
    ensures Ordered(Merged(db, kept, gone)) && SubjectFollows(before, Merged(db, kept, gone), o)
  {
    RootAfterMerge(db, kept, gone, before.subjects[o]);
  }

  lemma MergeMovesRelation(before: Db, db: Db, kept: nat, gone: nat, r: nat)
    requires Ordered(db) && BothCanonical(db, kept, gone) && Older(db, kept, gone)
    requires r in before.relations && RelationFollows(before, db, r)
    ensures Ordered(Merged(db, kept, gone)) && RelationFollows(before, Merged(db, kept, gone), r)
  {
    RootAfterMerge(db, kept, gone, before.relations[r].0);
    RootAfterMerge(db, kept, gone, before.relations[r].1);
  }

  lemma MergeFollows(before: Db, db: Db, kept: nat, gone: nat)
    requires Follows(before, db) && BothCanonical(db, kept, gone) && Older(db, kept, gone)
    ensures Follows(before, Merged(db, kept, gone))
  {
    MergeKeepsOrdered(db, kept, gone);
    var db' := Merged(db, kept, gone);
    forall o | o in before.subjects ensures SubjectFollows(before, db', o) {
      MergeMovesSubject(before, db, kept, gone, o);
    }
    forall r | r in before.relations ensures RelationFollows(before, db', r) {
      MergeMovesRelation(before, db, kept, gone, r);
    }
  }

  lemma MergeRetiresOne(db: Db, kept: nat, gone: nat)
    requires BothCanonical(db, kept, gone) && kept != gone
    ensures Canonical(Merged(db, kept, gone)) == Canonical(db) - {gone}
    ensures |Canonical(Merged(db, kept, gone))| == |Canonical(db)| - 1
  {
    assert gone in Canonical(db);
  }

  lemma CleanFollowsItself(db: Db)
    requires Clean(db)
    ensures Follows(db, db)
  {
    forall o | o in db.subjects ensures SubjectFollows(db, db, o) { assert db.subjects[o] in Canonical(db); }
    forall r | r in db.relations ensures RelationFollows(db, db, r) { assert CleanRelation(db, db.relations[r]); }
  }

  predicate OrderedPairs(order: seq<(nat, nat)>) {
    forall i :: 0 <= i < |order| ==> order[i].0 < order[i].1
  }

  lemma {:induction false} SameRoot(db: Db, db': Db, p: nat)
    requires Ordered(db) && Ordered(db') && db'.persons == db.persons && p in db.persons
    ensures Root(db', p) == Root(db, p)
    decreases db.persons[p].createdAt, p
  {
    assert Placed(db, p);
    if !db.persons[p].canonical { SameRoot(db, db', db.persons[p].supersededBy.value); }
  }

  lemma OnlyMatchesChange(before: Db, db: Db, matches: seq<Match>)
    requires Follows(before, db)
    ensures Follows(before, db.(matches := matches)) && Canonical(db.(matches := matches)) == Canonical(db)
  {
    var db' := db.(matches := matches);
    forall p | p in db'.persons ensures Placed(db', p) { assert Placed(db, p); }
    forall p | p in db.persons ensures Root(db', p) == Root(db, p) { SameRoot(db, db', p); }
    forall o | o in before.subjects ensures SubjectFollows(before, db', o) { assert SubjectFollows(before, db, o); }
    forall r | r in before.relations ensures RelationFollows(before, db', r) { assert RelationFollows(before, db, r); }
  }

  lemma PairFollows(before: Db, db: Db, a: nat, b: nat, verdict: Verdict)
    requires Follows(before, db) && a < b
    ensures Follows(before, PairResolved(db, a, b, verdict))
    ensures |Canonical(PairResolved(db, a, b, verdict))| ==
      |Canonical(db)| - (if BothCanonical(db, a, b) && verdict.Merge? then 1 else 0)
  {
    if BothCanonical(db, a, b) {
      if verdict.Merge? {
        ChoiceIsOlder(db, a, b);
        MergeFollows(before, db, Choice(db, a, b).0, Choice(db, a, b).1);
        MergeRetiresOne(db, Choice(db, a, b).0, Choice(db, a, b).1);
      } else if verdict.Review? && !PendingPair(db, a, b) {
        OnlyMatchesChange(before, db, db.matches + [Match(a, b, Pending)]);
      }
    }
  }

  /**
   Whatever the order of the pairs: every observation ends at the canonical person its subject leads
   to, exactly the relations between merged persons are gone, and the number of canonical persons
   falls by exactly the number of merges.
   */
  lemma {:induction false} ResolutionFollows(db: Db, order: seq<(nat, nat)>, verdict: nat -> Verdict)
    requires Clean(db) && OrderedPairs(order)
    ensures Follows(db, Resolved(db, order, verdict))
    ensures |Canonical(Resolved(db, order, verdict))| == |Canonical(db)| - MergeCount(db, order, verdict)
  {
    if order == [] {
      CleanFollowsItself(db);
    } else {
      var last := |order| - 1;
      ResolutionFollows(db, order[..last], verdict);
      PairFollows(db, Resolved(db, order[..last], verdict), order[last].0, order[last].1, verdict(last));
    }
  }

  /** A clean database is clean again after a resolution run. */
  lemma {:induction false} ResolutionKeepsClean(db: Db, order: seq<(nat, nat)>, verdict: nat -> Verdict)
    requires Clean(db) && OrderedPairs(order)
    ensures Clean(Resolved(db, order, verdict))
  {
    ResolutionFollows(db, order, verdict);
    var db' := Resolved(db, order, verdict);
    forall o | o in db'.subjects ensures db'.subjects[o] in Canonical(db') { assert SubjectFollows(db, db', o); }
    forall r | r in db'.relations ensures CleanRelation(db', db'.relations[r]) { assert RelationFollows(db, db', r); }
  }

  // ----- the review queue -----

  datatype Approval = NotFound | AlreadyResolved | PersonMissing | Done

  function ApprovalOf(db: Db, i: nat): Approval {
    if i >= |db.matches| then NotFound
    else if !db.matches[i].status.Pending? then AlreadyResolved
    else if db.matches[i].a !in db.persons || db.matches[i].b !in db.persons then PersonMissing
    else Done
  }

  function AfterApproval(db: Db, i: nat): Db {
    if ApprovalOf(db, i) != Done then db
    else
      var m := db.matches[i];
      var (kept, gone) := Choice(db, m.a, m.b);
      Merged(db, kept, gone).(matches := db.matches[i := m.(status := Approved)])
  }

  function Reject(db: Db, i: nat): Db {
    if i >= |db.matches| || !db.matches[i].status.Pending? then db
    else db.(matches := db.matches[i := db.matches[i].(status := Rejected)])
  }

  /**
   Approving a stale match can merge into a person that was itself merged before.  Observations then
   stay about canonical persons exactly if the person kept is canonical, or nothing had to move.
   */
  lemma ApprovalKeepsSubjectsCanonicalIff(db: Db, i: nat)
    requires Ordered(db) && (forall o :: o in db.subjects ==> db.subjects[o] in Canonical(db))
    requires ApprovalOf(db, i) == Done && db.matches[i].a < db.matches[i].b
    ensures var (kept, gone) := Choice(db, db.matches[i].a, db.matches[i].b);
      (forall o :: o in AfterApproval(db, i).subjects ==> AfterApproval(db, i).subjects[o] in Canonical(AfterApproval(db, i)))
      <==> db.persons[kept].canonical || !db.persons[gone].canonical || forall o :: o in db.subjects ==> db.subjects[o] != gone
  {
    var (kept, gone) := Choice(db, db.matches[i].a, db.matches[i].b);
    var db' := AfterApproval(db, i);
    assert db.persons[gone].canonical ==> Canonical(db') == Canonical(db) - {gone};
    if db.persons[gone].canonical && !db.persons[kept].canonical {
      if o :| o in db.subjects && db.subjects[o] == gone {
        assert db'.subjects[o] == kept && kept !in Canonical(db');
      }
    }
  }

  lemma AfterApprovalIsOrdered(db: Db, i: nat)
    requires Ordered(db) && ApprovalOf(db, i) == Done && db.matches[i].a < db.matches[i].b
    ensures Ordered(AfterApproval(db, i))
  {
    var (kept, gone) := Choice(db, db.matches[i].a, db.matches[i].b);
    ChoiceIsOlder(db, db.matches[i].a, db.matches[i].b);
    MergeKeepsOrdered(db, kept, gone);
    forall p | p in AfterApproval(db, i).persons ensures Placed(AfterApproval(db, i), p) { assert Placed(Merged(db, kept, gone), p); }
  }

  predicate TouchesPerson(db: Db, r: nat, p: nat)
    requires r in db.relations
  {
    db.relations[r].0 == p || db.relations[r].1 == p
  }

  // The relation joins two canonical persons, who are the ones its former ends lead to; or those are one.
  ghost predicate RelationStaysTrue(before: Db, after: Db, r: nat)
    requires Ordered(after) && r in before.relations
  {
    RelationFollows(before, after, r) && (r in after.relations ==> CleanRelation(after, after.relations[r]))
  }

  // A canonical person leads to itself, or to the person it has just been merged into.
  lemma RootOfEnd(db: Db, db': Db, kept: nat, gone: nat, x: nat)
    requires Ordered(db) && BothCanonical(db, kept, gone) && kept != gone && x in Canonical(db)
    requires Ordered(db') && db'.persons == Merged(db, kept, gone).persons
    ensures Root(db', x) == Redirect(x, kept, gone)
  {
    assert Placed(db', x);
  }

  lemma ApprovalMovesRelation(db: Db, i: nat, r: nat)
    requires Clean(db) && ApprovalOf(db, i) == Done && db.matches[i].a < db.matches[i].b && r in db.relations
    requires Ordered(AfterApproval(db, i))
    ensures var (kept, gone) := Choice(db, db.matches[i].a, db.matches[i].b);
      RelationStaysTrue(db, AfterApproval(db, i), r) <==>
        db.persons[kept].canonical || !db.persons[gone].canonical || !TouchesPerson(db, r, gone)
  {
    var (kept, gone) := Choice(db, db.matches[i].a, db.matches[i].b);
    var db' := AfterApproval(db, i);
    ChoiceIsOlder(db, db.matches[i].a, db.matches[i].b);
    assert CleanRelation(db, db.relations[r]);
    var (x, y) := db.relations[r];
    assert db'.relations == Merged(db, kept, gone).relations && db'.persons == Merged(db, kept, gone).persons;
    if !db.persons[gone].canonical {
      assert Root(db', x) == x && Root(db', y) == y;
    } else if db.persons[kept].canonical {
      RootOfEnd(db, db', kept, gone, x);
      RootOfEnd(db, db', kept, gone, y);
    } else if TouchesPerson(db, r, gone) {
      assert r in db'.relations && !db'.persons[kept].canonical;
      assert db'.relations[r].0 == kept || db'.relations[r].1 == kept;
    } else {
      assert Root(db', x) == x && Root(db', y) == y;
    }
  }

  /**
   The same for relations: an approval leaves all of them true exactly if the person kept is canonical
   or no relation had to move.
   */
  lemma ApprovalKeepsRelationsTrueIff(db: Db, i: nat)
    requires Clean(db) && ApprovalOf(db, i) == Done && db.matches[i].a < db.matches[i].b
    ensures Ordered(AfterApproval(db, i))
    ensures var (kept, gone) := Choice(db, db.matches[i].a, db.matches[i].b);
      (forall r :: r in db.relations ==> RelationStaysTrue(db, AfterApproval(db, i), r))
      <==> db.persons[kept].canonical || !db.persons[gone].canonical || forall r :: r in db.relations ==> !TouchesPerson(db, r, gone)
  {
    var (kept, gone) := Choice(db, db.matches[i].a, db.matches[i].b);
    ChoiceIsOlder(db, db.matches[i].a, db.matches[i].b);
    AfterApprovalIsOrdered(db, i);
    forall r | r in db.relations
      ensures RelationStaysTrue(db, AfterApproval(db, i), r) <==>
        db.persons[kept].canonical || !db.persons[gone].canonical || !TouchesPerson(db, r, gone)
    {
      ApprovalMovesRelation(db, i, r);
    }
  }

  /**
   Persons 1, 2 and 3 in order of age: the match of 2 and 3 is flagged, 2 is merged into 1, and then
   the match is approved.  The observation about 3 is left about 2, who is not canonical.
   */
  lemma StaleApprovalStrandsObservation(o: nat)
    ensures var db := Db(map[1 := Person(1, true, None), 2 := Person(2, true, None), 3 := Person(3, true, None)],
                         map[o := 3], map[], []);
      var stale := PairResolved(PairResolved(db, 2, 3, Review), 1, 2, Merge);
      && Clean(db) && ApprovalOf(stale, 0) == Done && (forall x :: x in stale.subjects ==> stale.subjects[x] in Canonical(stale))
      && AfterApproval(stale, 0).subjects[o] == 2 && !AfterApproval(stale, 0).persons[2].canonical
  {
  }

  // ----- runs -----

  datatype Action =
    | Create(id: nat, createdAt: nat)
    | ResolvePair(a: nat, b: nat, verdict: Verdict)
    | ApproveMatch(i: nat)
    | RejectMatch(i: nat)

  function Step(db: Db, action: Action): Db {
    match action
    case Create(id, createdAt) =>
      if id in db.persons then db else db.(persons := db.persons[id := Person(createdAt, true, None)])
    case ResolvePair(a, b, verdict) => if a < b then PairResolved(db, a, b, verdict) else db
    case ApproveMatch(i) => AfterApproval(db, i)
    case RejectMatch(i) => Reject(db, i)
  }

  function After(actions: seq<Action>): Db {
    if actions == [] then Db(map[], map[], map[], [])
    else Step(After(actions[..|actions| - 1]), actions[|actions| - 1])
  }

  predicate MatchesInOrder(db: Db) {
    forall i :: 0 <= i < |db.matches| ==> db.matches[i].a < db.matches[i].b
  }

  lemma StepKeepsOrdered(db: Db, action: Action)
    requires Ordered(db) && MatchesInOrder(db)
    ensures Ordered(Step(db, action)) && MatchesInOrder(Step(db, action))
  {
    var db' := Step(db, action);
    match action
    case Create(id, createdAt) =>
      forall p | p in db'.persons ensures Placed(db', p) { if p in db.persons { assert Placed(db, p); } }
    case ResolvePair(a, b, verdict) =>
      if a < b && BothCanonical(db, a, b) && verdict.Merge? {
        ChoiceIsOlder(db, a, b);
        MergeKeepsOrdered(db, Choice(db, a, b).0, Choice(db, a, b).1);
      } else {
        forall p | p in db'.persons ensures Placed(db', p) { assert Placed(db, p); }
      }
    case ApproveMatch(i) =>
      if ApprovalOf(db, i) == Done {
        var (kept, gone) := Choice(db, db.matches[i].a, db.matches[i].b);
        ChoiceIsOlder(db, db.matches[i].a, db.matches[i].b);
        MergeKeepsOrdered(db, kept, gone);
        forall p | p in db'.persons ensures Placed(db', p) { assert Placed(Merged(db, kept, gone), p); }
      }
    case RejectMatch(i) =>
      forall p | p in db'.persons ensures Placed(db', p) { assert Placed(db, p); }
  }

  /**
   In every run, stale approvals included, each merge leads to a strictly older person; so following
   merges from any person ends at a canonical one.
   */
  lemma {:induction false} MergesLeadToOlderPersons(actions: seq<Action>)
    ensures Ordered(After(actions)) && MatchesInOrder(After(actions))
    ensures forall p :: p in After(actions).persons ==> After(actions).persons[Root(After(actions), p)].canonical
  {
    if actions != [] {
      MergesLeadToOlderPersons(actions[..|actions| - 1]);
      StepKeepsOrdered(After(actions[..|actions| - 1]), actions[|actions| - 1]);
    }
  }

  // ----- the session -----

  method Listed(pairs: set<(nat, nat)>) returns (order: seq<(nat, nat)>)
    ensures Distinct(order) && forall p :: p in order <==> p in pairs
  {
    order := [];
    var rest := pairs;
    while rest != {}
      invariant Distinct(order) && rest <= pairs && forall p :: p in order <==> p in pairs - rest
      decreases rest
    {
      var p :| p in rest;
      assert p !in order;
      order, rest := order + [p], rest - {p};
    }
  }

  class Session {
    var db: Db

    constructor (initial: Db)
      ensures db == initial
    {
      db := initial;
    }

    /** `None` is the error raised when a person is missing. */
    method MergePersons(kept: nat, gone: nat) returns (person: Option<nat>)
      modifies this
      ensures kept in old(db).persons && gone in old(db).persons ==> person == Some(kept) && db == Merged(old(db), kept, gone)
      ensures !(kept in old(db).persons && gone in old(db).persons) ==> person == None && db == old(db)
    {
      if kept !in db.persons || gone !in db.persons {
        return None;
      }
      if !db.persons[gone].canonical {
        return Some(kept);
      }
      ghost var before := db;
      db := db.(subjects := map o | o in db.subjects :: Redirect(db.subjects[o], kept, gone));
      db := db.(relations := map r | r in db.relations :: (Redirect(db.relations[r].0, kept, gone), db.relations[r].1));
      db := db.(relations := map r | r in db.relations :: (db.relations[r].0, Redirect(db.relations[r].1, kept, gone)));
      db := db.(relations := map r | r in db.relations && db.relations[r] != (kept, kept) :: db.relations[r]);
      db := db.(persons := db.persons[gone := db.persons[gone].(canonical := false, supersededBy := Some(kept))]);
      assert db.relations == Merged(before, kept, gone).relations;
      return Some(kept);
    }

    /** The pair loop, in the order the pair set happens to be iterated. */
    method ResolveIdentities(order: seq<(nat, nat)>, verdict: nat -> Verdict)
      returns (evaluated: nat, autoMerged: nat, flagged: nat)
      requires OrderedPairs(order)
      modifies this
      ensures db == Resolved(old(db), order, verdict)
      ensures evaluated == |order| && autoMerged == MergeCount(old(db), order, verdict)
      ensures flagged == |db.matches| - |old(db).matches|
    {
      evaluated, autoMerged, flagged := 0, 0, 0;
      for n := 0 to |order|
        invariant db == Resolved(old(db), order[..n], verdict)
        invariant evaluated == n && autoMerged == MergeCount(old(db), order[..n], verdict)
        invariant |old(db).matches| <= |db.matches| && flagged == |db.matches| - |old(db).matches|
      {
        var (a, b) := order[n];
        assert order[..n + 1][..n] == order[..n];
        evaluated := evaluated + 1;
        if a !in db.persons || b !in db.persons {
          continue;
        }
        if !db.persons[a].canonical || !db.persons[b].canonical {
          continue;
        }
        if verdict(n).Merge? {
          var (kept, gone) := if db.persons[a].createdAt <= db.persons[b].createdAt then (a, b) else (b, a);
          var _ := MergePersons(kept, gone);
          autoMerged := autoMerged + 1;
        } else if verdict(n).Review? {
          if !PendingPair(db, a, b) {
            db := db.(matches := db.matches + [Match(a, b, Pending)]);
            flagged := flagged + 1;
          }
        }
      }
      assert order[..|order|] == order;
    }

    /** One whole run: block, list the pairs in whatever order the set gives them, resolve each once. */
    method ResolveAll(keys: Keys, persons: seq<nat>, verdict: nat -> Verdict)
      returns (order: seq<(nat, nat)>, evaluated: nat, autoMerged: nat, flagged: nat)
      requires Distinct(persons) && (forall p :: p in persons <==> p in keys)
      modifies this
      ensures Distinct(order) && forall a: nat, b: nat :: (a, b) in order <==> |persons| >= 2 && SharesKey(keys, a, b)
      ensures db == Resolved(old(db), order, verdict)
      ensures evaluated == |order| && autoMerged == MergeCount(old(db), order, verdict)
      ensures flagged == |db.matches| - |old(db).matches|
    {
      order := [];
      if |persons| < 2 {
        return [], 0, 0, 0;
      }
      var pairs := CandidatePairs(keys, persons);
      order := Listed(pairs);
      forall i | 0 <= i < |order| ensures order[i].0 < order[i].1 {
        assert (order[i].0, order[i].1) in order;
        assert SharesKey(keys, order[i].0, order[i].1);
      }
      evaluated, autoMerged, flagged := ResolveIdentities(order, verdict);
    }

    /** Persons are not the same; only the match is written. */
    method RejectMatch(i: nat) returns (outcome: Approval)
      modifies this
      ensures db == Reject(old(db), i)
      ensures outcome == if i >= |old(db).matches| then NotFound else if old(db).matches[i].status != Pending then AlreadyResolved else Done
    {
      if i >= |db.matches| {
        return NotFound;
      }
      if db.matches[i].status != Pending {
        return AlreadyResolved;
      }
      db := db.(matches := db.matches[i := db.matches[i].(status := Rejected)]);
      return Done;
    }

    method Approve(i: nat) returns (outcome: Approval)
      modifies this
      ensures outcome == ApprovalOf(old(db), i) && db == AfterApproval(old(db), i)
    {
      if i >= |db.matches| {
        return NotFound;
      }
      var m := db.matches[i];
      if m.status != Pending {
        return AlreadyResolved;
      }
      if m.a !in db.persons || m.b !in db.persons {
        return PersonMissing;
      }
      var (kept, gone) := if db.persons[m.a].createdAt <= db.persons[m.b].createdAt then (m.a, m.b) else (m.b, m.a);
      var _ := MergePersons(kept, gone);
      db := db.(matches := db.matches[i := m.(status := Approved)]);
      return Done;
    }
  }
}
