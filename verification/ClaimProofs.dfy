/**
 What a reconciliation pass keeps: the shape of every scope after a pass, that a second pass
 changes nothing, and that superseded claims form a forest whose roots are current claims.
 */
module ClaimProofs {
  import opened Options
  import opened ClaimModel

  // ----- the observation query -----

  predicate DistinctIds(xs: seq<Observation>) {
    forall i, j :: 0 <= i < j < |xs| ==> xs[i].id != xs[j].id
  }

  predicate SortedNewestFirst(xs: seq<Observation>) {
    forall i, j :: 0 <= i < j < |xs| ==> Newer(xs[i], xs[j])
  }

  lemma InsertKeepsRows(o: Observation, xs: seq<Observation>)
    ensures |InsertByAge(o, xs)| == |xs| + 1
    ensures forall x :: x in InsertByAge(o, xs) <==> x == o || x in xs
    ensures SortedNewestFirst(xs) && (forall x :: x in xs ==> x.id != o.id) ==> SortedNewestFirst(InsertByAge(o, xs))
  {
    if !(xs == [] || Newer(o, xs[0])) {
      InsertKeepsRows(o, xs[1..]);
      assert forall x :: x in xs <==> x == xs[0] || x in xs[1..];
      if SortedNewestFirst(xs) && forall x :: x in xs ==> x.id != o.id {
        forall y | y in InsertByAge(o, xs[1..]) ensures Newer(xs[0], y) {
          if y != o { var k :| 0 <= k < |xs[1..]| && xs[1..][k] == y; }
        }
      }
    }
  }

  // The query returns every row once, in the order the source asks for.
  lemma QueryIsOrdered(rows: seq<Observation>)
    requires DistinctIds(rows)
    ensures SortedNewestFirst(NewestFirst(rows))
    ensures var q := NewestFirst(rows); forall i, j :: 0 <= i < j < |q| ==>
      q[i].observedAt > q[j].observedAt || (q[i].observedAt == q[j].observedAt && q[i].id > q[j].id)
    ensures |NewestFirst(rows)| == |rows| && forall o :: o in NewestFirst(rows) <==> o in rows
  {
    if rows != [] {
      var init, o := rows[..|rows| - 1], rows[|rows| - 1];
      QueryIsOrdered(init);
      InsertKeepsRows(o, NewestFirst(init));
      assert rows == init + [o];
    }
  }

  lemma InScopeMembers(xs: seq<Observation>, s: Scope)
    ensures forall o :: o in InScope(xs, s) <==> o in xs && o.scope == s
    ensures |InScope(xs, s)| <= |xs|
    ensures SortedNewestFirst(xs) ==> SortedNewestFirst(InScope(xs, s))
  {
    if xs != [] {
      InScopeMembers(xs[1..], s);
      assert forall x :: x in xs <==> x == xs[0] || x in xs[1..];
    }
  }

  lemma SameIdSameRow(g: seq<Observation>, a: Observation, b: Observation)
    requires DistinctIds(g) && a in g && b in g && a.id == b.id
    ensures a == b
  {
  }

  lemma GroupMembers(rows: seq<Observation>, s: Scope)
    requires DistinctIds(rows)
    ensures forall o :: o in Group(rows, s) <==> o in rows && o.scope == s
    ensures SortedNewestFirst(Group(rows, s)) && DistinctIds(Group(rows, s))
  {
    QueryIsOrdered(rows);
    InScopeMembers(NewestFirst(rows), s);
    var g := Group(rows, s);
    forall i, j | 0 <= i < j < |g| ensures g[i].id != g[j].id {
      assert g[i] in rows && g[j] in rows && Newer(g[i], g[j]);
      if g[i].id == g[j].id { SameIdSameRow(rows, g[i], g[j]); }
    }
  }

  lemma InsertInScope(o: Observation, xs: seq<Observation>, s: Scope)
    requires o.scope != s
    ensures InScope(InsertByAge(o, xs), s) == InScope(xs, s)
  {
    if xs == [] || Newer(o, xs[0]) {
      assert ([o] + xs)[1..] == xs;
    } else {
      InsertInScope(o, xs[1..], s);
      assert ([xs[0]] + InsertByAge(o, xs[1..]))[1..] == InsertByAge(o, xs[1..]);
    }
  }

  // Appending observations leaves a group as it is or adds an observation with a new id.
  ghost predicate Extends(g0: seq<Observation>, g1: seq<Observation>) {
    (forall o :: o in g0 ==> o in g1) && (g1 == g0 || exists o :: o in g1 && o.id !in Ids(g0))
  }

  lemma ExtendsStep(g0: seq<Observation>, g1: seq<Observation>, g2: seq<Observation>, o: Observation)
    requires Extends(g0, g1) && (forall x :: x in g2 <==> x == o || x in g1) && o.id !in Ids(g0)
    ensures Extends(g0, g2)
  {
    assert o in g2;
  }

  lemma IdIsNew(rows: seq<Observation>, k: nat, s: Scope)
    requires k < |rows| && DistinctIds(rows)
    ensures rows[|rows| - 1].id !in Ids(Group(rows[..k], s))
  {
    GroupMembers(rows[..k], s);
    forall x | x in Group(rows[..k], s) ensures x.id != rows[|rows| - 1].id {
      assert x in rows[..k];
    }
  }

  lemma {:induction false} GroupGrows(rows: seq<Observation>, k: nat, s: Scope)
    requires k <= |rows| && DistinctIds(rows)
    ensures Extends(Group(rows[..k], s), Group(rows, s))
    decreases |rows|
  {
    if k == |rows| {
      assert rows[..k] == rows;
    } else {
      var init, o := rows[..|rows| - 1], rows[|rows| - 1];
      GroupGrows(init, k, s);
      assert init[..k] == rows[..k] && rows == init + [o];
      if o.scope != s {
        InsertInScope(o, NewestFirst(init), s);
      } else {
        GroupMembers(rows, s);
        GroupMembers(init, s);
        IdIsNew(rows, k, s);
        ExtendsStep(Group(rows[..k], s), Group(init, s), Group(rows, s), o);
      }
    }
  }

  // ----- the shape of one scope -----

  // The claim says what every observation it cites says, and cites nothing outside the group.
  ghost predicate Grounded(c: Claim, g: seq<Observation>) {
    c.cites != [] && forall id :: id in c.cites ==> exists o :: o in g && o.id == id && Strip(o.value) == Strip(c.value)
  }

  ghost predicate Tidy(cs: seq<Claim>, s: Scope, g: seq<Observation>) {
    && (forall i :: 0 <= i < |cs| && cs[i].scope == s ==> Grounded(cs[i], g))
    && (forall i, j :: 0 <= i < j < |cs| && cs[i].scope == s && cs[j].scope == s ==>
          cs[i].status != cs[j].status || cs[i].cites != cs[j].cites)
  }

  ghost predicate OnlyClaim(cs: seq<Claim>, s: Scope, o: Observation) {
    && Found(cs, s, o.value, Unverified, [o.id])
    && (forall i :: 0 <= i < |cs| && cs[i].scope == s ==> cs[i].Current() && cs[i].status == Unverified)
    && (forall i, j :: 0 <= i < |cs| && 0 <= j < |cs| && cs[i].scope == s && cs[j].scope == s ==> i == j)
  }

  ghost predicate Supports(cs: seq<Claim>, s: Scope, g: seq<Observation>, k: nat) {
    && k < |cs| && cs[k].scope == s && cs[k].Current() && cs[k].status == Supported && cs[k].cites == Ids(g)
    && (forall i :: 0 <= i < |cs| && cs[i].scope == s ==> cs[i].status != Contradicted && (cs[i].Current() ==> i == k))
  }

  // `told` are the observations whose contradiction is already on record.
  ghost predicate Disputed(cs: seq<Claim>, s: Scope, told: seq<Observation>) {
    && (forall o :: o in told ==> HasContradiction(cs, o))
    && (forall i :: 0 <= i < |cs| && cs[i].scope == s && cs[i].Current() ==> cs[i].status == Contradicted)
    && (exists i :: 0 <= i < |cs| && cs[i].scope == s && cs[i].Current())
  }

  ghost predicate Settled(cs: seq<Claim>, s: Scope, g: seq<Observation>) {
    && Tidy(cs, s, g)
    && (|g| == 1 ==> OnlyClaim(cs, s, g[0]))
    && (|g| > 1 && Agree(g) ==> exists k :: Supports(cs, s, g, k))
    && (!Agree(g) ==> Disputed(cs, s, g))
  }

  // A group as the query returns it.
  predicate IsGroup(g: seq<Observation>, s: Scope) {
    DistinctIds(g) && forall o :: o in g ==> o.scope == s
  }

  // ----- what a pass may do to the table -----

  ghost predicate HandedOver(cs: seq<Claim>, i: nat) {
    && i < |cs| && cs[i].successor.Some?
    && var j := cs[i].successor.value;
      j < |cs| && j != i && cs[j].scope == cs[i].scope && cs[j].Current() && cs[i].validEnd == Some(cs[j].validStart)
  }

  // Facts never change, an edge once set stays, a new edge leads from a current claim to one that
  // is still current afterwards, and new claims are current.
  ghost predicate Evolves(cs: seq<Claim>, cs': seq<Claim>) {
    && |cs| <= |cs'|
    && (forall i :: 0 <= i < |cs| ==>
          && cs'[i].SameFacts(cs[i])
          && (!cs[i].Current() || cs'[i].Current() ==> cs'[i] == cs[i])
          && (cs[i].Current() && !cs'[i].Current() ==> HandedOver(cs', i)))
    && (forall i :: |cs| <= i < |cs'| ==> cs'[i].Current())
  }

  ghost predicate OnlyTouches(cs: seq<Claim>, cs': seq<Claim>, s: Scope) {
    && |cs| <= |cs'|
    && (forall i :: 0 <= i < |cs| && cs[i].scope != s ==> cs'[i] == cs[i])
    && (forall i :: |cs| <= i < |cs'| ==> cs'[i].scope == s)
  }

  lemma FoundStays(cs: seq<Claim>, cs': seq<Claim>, s: Scope, value: string, status: Status, cites: seq<nat>)
    requires |cs| <= |cs'| && forall i :: 0 <= i < |cs| ==> cs'[i].SameFacts(cs[i])
    requires Found(cs, s, value, status, cites)
    ensures Found(cs', s, value, status, cites)
  {
    var i :| 0 <= i < |cs| && Matches(cs[i], s, value, status, cites);
    assert Matches(cs'[i], s, value, status, cites);
  }

  lemma GroundedGrows(c: Claim, g0: seq<Observation>, g1: seq<Observation>)
    requires Grounded(c, g0) && forall o :: o in g0 ==> o in g1
    ensures Grounded(c, g1)
  {
    forall id | id in c.cites ensures exists o :: o in g1 && o.id == id && Strip(o.value) == Strip(c.value) {
      var o :| o in g0 && o.id == id && Strip(o.value) == Strip(c.value);
      assert o in g1;
    }
  }

  lemma TidyGrows(cs: seq<Claim>, s: Scope, g0: seq<Observation>, g1: seq<Observation>)
    requires Tidy(cs, s, g0) && forall o :: o in g0 ==> o in g1
    ensures Tidy(cs, s, g1)
  {
    forall i | 0 <= i < |cs| && cs[i].scope == s ensures Grounded(cs[i], g1) {
      GroundedGrows(cs[i], g0, g1);
    }
  }

  lemma CitedRow(c: Claim, g: seq<Observation>, id: nat) returns (o: Observation)
    requires Grounded(c, g) && id in c.cites
    ensures o in g && o.id == id && Strip(o.value) == Strip(c.value)
  {
    o :| o in g && o.id == id && Strip(o.value) == Strip(c.value);
  }

  // A claim that is not found yet can be added without creating a second claim for the same evidence.
  lemma AddKeepsTidy(cs: seq<Claim>, c: Claim, g: seq<Observation>)
    requires Tidy(cs, c.scope, g) && IsGroup(g, c.scope) && Grounded(c, g)
    requires !Found(cs, c.scope, c.value, c.status, c.cites)
    ensures Tidy(cs + [c], c.scope, g)
  {
    forall i | 0 <= i < |cs| && cs[i].scope == c.scope ensures cs[i].status != c.status || cs[i].cites != c.cites {
      if cs[i].cites == c.cites {
        var a := CitedRow(c, g, c.cites[0]);
        var b := CitedRow(cs[i], g, c.cites[0]);
        SameIdSameRow(g, a, b);
        assert !Matches(cs[i], c.scope, c.value, c.status, c.cites);
      }
    }
  }

  lemma TidyLooksAtFactsOnly(cs: seq<Claim>, cs': seq<Claim>, s: Scope, g: seq<Observation>)
    requires |cs| == |cs'| && forall i :: 0 <= i < |cs| ==> cs'[i].SameFacts(cs[i])
    requires Tidy(cs, s, g)
    ensures Tidy(cs', s, g)
  {
    forall i | 0 <= i < |cs'| && cs'[i].scope == s ensures Grounded(cs'[i], g) {
      assert Grounded(cs[i], g);
    }
  }

  lemma ReplaceKeepsTidy(cs: seq<Claim>, c: Claim, g: seq<Observation>)
    requires Tidy(cs + [c], c.scope, g)
    ensures Tidy(Replace(cs, c), c.scope, g)
  {
    TidyLooksAtFactsOnly(cs + [c], Replace(cs, c), c.scope, g);
  }

  lemma ReplaceEvolves(cs: seq<Claim>, c: Claim)
    requires c.Current()
    ensures Evolves(cs, Replace(cs, c)) && OnlyTouches(cs, Replace(cs, c), c.scope)
    ensures forall i :: 0 <= i < |cs| && cs[i].scope == c.scope ==> !Replace(cs, c)[i].Current()
  {
  }

  // Nothing in a settled scope is cited by the enlarged group's full id list, or by its new member.
  lemma NewEvidenceIsUncited(cs: seq<Claim>, s: Scope, g0: seq<Observation>, value: string, status: Status, cites: seq<nat>, id: nat)
    requires Tidy(cs, s, g0) && id in cites && id !in Ids(g0)
    ensures !Found(cs, s, value, status, cites)
  {
    forall i | 0 <= i < |cs| && cs[i].scope == s ensures cs[i].cites != cites {
      if cs[i].cites == cites {
        var o := CitedRow(cs[i], g0, id);
      }
    }
  }

  // ----- one scope of a pass -----

  lemma CountersFound(cs: seq<Claim>, losers: seq<Observation>, stamp: int)
    requires forall o :: o in losers ==> HasContradiction(cs, o)
    ensures AddCounterEvidence(cs, losers, stamp) == cs
  {
    if losers != [] {
      CountersFound(cs, losers[1..], stamp);
    }
  }

  lemma SettledIsStable(cs: seq<Claim>, s: Scope, g: seq<Observation>, clock: Clock, stamp: int)
    requires g != [] && IsGroup(g, s) && Settled(cs, s, g)
    ensures ReconcileScope(cs, g, clock, stamp) == cs
  {
    if |g| > 1 && Agree(g) {
      var k: nat :| Supports(cs, s, g, k);
      var top := Strongest(g, clock);
      assert Ids(g)[0] == g[0].id;
      var o := CitedRow(cs[k], g, g[0].id);
      assert Strip(top.value) == Strip(o.value);
      assert Matches(cs[k], s, top.value, Supported, Ids(g));
    } else if !Agree(g) {
      StrengthOrderKeepsGroup(g, clock);
      var ranked := StrongestFirst(g, clock);
      assert ranked[0] in g;
      CountersFound(cs, ranked[1..], stamp);
    }
  }

  function WithCounter(cs: seq<Claim>, o: Observation, stamp: int): seq<Claim> {
    if HasContradiction(cs, o) then cs else cs + [Contradiction(o, stamp)]
  }

  lemma ContradictionIsGrounded(o: Observation, g: seq<Observation>, stamp: int)
    requires o in g
    ensures Grounded(Contradiction(o, stamp), g)
  {
    assert Contradiction(o, stamp).cites[0] == o.id;
  }

  lemma CounterSettles(cs: seq<Claim>, s: Scope, g: seq<Observation>, told: seq<Observation>, o: Observation, stamp: int)
    requires IsGroup(g, s) && Tidy(cs, s, g) && Disputed(cs, s, told) && o in g
    ensures var r := WithCounter(cs, o, stamp); Tidy(r, s, g) && Disputed(r, s, told + [o])
  {
    var r := WithCounter(cs, o, stamp);
    if !HasContradiction(cs, o) {
      ContradictionIsGrounded(o, g, stamp);
      AddKeepsTidy(cs, Contradiction(o, stamp), g);
      assert Matches(r[|cs|], s, o.value, Contradicted, [o.id]);
    }
    forall x | x in told + [o] ensures HasContradiction(r, x) {
      if x in told { FoundStays(cs, r, x.scope, x.value, Contradicted, [x.id]); }
    }
    var i :| 0 <= i < |cs| && cs[i].scope == s && cs[i].Current();
    assert r[i] == cs[i];
  }

  // Counter-evidence is appended; nothing already in the table changes.
  ghost predicate Appends(cs: seq<Claim>, r: seq<Claim>, s: Scope) {
    |cs| <= |r| && r[..|cs|] == cs && forall i :: |cs| <= i < |r| ==> r[i].Current() && r[i].scope == s
  }

  lemma CountersSettle(cs: seq<Claim>, s: Scope, g: seq<Observation>, told: seq<Observation>, losers: seq<Observation>, stamp: int)
    requires IsGroup(g, s) && Tidy(cs, s, g) && Disputed(cs, s, told)
    requires forall o :: o in losers ==> o in g
    ensures Tidy(AddCounterEvidence(cs, losers, stamp), s, g)
    ensures Disputed(AddCounterEvidence(cs, losers, stamp), s, told + losers)
    decreases |losers|
  {
    if losers == [] {
      assert told + losers == told;
    } else {
      CounterSettles(cs, s, g, told, losers[0], stamp);
      CountersSettle(WithCounter(cs, losers[0], stamp), s, g, told + [losers[0]], losers[1..], stamp);
      assert told + [losers[0]] + losers[1..] == told + losers;
    }
  }

  lemma CountersAppend(cs: seq<Claim>, s: Scope, losers: seq<Observation>, stamp: int)
    requires forall o :: o in losers ==> o.scope == s
    ensures Appends(cs, AddCounterEvidence(cs, losers, stamp), s)
    decreases |losers|
  {
    if losers != [] {
      var cs', r := WithCounter(cs, losers[0], stamp), AddCounterEvidence(cs, losers, stamp);
      CountersAppend(cs', s, losers[1..], stamp);
      forall i | 0 <= i < |cs'| ensures r[i] == cs'[i] { assert r[..|cs'|][i] == r[i]; }
      assert r[..|cs|] == cs;
    }
  }

  lemma WinnerSettles(cs: seq<Claim>, s: Scope, g0: seq<Observation>, g: seq<Observation>, winner: Observation, stamp: int)
    requires IsGroup(g, s) && winner in g && Settled(cs, s, g0) && (forall o :: o in g0 ==> o in g)
    requires HasContradiction(cs, winner) ==> !Agree(g0)
    ensures var r := RecordWinner(cs, winner, stamp);
      Tidy(r, s, g) && Disputed(r, s, [winner]) && Evolves(cs, r) && OnlyTouches(cs, r, s)
  {
    TidyGrows(cs, s, g0, g);
    if !HasContradiction(cs, winner) {
      var c := Contradiction(winner, stamp);
      assert Grounded(c, g);
      AddKeepsTidy(cs, c, g);
      ReplaceEvolves(cs, c);
      var r := Replace(cs, c);
      assert r[|cs|] == c && Matches(c, s, winner.value, Contradicted, [winner.id]);
      ReplaceKeepsTidy(cs, c, g);
    }
  }

  lemma AgreementHasNoContradiction(cs: seq<Claim>, s: Scope, g: seq<Observation>)
    requires Settled(cs, s, g) && Agree(g)
    ensures forall i :: 0 <= i < |cs| && cs[i].scope == s ==> cs[i].status != Contradicted
  {
    forall i | 0 <= i < |cs| && cs[i].scope == s ensures cs[i].status != Contradicted {
      var o := CitedRow(cs[i], g, cs[i].cites[0]);
      if |g| > 1 { var k: nat :| Supports(cs, s, g, k); }
    }
  }

  lemma DisputeIsSettled(cs: seq<Claim>, s: Scope, ranked: seq<Observation>, g: seq<Observation>)
    requires !Agree(g) && Tidy(cs, s, g) && Disputed(cs, s, ranked) && forall o :: o in g ==> o in ranked
    ensures Settled(cs, s, g)
  {
    assert Disputed(cs, s, g);
    assert |g| != 1;
  }

  lemma LosersSettle(won: seq<Claim>, s: Scope, g: seq<Observation>, winner: Observation, losers: seq<Observation>, stamp: int)
    requires !Agree(g) && IsGroup(g, s) && Tidy(won, s, g) && Disputed(won, s, [winner])
    requires forall o :: o in losers ==> o in g
    requires forall o :: o in g ==> o in [winner] + losers
    ensures Settled(AddCounterEvidence(won, losers, stamp), s, g)
  {
    CountersSettle(won, s, g, [winner], losers, stamp);
    DisputeIsSettled(AddCounterEvidence(won, losers, stamp), s, [winner] + losers, g);
  }

  lemma AppendKeepsEvolves(cs: seq<Claim>, mid: seq<Claim>, r: seq<Claim>, s: Scope)
    requires Evolves(cs, mid) && OnlyTouches(cs, mid, s) && Appends(mid, r, s)
    ensures Evolves(cs, r) && OnlyTouches(cs, r, s)
  {
    forall i | 0 <= i < |mid| ensures r[i] == mid[i] {
      assert r[..|mid|][i] == r[i];
    }
  }

  lemma RankedSettles(cs: seq<Claim>, s: Scope, g0: seq<Observation>, g: seq<Observation>,
                      winner: Observation, losers: seq<Observation>, stamp: int)
    requires !Agree(g) && IsGroup(g, s) && Settled(cs, s, g0) && Extends(g0, g)
    requires forall o :: o in g <==> o in [winner] + losers
    ensures var r := AddCounterEvidence(RecordWinner(cs, winner, stamp), losers, stamp);
      Settled(r, s, g) && Evolves(cs, r) && OnlyTouches(cs, r, s)
  {
    assert winner in [winner] + losers && forall o :: o in losers ==> o in [winner] + losers;
    if HasContradiction(cs, winner) && Agree(g0) { AgreementHasNoContradiction(cs, s, g0); }
    WinnerSettles(cs, s, g0, g, winner, stamp);
    LosersSettle(RecordWinner(cs, winner, stamp), s, g, winner, losers, stamp);
    CountersAppend(RecordWinner(cs, winner, stamp), s, losers, stamp);
    AppendKeepsEvolves(cs, RecordWinner(cs, winner, stamp), AddCounterEvidence(RecordWinner(cs, winner, stamp), losers, stamp), s);
  }

  lemma DisputeSettles(cs: seq<Claim>, s: Scope, g0: seq<Observation>, g: seq<Observation>, clock: Clock, stamp: int)
    requires !Agree(g) && IsGroup(g, s) && Settled(cs, s, g0) && Extends(g0, g)
    ensures var r := ReconcileScope(cs, g, clock, stamp);
      Settled(r, s, g) && Evolves(cs, r) && OnlyTouches(cs, r, s)
  {
    StrengthOrderKeepsGroup(g, clock);
    var ranked := StrongestFirst(g, clock);
    assert ranked[0] in g && ranked == [ranked[0]] + ranked[1..];
    RankedSettles(cs, s, g0, g, ranked[0], ranked[1..], stamp);
  }

  lemma SingleGroupIsOld(g0: seq<Observation>, g: seq<Observation>)
    requires |g| == 1 && g0 != [] && Extends(g0, g)
    ensures g == g0
  {
    assert g0[0] in g && Ids(g0)[0] == g[0].id;
  }

  lemma NoClaimYet(cs: seq<Claim>, s: Scope)
    requires Settled(cs, s, [])
    ensures forall i :: 0 <= i < |cs| ==> cs[i].scope != s
  {
    forall i | 0 <= i < |cs| ensures cs[i].scope != s {
      if cs[i].scope == s { var x := CitedRow(cs[i], [], cs[i].cites[0]); }
    }
  }

  lemma SingleSettles(cs: seq<Claim>, s: Scope, g0: seq<Observation>, g: seq<Observation>, clock: Clock, stamp: int)
    requires |g| == 1 && g != g0 && IsGroup(g, s) && Settled(cs, s, g0) && Extends(g0, g)
    ensures var r := ReconcileScope(cs, g, clock, stamp);
      Settled(r, s, g) && Evolves(cs, r) && OnlyTouches(cs, r, s)
  {
    var o := g[0];
    if g0 != [] { SingleGroupIsOld(g0, g); }
    NoClaimYet(cs, s);
    var c := Derived(o, Unverified, [o.id], o.confidence, stamp);
    var r := cs + [c];
    assert Matches(r[|cs|], s, o.value, Unverified, [o.id]);
    assert Grounded(c, g);
    assert Tidy(r, s, g) && OnlyClaim(r, s, o);
  }

  lemma SupportIsGrounded(g: seq<Observation>, clock: Clock, stamp: int)
    requires g != [] && Agree(g)
    ensures Grounded(Support(g, clock, stamp), g)
  {
    var c := Support(g, clock, stamp);
    assert c.cites[0] == g[0].id;
    forall id | id in c.cites ensures exists o :: o in g && o.id == id && Strip(o.value) == Strip(c.value) {
      var n :| 0 <= n < |g| && Ids(g)[n] == id;
      assert g[n] in g;
    }
  }

  lemma SubgroupAgrees(g0: seq<Observation>, g: seq<Observation>)
    requires Agree(g) && forall o :: o in g0 ==> o in g
    ensures Agree(g0)
  {
    forall a, b | 0 <= a < |g0| && 0 <= b < |g0| ensures Strip(g0[a].value) == Strip(g0[b].value) {
      assert g0[a] in g && g0[b] in g;
    }
  }

  lemma AgreementSettles(cs: seq<Claim>, s: Scope, g0: seq<Observation>, g: seq<Observation>, clock: Clock, stamp: int)
    requires |g| > 1 && Agree(g) && g != g0 && IsGroup(g, s) && Settled(cs, s, g0) && Extends(g0, g)
    ensures var r := ReconcileScope(cs, g, clock, stamp);
      Settled(r, s, g) && Evolves(cs, r) && OnlyTouches(cs, r, s)
  {
    var c := Support(g, clock, stamp);
    var added :| added in g && added.id !in Ids(g0);
    var n :| 0 <= n < |g| && g[n] == added;
    assert Ids(g)[n] == added.id;
    NewEvidenceIsUncited(cs, s, g0, Strongest(g, clock).value, Supported, Ids(g), added.id);
    TidyGrows(cs, s, g0, g);
    SupportIsGrounded(g, clock, stamp);
    AddKeepsTidy(cs, c, g);
    ReplaceEvolves(cs, c);
    var r := Replace(cs, c);
    ReplaceKeepsTidy(cs, c, g);
    SubgroupAgrees(g0, g);
    AgreementHasNoContradiction(cs, s, g0);
    assert Supports(r, s, g, |cs|);
  }

  /** From a settled scope, with any observations appended, one pass leads to a settled scope. */
  lemma ScopePassSettles(cs: seq<Claim>, s: Scope, g0: seq<Observation>, g: seq<Observation>, clock: Clock, stamp: int)
    requires g != [] && IsGroup(g, s) && Settled(cs, s, g0) && Extends(g0, g)
    ensures var r := ReconcileScope(cs, g, clock, stamp);
      Settled(r, s, g) && Evolves(cs, r) && OnlyTouches(cs, r, s)
  {
    if g == g0 {
      SettledIsStable(cs, s, g, clock, stamp);
    } else if |g| == 1 {
      SingleSettles(cs, s, g0, g, clock, stamp);
    } else if Agree(g) {
      AgreementSettles(cs, s, g0, g, clock, stamp);
    } else {
      DisputeSettles(cs, s, g0, g, clock, stamp);
    }
  }
}
