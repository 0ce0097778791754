/**
 Stronger evidence wins (backend/app/processing/reconcile.py): what makes an observation strong, how a
 disagreeing group is ranked, and whom a pass lets take over the claims it supersedes.
 */
module ClaimStrength {
  import opened ClaimModel
  import opened ClaimProofs
  import opened ClaimDedup
  import opened ClaimHistory

  // ----- strength -----

  lemma ProductGrows(x: real, y: real, f: real)
    requires x > y && f > 0.0
    ensures x * f > y * f
  {
  }

  lemma ProductsCompare(x: real, y: real, f: real)
    requires f > 0.0
    ensures x * f > y * f <==> x > y
  {
    if x > y { ProductGrows(x, y, f); }
    if y > x { ProductGrows(y, x, f); }
  }

  // Full days, and how much of the confidence they leave.
  function Days(o: Observation, now: int): int { (now - o.observedAt) / 86400 }

  function Recency(days: int): (r: real)
    ensures r >= 0.5 && (days >= 183 ==> r == 0.5) && (0 <= days <= 182 ==> r == 1.0 - days as real / 365.0)
  {
    if 1.0 - days as real / 365.0 < 0.5 then 0.5 else 1.0 - days as real / 365.0
  }

  lemma RecencyFalls(days: int, more: int)
    requires days <= more
    ensures Recency(more) <= Recency(days)
  {
  }

  lemma StrengthIsProduct(o: Observation, now: int)
    ensures Strength(o, now) == (if o.confidence == 0.0 then 0.5 else o.confidence) * Recency(Days(o, now))
  {
  }

  lemma Halves(c: real, f: real)
    requires c >= 0.0 && f >= 0.5
    ensures c * f >= c * 0.5
  {
  }

  lemma KeepsOrder(c: real, f: real, g: real)
    requires c >= 0.0 && f >= g
    ensures c * f >= c * g
  {
  }

  /** At equal age and moment the larger confidence wins; a missing one, stored as zero, counts as one half. */
  lemma ConfidenceDecides(a: Observation, b: Observation, now: int)
    requires a.observedAt == b.observedAt && a.confidence != 0.0 && b.confidence != 0.0
    ensures Strength(a, now) > Strength(b, now) <==> a.confidence > b.confidence
    ensures Strength(a.(confidence := 0.0), now) == Strength(a.(confidence := 0.5), now)
  {
    StrengthIsProduct(a, now);
    StrengthIsProduct(b, now);
    ProductsCompare(a.confidence, b.confidence, Recency(Days(a, now)));
  }

  /** At equal confidence the newer observation is never weaker. */
  lemma NewerIsNeverWeaker(a: Observation, b: Observation, now: int)
    requires a.confidence == b.confidence >= 0.0 && a.observedAt >= b.observedAt
    ensures Strength(a, now) >= Strength(b, now)
  {
    StrengthIsProduct(a, now);
    StrengthIsProduct(b, now);
    RecencyFalls(Days(a, now), Days(b, now));
    KeepsOrder(if a.confidence == 0.0 then 0.5 else a.confidence, Recency(Days(a, now)), Recency(Days(b, now)));
  }

  /** Age takes a 365th of the confidence for each full day, and half of it at most. */
  lemma AgeTakesHalfAtMost(o: Observation, now: int)
    requires o.confidence > 0.0
    ensures Strength(o, now) >= o.confidence / 2.0
    ensures o.observedAt <= now && Days(o, now) <= 182 ==> Strength(o, now) == o.confidence * (1.0 - Days(o, now) as real / 365.0)
    ensures now >= o.observedAt + 183 * 86400 ==> Strength(o, now) == o.confidence / 2.0
  {
    StrengthIsProduct(o, now);
    Halves(o.confidence, Recency(Days(o, now)));
    if now >= o.observedAt + 183 * 86400 { assert Days(o, now) >= 183; }
  }

  // ----- the ranking -----

  predicate SortedByStrength(xs: seq<Observation>, clock: Clock) {
    forall i, j :: 0 <= i < j < |xs| ==> Strength(xs[i], clock(xs[i].id)) >= Strength(xs[j], clock(xs[j].id))
  }

  // The members of one strength, in order.
  function AtLevel(xs: seq<Observation>, clock: Clock, level: real): seq<Observation> {
    if xs == [] then []
    else (if Strength(xs[0], clock(xs[0].id)) == level then [xs[0]] else []) + AtLevel(xs[1..], clock, level)
  }

  // An element at least as strong as all of zs stays first.
  lemma FirstIsLast(x: Observation, zs: seq<Observation>, o: Observation, rest: seq<Observation>, clock: Clock)
    requires SortedByStrength(zs, clock) && SortedByStrength([x] + rest, clock) && Stronger(x, o, clock)
    requires forall z :: z in zs <==> z == o || z in rest
    ensures SortedByStrength([x] + zs, clock)
  {
    forall j | 0 <= j < |zs| ensures Strength(x, clock(x.id)) >= Strength(zs[j], clock(zs[j].id)) {
      assert zs[j] in zs;
      if zs[j] != o {
        var k :| 0 <= k < |rest| && rest[k] == zs[j];
        var xs := [x] + rest;
        assert xs[0] == x && xs[k + 1] == rest[k];
      }
    }
  }

  lemma {:induction false} InsertSorts(o: Observation, xs: seq<Observation>, clock: Clock)
    requires SortedByStrength(xs, clock)
    ensures SortedByStrength(InsertByStrength(o, xs, clock), clock)
  {
    if xs != [] && Stronger(xs[0], o, clock) {
      InsertSorts(o, xs[1..], clock);
      InsertByStrengthKeeps(o, xs[1..], clock);
      FirstIsLast(xs[0], InsertByStrength(o, xs[1..], clock), o, xs[1..], clock);
    }
  }

  lemma {:induction false} InsertIsStable(o: Observation, xs: seq<Observation>, clock: Clock, level: real)
    ensures AtLevel(InsertByStrength(o, xs, clock), clock, level) == AtLevel([o] + xs, clock, level)
  {
    assert ([o] + xs)[1..] == xs;
    if xs != [] && Stronger(xs[0], o, clock) {
      InsertIsStable(o, xs[1..], clock, level);
      assert ([o] + xs[1..])[1..] == xs[1..];
      var rest := InsertByStrength(o, xs[1..], clock);
      assert ([xs[0]] + rest)[1..] == rest;
    }
  }

  lemma {:induction false} RankingIsSorted(g: seq<Observation>, clock: Clock)
    ensures SortedByStrength(StrongestFirst(g, clock), clock)
  {
    if g != [] {
      RankingIsSorted(g[1..], clock);
      InsertSorts(g[0], StrongestFirst(g[1..], clock), clock);
    }
  }

  lemma {:induction false} RankingIsStable(g: seq<Observation>, clock: Clock, level: real)
    ensures AtLevel(StrongestFirst(g, clock), clock, level) == AtLevel(g, clock, level)
  {
    if g != [] {
      var rest := StrongestFirst(g[1..], clock);
      RankingIsStable(g[1..], clock, level);
      InsertIsStable(g[0], rest, clock, level);
      assert ([g[0]] + rest)[1..] == rest;
    }
  }

  /** The ranking keeps the group, and falls in strength at the moments read; of equal strength, it keeps the query's order. */
  lemma RankingIsSortedAndStable(g: seq<Observation>, clock: Clock)
    ensures var ranked := StrongestFirst(g, clock);
      && |ranked| == |g| && (forall o :: o in ranked <==> o in g)
      && (forall i, j :: 0 <= i < j < |ranked| ==> !Stronger(ranked[j], ranked[i], clock))
      && (forall level :: AtLevel(ranked, clock, level) == AtLevel(g, clock, level))
  {
    StrengthOrderKeepsGroup(g, clock);
    RankingIsSorted(g, clock);
    forall level ensures AtLevel(StrongestFirst(g, clock), clock, level) == AtLevel(g, clock, level) {
      RankingIsStable(g, clock, level);
    }
  }

  // ----- whom a pass lets take over -----

  predicate Unbeaten(o: Observation, g: seq<Observation>, clock: Clock) {
    o in g && forall x :: x in g ==> Strength(x, clock(x.id)) <= Strength(o, clock(o.id))
  }

  lemma FirstIsUnbeaten(g: seq<Observation>, clock: Clock)
    requires g != []
    ensures StrongestFirst(g, clock) != [] && Unbeaten(StrongestFirst(g, clock)[0], g, clock)
  {
    StrengthOrderKeepsGroup(g, clock);
    RankingIsSorted(g, clock);
    var ranked := StrongestFirst(g, clock);
    forall x | x in g ensures Strength(x, clock(x.id)) <= Strength(ranked[0], clock(ranked[0].id)) {
      var i :| 0 <= i < |ranked| && ranked[i] == x;
    }
  }

  // What takes over in a group: all of it together if it agrees, else one observation that none beats.
  ghost predicate Heir(c: Claim, g: seq<Observation>, clock: Clock) {
    if Agree(g) then c.status == Supported && c.cites == Ids(g)
    else c.status == Contradicted && exists o :: Unbeaten(o, g, clock) && c.cites == [o.id] && c.value == o.value
  }

  ghost predicate YieldsToHeir(r: seq<Claim>, k: nat, rows: seq<Observation>, clock: Clock) {
    && k < |r| && r[k].successor.Some? && r[k].successor.value < |r|
    && Heir(r[r[k].successor.value], Group(rows, r[k].scope), clock)
  }

  ghost predicate Yields(cs: seq<Claim>, r: seq<Claim>, rows: seq<Observation>, clock: Clock) {
    && |cs| <= |r|
    && (forall k :: 0 <= k < |cs| ==> r[k].SameFacts(cs[k]) && (!cs[k].Current() ==> r[k] == cs[k]))
    && (forall k :: 0 <= k < |cs| && cs[k].Current() && !r[k].Current() ==> YieldsToHeir(r, k, rows, clock))
  }

  lemma SameFactsHeir(c: Claim, c': Claim, g: seq<Observation>, clock: Clock)
    requires c'.SameFacts(c) && Heir(c, g, clock)
    ensures Heir(c', g, clock)
  {
    assert c'.status == c.status && c'.cites == c.cites && c'.value == c.value;
  }

  lemma YieldsThen(cs: seq<Claim>, mid: seq<Claim>, r: seq<Claim>, rows: seq<Observation>, clock: Clock)
    requires Yields(cs, mid, rows, clock) && Yields(mid, r, rows, clock)
    ensures Yields(cs, r, rows, clock)
  {
    forall k | 0 <= k < |cs| && cs[k].Current() && !r[k].Current() ensures YieldsToHeir(r, k, rows, clock) {
      if !mid[k].Current() {
        var j := mid[k].successor.value;
        assert YieldsToHeir(mid, k, rows, clock) && r[k] == mid[k];
        SameFactsHeir(mid[j], r[j], Group(rows, r[k].scope), clock);
      } else {
        assert YieldsToHeir(r, k, rows, clock);
      }
    }
  }

  lemma ReplaceYields(cs: seq<Claim>, c: Claim, rows: seq<Observation>, clock: Clock)
    requires Heir(c, Group(rows, c.scope), clock)
    ensures Yields(cs, Replace(cs, c), rows, clock)
  {
    var r := Replace(cs, c);
    assert r[|cs|] == c;
    forall k | 0 <= k < |cs| && cs[k].Current() && !r[k].Current() ensures YieldsToHeir(r, k, rows, clock) {
      assert r[k] == cs[k].SupersededBy(|cs|, c.validStart) && cs[k].scope == c.scope;
    }
  }

  lemma AppendYields(cs: seq<Claim>, r: seq<Claim>, rows: seq<Observation>, clock: Clock)
    requires cs <= r
    ensures Yields(cs, r, rows, clock)
  {
  }

  lemma {:induction false} CountersPrefix(cs: seq<Claim>, losers: seq<Observation>, stamp: int)
    ensures cs <= AddCounterEvidence(cs, losers, stamp)
    decreases |losers|
  {
    if losers != [] { CountersPrefix(WithCounter(cs, losers[0], stamp), losers[1..], stamp); }
  }

  lemma WinnerYields(cs: seq<Claim>, rows: seq<Observation>, g: seq<Observation>, winner: Observation, clock: Clock, stamp: int)
    requires g == Group(rows, winner.scope) && !Agree(g) && Unbeaten(winner, g, clock)
    ensures Yields(cs, RecordWinner(cs, winner, stamp), rows, clock)
  {
    if HasContradiction(cs, winner) {
      AppendYields(cs, cs, rows, clock);
    } else {
      var c := Contradiction(winner, stamp);
      assert c.cites == [winner.id] && c.value == winner.value;
      ReplaceYields(cs, c, rows, clock);
    }
  }

  lemma DisputeYields(cs: seq<Claim>, rows: seq<Observation>, s: Scope, clock: Clock, stamp: int)
    requires DistinctIds(rows) && !Agree(Group(rows, s))
    ensures Yields(cs, ReconcileScope(cs, Group(rows, s), clock, stamp), rows, clock)
  {
    var g := Group(rows, s);
    GroupMembers(rows, s);
    FirstIsUnbeaten(g, clock);
    var ranked := StrongestFirst(g, clock);
    var won := RecordWinner(cs, ranked[0], stamp);
    WinnerYields(cs, rows, g, ranked[0], clock, stamp);
    CountersPrefix(won, ranked[1..], stamp);
    AppendYields(won, AddCounterEvidence(won, ranked[1..], stamp), rows, clock);
    YieldsThen(cs, won, AddCounterEvidence(won, ranked[1..], stamp), rows, clock);
  }

  lemma SingleYields(cs: seq<Claim>, rows: seq<Observation>, g: seq<Observation>, clock: Clock, stamp: int)
    requires |g| == 1
    ensures Yields(cs, ReconcileScope(cs, g, clock, stamp), rows, clock)
  {
    AppendYields(cs, ReconcileScope(cs, g, clock, stamp), rows, clock);
  }

  lemma AgreementYields(cs: seq<Claim>, rows: seq<Observation>, g: seq<Observation>, s: Scope, clock: Clock, stamp: int)
    requires |g| > 1 && Agree(g) && IsGroup(g, s) && g == Group(rows, s)
    ensures Yields(cs, ReconcileScope(cs, g, clock, stamp), rows, clock)
  {
    var c := Support(g, clock, stamp);
    assert Strongest(g, clock) in g;
    assert Heir(c, g, clock) && c.scope == s;
    ReplaceYields(cs, c, rows, clock);
    AppendYields(cs, cs, rows, clock);
    AgreementAdds(cs, g, clock, stamp);
  }

  lemma ScopeYields(cs: seq<Claim>, rows: seq<Observation>, s: Scope, clock: Clock, stamp: int)
    requires DistinctIds(rows) && Group(rows, s) != []
    ensures Yields(cs, ReconcileScope(cs, Group(rows, s), clock, stamp), rows, clock)
  {
    GroupMembers(rows, s);
    if |Group(rows, s)| == 1 {
      SingleYields(cs, rows, Group(rows, s), clock, stamp);
    } else if Agree(Group(rows, s)) {
      AgreementYields(cs, rows, Group(rows, s), s, clock, stamp);
    } else {
      DisputeYields(cs, rows, s, clock, stamp);
    }
  }

  lemma {:induction false} ScopesYield(cs: seq<Claim>, rows: seq<Observation>, scopes: seq<Scope>, clock: Clock, stamp: int)
    requires DistinctIds(rows) && forall s :: s in scopes ==> InScope(NewestFirst(rows), s) != []
    ensures Yields(cs, ReconcileScopes(cs, NewestFirst(rows), scopes, clock, stamp), rows, clock)
    decreases |scopes|
  {
    if scopes == [] {
      AppendYields(cs, cs, rows, clock);
    } else {
      var last := |scopes| - 1;
      ScopesYield(cs, rows, scopes[..last], clock, stamp);
      var mid := ReconcileScopes(cs, NewestFirst(rows), scopes[..last], clock, stamp);
      ScopeYields(mid, rows, scopes[last], clock, stamp);
      LastScope(cs, NewestFirst(rows), scopes, clock, stamp);
      YieldsThen(cs, mid, ReconcileScopes(cs, NewestFirst(rows), scopes, clock, stamp), rows, clock);
    }
  }

  /**
   One pass over any table: whoever is superseded in a disagreeing scope yields to a contradicted claim
   that cites one observation, with its value, and no observation of the scope is stronger at the moments
   read.  In an agreeing scope it yields to the supported claim that cites them all.
   */
  lemma StrongestTakesOver(cs: seq<Claim>, rows: seq<Observation>, clock: Clock, stamp: int)
    requires DistinctIds(rows)
    ensures Yields(cs, Reconcile(cs, rows, clock, stamp), rows, clock)
  {
    ScopesAreInhabited(NewestFirst(rows));
    ScopesYield(cs, rows, ScopesOf(NewestFirst(rows)), clock, stamp);
  }

  predicate Disagree(rows: seq<Observation>, s: Scope) {
    exists o, x :: o in rows && x in rows && o.scope == x.scope == s && Strip(o.value) != Strip(x.value)
  }

  /** A group disagrees exactly if two observations of the scope differ by more than surrounding white space. */
  lemma AgreeIff(rows: seq<Observation>, s: Scope)
    requires DistinctIds(rows)
    ensures Agree(Group(rows, s)) <==> !Disagree(rows, s)
  {
    var g := Group(rows, s);
    GroupMembers(rows, s);
    if o, x :| o in rows && x in rows && o.scope == x.scope == s && Strip(o.value) != Strip(x.value) {
      var i :| 0 <= i < |g| && g[i] == o;
      var j :| 0 <= j < |g| && g[j] == x;
      assert Strip(g[i].value) != Strip(g[j].value);
    }
    if !Agree(g) {
      var i, j :| 0 <= i < |g| && 0 <= j < |g| && Strip(g[i].value) != Strip(g[j].value);
      assert g[i] in g && g[j] in g;
    }
  }

  // The claim tells one observation of the scope, and no observation of the scope is stronger.
  ghost predicate TellsStrongest(c: Claim, rows: seq<Observation>, s: Scope, clock: Clock) {
    exists o :: o in rows && o.scope == s && c.cites == [o.id] && c.value == o.value
      && forall x :: x in rows && x.scope == s ==> Strength(x, clock(x.id)) <= Strength(o, clock(o.id))
  }

  /** Over any history: when a pass supersedes a claim of a disputed scope, the strongest evidence takes over. */
  lemma StrongerEvidenceWins(states: seq<State>, actions: seq<Action>, n: nat, k: nat)
    requires Run(states, actions) && n < |actions| && actions[n].ReconcilePass?
    requires k < |states[n].claims| && states[n].claims[k].Current() && Disagree(states[n].rows, states[n].claims[k].scope)
    ensures k < |states[n + 1].claims|
    ensures var cs := states[n + 1].claims;
      !cs[k].Current() ==>
        && cs[k].successor.value < |cs| && cs[cs[k].successor.value].status == Contradicted
        && TellsStrongest(cs[cs[k].successor.value], states[n].rows, cs[k].scope, actions[n].clock)
  {
    var st, cs := states[n], states[n + 1].claims;
    RunIsSound(states, actions, n);
    assert StepAt(states, actions, n);
    StrongestTakesOver(st.claims, st.rows, actions[n].clock, actions[n].stamp);
    AgreeIff(st.rows, st.claims[k].scope);
    if !cs[k].Current() {
      var c, g := cs[cs[k].successor.value], Group(st.rows, cs[k].scope);
      assert YieldsToHeir(cs, k, st.rows, actions[n].clock);
      GroupMembers(st.rows, cs[k].scope);
      var o :| Unbeaten(o, g, actions[n].clock) && c.cites == [o.id] && c.value == o.value;
      assert o in g;
    }
  }

  // ----- values -----

  predicate AllSpaces(s: string, from: nat, to: nat)
    requires from <= to <= |s|
  {
    forall i :: from <= i < to ==> IsSpace(s[i])
  }

  lemma OneMoreBefore(s: string, n: nat)
    requires s != [] && IsSpace(s[0]) && n <= |s| - 1 && AllSpaces(s[1..], 0, n)
    ensures AllSpaces(s, 0, n + 1) && s[1..][n..] == s[n + 1..]
  {
    forall i | 0 <= i < n + 1 ensures IsSpace(s[i]) { if i > 0 { assert s[1..][i - 1] == s[i]; } }
  }

  lemma {:induction false} StripLeftSplits(s: string) returns (n: nat)
    ensures n <= |s| && AllSpaces(s, 0, n) && StripLeft(s) == s[n..]
    ensures n < |s| ==> !IsSpace(s[n])
  {
    if s != [] && IsSpace(s[0]) {
      n := StripLeftSplits(s[1..]);
      OneMoreBefore(s, n);
      n := n + 1;
    } else {
      n := 0;
      assert s[0..] == s;
    }
  }

  lemma OneMoreBehind(s: string, n: nat)
    requires s != [] && IsSpace(s[|s| - 1]) && n <= |s| - 1 && AllSpaces(s[..|s| - 1], n, |s| - 1)
    ensures AllSpaces(s, n, |s|) && s[..|s| - 1][..n] == s[..n]
  {
    forall i | n <= i < |s| ensures IsSpace(s[i]) { if i < |s| - 1 { assert s[..|s| - 1][i] == s[i]; } }
  }

  lemma {:induction false} StripRightSplits(s: string) returns (n: nat)
    ensures n <= |s| && AllSpaces(s, n, |s|) && StripRight(s) == s[..n]
    ensures n > 0 ==> !IsSpace(s[n - 1])
  {
    if s != [] && IsSpace(s[|s| - 1]) {
      n := StripRightSplits(s[..|s| - 1]);
      OneMoreBehind(s, n);
    } else {
      n := |s|;
      assert s[..|s|] == s;
    }
  }

  lemma PartOfRest(s: string, m: nat, k: nat)
    requires m <= |s| && k <= |s| - m && AllSpaces(s[m..], k, |s| - m)
    ensures AllSpaces(s, m + k, |s|) && s[m..][..k] == s[m..m + k]
  {
    forall i | m + k <= i < |s| ensures IsSpace(s[i]) { assert s[m..][i - m] == s[i]; }
  }

  /** Values are compared without the white space around them: exactly that is taken away. */
  lemma StripTakesSurroundingSpace(s: string) returns (m: nat, n: nat)
    ensures m <= n <= |s| && Strip(s) == s[m..n] && AllSpaces(s, 0, m) && AllSpaces(s, n, |s|)
    ensures m < n ==> !IsSpace(s[m]) && !IsSpace(s[n - 1])
  {
    m := StripLeftSplits(s);
    var rest := s[m..];
    var k := StripRightSplits(rest);
    PartOfRest(s, m, k);
    n := m + k;
    if m < n { assert rest[0] == s[m] && rest[k - 1] == s[n - 1]; }
  }
}
