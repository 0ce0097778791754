/**
 Whole histories of a person's claims: observations are appended, passes of reconciliation and of
 near-duplicate removal run in any order, with any clock and any tie order.
 */
module ClaimHistory {
  import opened ClaimModel
  import opened ClaimProofs
  import opened ClaimDedup
  import opened Sequences

  // ----- one pass over all scopes -----

  // The two tables hold the same claims of scope s.
  ghost predicate SameIn(cs: seq<Claim>, cs': seq<Claim>, s: Scope) {
    && |cs| <= |cs'|
    && (forall i :: 0 <= i < |cs| && cs[i].scope == s ==> cs'[i] == cs[i])
    && (forall i :: 0 <= i < |cs'| && cs'[i].scope == s ==> i < |cs| && cs[i] == cs'[i])
  }

  lemma FoundIn(cs: seq<Claim>, cs': seq<Claim>, s: Scope, value: string, status: Status, cites: seq<nat>)
    requires SameIn(cs, cs', s) && Found(cs, s, value, status, cites)
    ensures Found(cs', s, value, status, cites)
  {
    var i :| 0 <= i < |cs| && Matches(cs[i], s, value, status, cites);
    assert cs'[i] == cs[i];
  }

  lemma SettledElsewhere(cs: seq<Claim>, cs': seq<Claim>, s: Scope, g: seq<Observation>)
    requires SameIn(cs, cs', s) && IsGroup(g, s) && Settled(cs, s, g)
    ensures Settled(cs', s, g)
  {
    if |g| == 1 { FoundIn(cs, cs', s, g[0].value, Unverified, [g[0].id]); }
    if |g| > 1 && Agree(g) {
      var k: nat :| Supports(cs, s, g, k);
      assert Supports(cs', s, g, k);
    }
    if !Agree(g) {
      forall o | o in g ensures HasContradiction(cs', o) { FoundIn(cs, cs', s, o.value, Contradicted, [o.id]); }
      var i :| 0 <= i < |cs| && cs[i].scope == s && cs[i].Current();
      assert cs'[i] == cs[i];
    }
  }

  // Everything is settled with respect to the first k rows.
  ghost predicate AllSettled(cs: seq<Claim>, rows: seq<Observation>) {
    forall s :: Settled(cs, s, Group(rows, s))
  }

  lemma EvolvesThen(cs: seq<Claim>, mid: seq<Claim>, r: seq<Claim>, s: Scope)
    requires Evolves(cs, mid) && SameIn(cs, mid, s)
    requires Evolves(mid, r) && OnlyTouches(mid, r, s)
    ensures Evolves(cs, r)
  {
    forall i | 0 <= i < |cs| && cs[i].Current() && !r[i].Current() ensures HandedOver(r, i) {
      if cs[i].scope != s {
        assert r[i] == mid[i] && HandedOver(mid, i);
        assert r[mid[i].successor.value] == mid[mid[i].successor.value];
      }
    }
  }

  ghost predicate ScopesDone(cs: seq<Claim>, r: seq<Claim>, rows: seq<Observation>, scopes: seq<Scope>) {
    && Evolves(cs, r)
    && (forall s :: s in scopes ==> Settled(r, s, Group(rows, s)))
    && (forall s :: s !in scopes ==> SameIn(cs, r, s))
  }

  lemma SameInThen(cs: seq<Claim>, mid: seq<Claim>, r: seq<Claim>, t: Scope)
    requires SameIn(cs, mid, t) && SameIn(mid, r, t)
    ensures SameIn(cs, r, t)
  {
  }

  lemma OthersAreUntouched(mid: seq<Claim>, r: seq<Claim>, s: Scope, t: Scope)
    requires Evolves(mid, r) && OnlyTouches(mid, r, s) && s != t
    ensures SameIn(mid, r, t)
  {
    forall i | 0 <= i < |r| && r[i].scope == t ensures i < |mid| && mid[i] == r[i] {
      if i < |mid| { assert r[i].SameFacts(mid[i]); }
    }
  }

  lemma ScopeDone(cs: seq<Claim>, mid: seq<Claim>, r: seq<Claim>, rows: seq<Observation>, scopes: seq<Scope>, s: Scope)
    requires DistinctIds(rows) && ScopesDone(cs, mid, rows, scopes) && s !in scopes
    requires Evolves(mid, r) && OnlyTouches(mid, r, s) && Settled(r, s, Group(rows, s))
    ensures ScopesDone(cs, r, rows, scopes + [s])
  {
    EvolvesThen(cs, mid, r, s);
    forall t | t in scopes ensures Settled(r, t, Group(rows, t)) {
      GroupMembers(rows, t);
      OthersAreUntouched(mid, r, s, t);
      SettledElsewhere(mid, r, t, Group(rows, t));
    }
    forall t | t !in scopes + [s] ensures SameIn(cs, r, t) {
      OthersAreUntouched(mid, r, s, t);
      SameInThen(cs, mid, r, t);
    }
  }

  lemma ScopeSettles(cs: seq<Claim>, mid: seq<Claim>, rows: seq<Observation>, k: nat, scopes: seq<Scope>, s: Scope, clock: Clock, stamp: int)
    requires DistinctIds(rows) && k <= |rows| && AllSettled(cs, rows[..k])
    requires ScopesDone(cs, mid, rows, scopes) && s !in scopes && Group(rows, s) != []
    ensures ScopesDone(cs, ReconcileScope(mid, Group(rows, s), clock, stamp), rows, scopes + [s])
  {
    var r := ReconcileScope(mid, Group(rows, s), clock, stamp);
    GroupMembers(rows, s);
    GroupMembers(rows[..k], s);
    GroupGrows(rows, k, s);
    SettledElsewhere(cs, mid, s, Group(rows[..k], s));
    ScopePassSettles(mid, s, Group(rows[..k], s), Group(rows, s), clock, stamp);
    ScopeDone(cs, mid, r, rows, scopes, s);
  }

  lemma NothingDone(cs: seq<Claim>, rows: seq<Observation>)
    ensures ScopesDone(cs, cs, rows, [])
  {
  }

  lemma SplitLast(scopes: seq<Scope>)
    requires scopes != []
    ensures scopes == scopes[..|scopes| - 1] + [scopes[|scopes| - 1]]
  {
  }

  lemma LastScope(cs: seq<Claim>, obs: seq<Observation>, scopes: seq<Scope>, clock: Clock, stamp: int)
    requires scopes != [] && forall s :: s in scopes ==> InScope(obs, s) != []
    ensures var last := |scopes| - 1;
      ReconcileScopes(cs, obs, scopes, clock, stamp) ==
        ReconcileScope(ReconcileScopes(cs, obs, scopes[..last], clock, stamp), InScope(obs, scopes[last]), clock, stamp)
  {
  }

  lemma {:induction false} ScopesSettle(cs: seq<Claim>, rows: seq<Observation>, k: nat, scopes: seq<Scope>, clock: Clock, stamp: int)
    requires DistinctIds(rows) && k <= |rows| && AllSettled(cs, rows[..k])
    requires Distinct(scopes) && forall s :: s in scopes ==> InScope(NewestFirst(rows), s) != []
    ensures ScopesDone(cs, ReconcileScopes(cs, NewestFirst(rows), scopes, clock, stamp), rows, scopes)
    decreases |scopes|
  {
    if scopes == [] {
      NothingDone(cs, rows);
    } else {
      var last := |scopes| - 1;
      assert scopes[last] in scopes && scopes[last] !in scopes[..last];
      ScopesSettle(cs, rows, k, scopes[..last], clock, stamp);
      ScopeSettles(cs, ReconcileScopes(cs, NewestFirst(rows), scopes[..last], clock, stamp), rows, k,
                   scopes[..last], scopes[last], clock, stamp);
      LastScope(cs, NewestFirst(rows), scopes, clock, stamp);
      SplitLast(scopes);
    }
  }

  /** One pass settles every scope, whatever was appended since the last one. */
  lemma PassSettles(cs: seq<Claim>, rows: seq<Observation>, k: nat, clock: Clock, stamp: int)
    requires DistinctIds(rows) && k <= |rows| && AllSettled(cs, rows[..k])
    ensures var r := Reconcile(cs, rows, clock, stamp); AllSettled(r, rows) && Evolves(cs, r)
  {
    var scopes := ScopesOf(NewestFirst(rows));
    var r := Reconcile(cs, rows, clock, stamp);
    ScopesAreInhabited(NewestFirst(rows));
    ScopesSettle(cs, rows, k, scopes, clock, stamp);
    forall s ensures Settled(r, s, Group(rows, s)) {
      if s !in scopes {
        GroupMembers(rows[..k], s);
        GroupGrows(rows, k, s);
        assert Group(rows[..k], s) == [] by {
          assert forall o :: o in Group(rows[..k], s) ==> o in Group(rows, s);
        }
        SettledElsewhere(cs, r, s, []);
      }
    }
  }

  lemma {:induction false} ScopesUnchanged(cs: seq<Claim>, rows: seq<Observation>, scopes: seq<Scope>, clock: Clock, stamp: int)
    requires DistinctIds(rows) && AllSettled(cs, rows) && forall s :: s in scopes ==> InScope(NewestFirst(rows), s) != []
    ensures ReconcileScopes(cs, NewestFirst(rows), scopes, clock, stamp) == cs
    decreases |scopes|
  {
    if scopes != [] {
      var last := |scopes| - 1;
      ScopesUnchanged(cs, rows, scopes[..last], clock, stamp);
      GroupMembers(rows, scopes[last]);
      SettledIsStable(cs, scopes[last], Group(rows, scopes[last]), clock, stamp);
    }
  }

  /** Reconciling settled claims again creates and changes nothing, at any later clock. */
  lemma {:induction false} ReconcileIsIdempotent(cs: seq<Claim>, rows: seq<Observation>, clock: Clock, stamp: int)
    requires DistinctIds(rows) && AllSettled(cs, rows)
    ensures Reconcile(cs, rows, clock, stamp) == cs
  {
    var scopes := ScopesOf(NewestFirst(rows));
    ScopesAreInhabited(NewestFirst(rows));
    ScopesUnchanged(cs, rows, scopes, clock, stamp);
  }

  // ----- what a new claim takes from its evidence -----

  predicate TellsBest(c: Claim, o: Observation, g: seq<Observation>, clock: Clock) {
    && o in g && o.id in c.cites && o.value == c.value && o.observedAt == c.validStart
    && forall x :: x in g && x.id in c.cites ==> !Stronger(x, o, clock)
  }

  // Value and validity come from one observation cited that no other cited one beats at the moments read;
  // the confidence is the largest of those cited; the claim carries the time of the pass.
  ghost predicate Attested(c: Claim, g: seq<Observation>, clock: Clock, stamp: int) {
    && c.createdAt == stamp
    && (exists o :: TellsBest(c, o, g, clock))
    && (exists o :: o in g && o.id in c.cites && o.confidence == c.confidence)
    && (forall o :: o in g && o.id in c.cites ==> o.confidence <= c.confidence)
  }

  lemma OwnEvidenceAttests(o: Observation, g: seq<Observation>, status: Status, clock: Clock, stamp: int)
    requires DistinctIds(g) && o in g
    ensures Attested(Derived(o, status, [o.id], o.confidence, stamp), g, clock, stamp)
  {
    var c := Derived(o, status, [o.id], o.confidence, stamp);
    assert o.id in c.cites;
    forall x | x in g && x.id in c.cites ensures x == o { SameIdSameRow(g, x, o); }
    assert TellsBest(c, o, g, clock);
  }

  lemma GroupAttestsSupport(g: seq<Observation>, clock: Clock, stamp: int)
    requires g != []
    ensures Attested(Support(g, clock, stamp), g, clock, stamp)
  {
    var c := Support(g, clock, stamp);
    forall o | o in g ensures o.id in c.cites {
      var n :| 0 <= n < |g| && g[n] == o;
      assert Ids(g)[n] == o.id;
    }
    assert TellsBest(c, Strongest(g, clock), g, clock);
    var top :| top in g && top.confidence == MaxConfidence(g);
  }

  // From cs to r no claim's facts change, and the claims added are attested by their groups.
  ghost predicate AddsAttested(cs: seq<Claim>, r: seq<Claim>, rows: seq<Observation>, clock: Clock, stamp: int) {
    && |cs| <= |r|
    && (forall k :: 0 <= k < |cs| ==> r[k].SameFacts(cs[k]))
    && (forall k :: |cs| <= k < |r| ==> Attested(r[k], Group(rows, r[k].scope), clock, stamp))
  }

  lemma SameFactsAttested(c: Claim, c': Claim, g: seq<Observation>, clock: Clock, stamp: int)
    requires c'.SameFacts(c) && Attested(c, g, clock, stamp)
    ensures Attested(c', g, clock, stamp)
  {
    assert c'.cites == c.cites && c'.value == c.value && c'.confidence == c.confidence && c'.validStart == c.validStart;
    var o :| TellsBest(c, o, g, clock);
    assert TellsBest(c', o, g, clock);
  }

  lemma AddsAttestedThen(cs: seq<Claim>, mid: seq<Claim>, r: seq<Claim>, rows: seq<Observation>, clock: Clock, stamp: int)
    requires AddsAttested(cs, mid, rows, clock, stamp) && AddsAttested(mid, r, rows, clock, stamp)
    ensures AddsAttested(cs, r, rows, clock, stamp)
  {
    forall k | |cs| <= k < |mid| ensures Attested(r[k], Group(rows, r[k].scope), clock, stamp) {
      SameFactsAttested(mid[k], r[k], Group(rows, r[k].scope), clock, stamp);
    }
  }

  lemma NoneAttested(cs: seq<Claim>, rows: seq<Observation>, clock: Clock, stamp: int)
    ensures AddsAttested(cs, cs, rows, clock, stamp)
  {
  }

  lemma OneAttested(cs: seq<Claim>, c: Claim, rows: seq<Observation>, clock: Clock, stamp: int)
    requires Attested(c, Group(rows, c.scope), clock, stamp)
    ensures AddsAttested(cs, cs + [c], rows, clock, stamp) && AddsAttested(cs, Replace(cs, c), rows, clock, stamp)
  {
  }

  lemma {:induction false} LosersAttested(cs: seq<Claim>, rows: seq<Observation>, losers: seq<Observation>, clock: Clock, stamp: int)
    requires DistinctIds(rows) && forall o :: o in losers ==> o in rows
    ensures AddsAttested(cs, AddCounterEvidence(cs, losers, stamp), rows, clock, stamp)
    decreases |losers|
  {
    NoneAttested(cs, rows, clock, stamp);
    if losers != [] {
      GroupMembers(rows, losers[0].scope);
      OwnEvidenceAttests(losers[0], Group(rows, losers[0].scope), Contradicted, clock, stamp);
      OneAttested(cs, Contradiction(losers[0], stamp), rows, clock, stamp);
      LosersAttested(WithCounter(cs, losers[0], stamp), rows, losers[1..], clock, stamp);
      AddsAttestedThen(cs, WithCounter(cs, losers[0], stamp), AddCounterEvidence(cs, losers, stamp), rows, clock, stamp);
    }
  }

  lemma SingleAttested(cs: seq<Claim>, rows: seq<Observation>, s: Scope, clock: Clock, stamp: int)
    requires DistinctIds(rows) && |Group(rows, s)| == 1
    ensures AddsAttested(cs, ReconcileScope(cs, Group(rows, s), clock, stamp), rows, clock, stamp)
  {
    var g := Group(rows, s);
    GroupMembers(rows, s);
    assert g[0] in g;
    OwnEvidenceAttests(g[0], g, Unverified, clock, stamp);
    OneAttested(cs, Derived(g[0], Unverified, [g[0].id], g[0].confidence, stamp), rows, clock, stamp);
    NoneAttested(cs, rows, clock, stamp);
  }

  lemma AgreementAdds(cs: seq<Claim>, g: seq<Observation>, clock: Clock, stamp: int)
    requires |g| > 1 && Agree(g)
    ensures var r := ReconcileScope(cs, g, clock, stamp); r == cs || r == Replace(cs, Support(g, clock, stamp))
  {
  }

  lemma AgreementAttested(cs: seq<Claim>, rows: seq<Observation>, s: Scope, clock: Clock, stamp: int)
    requires DistinctIds(rows) && |Group(rows, s)| > 1 && Agree(Group(rows, s))
    ensures AddsAttested(cs, ReconcileScope(cs, Group(rows, s), clock, stamp), rows, clock, stamp)
  {
    var g := Group(rows, s);
    GroupMembers(rows, s);
    var c := Support(g, clock, stamp);
    GroupAttestsSupport(g, clock, stamp);
    assert Strongest(g, clock) in g && c.scope == s;
    OneAttested(cs, c, rows, clock, stamp);
    NoneAttested(cs, rows, clock, stamp);
    AgreementAdds(cs, g, clock, stamp);
  }

  lemma DisputeAttested(cs: seq<Claim>, rows: seq<Observation>, s: Scope, clock: Clock, stamp: int)
    requires DistinctIds(rows) && !Agree(Group(rows, s))
    ensures AddsAttested(cs, ReconcileScope(cs, Group(rows, s), clock, stamp), rows, clock, stamp)
  {
    var g := Group(rows, s);
    GroupMembers(rows, s);
    StrengthOrderKeepsGroup(g, clock);
    var ranked := StrongestFirst(g, clock);
    assert ranked[0] in g;
    OwnEvidenceAttests(ranked[0], g, Contradicted, clock, stamp);
    OneAttested(cs, Contradiction(ranked[0], stamp), rows, clock, stamp);
    NoneAttested(cs, rows, clock, stamp);
    var won := RecordWinner(cs, ranked[0], stamp);
    LosersAttested(won, rows, ranked[1..], clock, stamp);
    AddsAttestedThen(cs, won, AddCounterEvidence(won, ranked[1..], stamp), rows, clock, stamp);
  }

  lemma ScopeAttested(cs: seq<Claim>, rows: seq<Observation>, s: Scope, clock: Clock, stamp: int)
    requires DistinctIds(rows) && Group(rows, s) != []
    ensures AddsAttested(cs, ReconcileScope(cs, Group(rows, s), clock, stamp), rows, clock, stamp)
  {
    if |Group(rows, s)| == 1 {
      SingleAttested(cs, rows, s, clock, stamp);
    } else if Agree(Group(rows, s)) {
      AgreementAttested(cs, rows, s, clock, stamp);
    } else {
      DisputeAttested(cs, rows, s, clock, stamp);
    }
  }

  lemma {:induction false} ScopesAttested(cs: seq<Claim>, rows: seq<Observation>, scopes: seq<Scope>, clock: Clock, stamp: int)
    requires DistinctIds(rows) && forall s :: s in scopes ==> InScope(NewestFirst(rows), s) != []
    ensures AddsAttested(cs, ReconcileScopes(cs, NewestFirst(rows), scopes, clock, stamp), rows, clock, stamp)
    decreases |scopes|
  {
    if scopes == [] {
      NoneAttested(cs, rows, clock, stamp);
    } else {
      var last := |scopes| - 1;
      ScopesAttested(cs, rows, scopes[..last], clock, stamp);
      var mid := ReconcileScopes(cs, NewestFirst(rows), scopes[..last], clock, stamp);
      ScopeAttested(mid, rows, scopes[last], clock, stamp);
      LastScope(cs, NewestFirst(rows), scopes, clock, stamp);
      AddsAttestedThen(cs, mid, ReconcileScopes(cs, NewestFirst(rows), scopes, clock, stamp), rows, clock, stamp);
    }
  }

  /**
   Every claim a pass adds carries the time of the pass, has the value and start of one observation it cites
   that no other it cites beats at the moments read, and the largest confidence of those it cites; no other
   claim's facts change.
   */
  lemma PassAddsAttestedClaims(cs: seq<Claim>, rows: seq<Observation>, clock: Clock, stamp: int)
    requires DistinctIds(rows)
    ensures AddsAttested(cs, Reconcile(cs, rows, clock, stamp), rows, clock, stamp)
  {
    ScopesAreInhabited(NewestFirst(rows));
    ScopesAttested(cs, rows, ScopesOf(NewestFirst(rows)), clock, stamp);
  }

  // ----- supersession is a forest -----

  // Following supersession from claim i reaches, within n edges and inside its scope, a current claim.
  predicate EndsWithin(cs: seq<Claim>, i: nat, n: nat)
    requires i < |cs|
    decreases n
  {
    cs[i].Current()
    || (n > 0 && cs[i].successor.value < |cs| && cs[cs[i].successor.value].scope == cs[i].scope
        && EndsWithin(cs, cs[i].successor.value, n - 1))
  }

  predicate AllEndWithin(cs: seq<Claim>, n: nat) {
    forall i :: 0 <= i < |cs| ==> EndsWithin(cs, i, n)
  }

  ghost predicate Forest(cs: seq<Claim>) {
    exists n: nat :: AllEndWithin(cs, n)
  }

  lemma {:induction false} ChainGrowsByOne(cs: seq<Claim>, cs': seq<Claim>, i: nat, n: nat)
    requires Evolves(cs, cs') && i < |cs| && EndsWithin(cs, i, n)
    ensures EndsWithin(cs', i, n + 1)
    decreases n
  {
    if cs[i].Current() {
      if !cs'[i].Current() { assert HandedOver(cs', i); }
    } else {
      ChainGrowsByOne(cs, cs', cs[i].successor.value, n - 1);
    }
  }

  lemma EvolvesKeepsForest(cs: seq<Claim>, cs': seq<Claim>)
    requires Forest(cs) && Evolves(cs, cs')
    ensures Forest(cs')
  {
    var n: nat :| AllEndWithin(cs, n);
    var m := n + 1;
    forall i | 0 <= i < |cs'| ensures EndsWithin(cs', i, m) {
      if i < |cs| { ChainGrowsByOne(cs, cs', i, n); }
    }
    assert AllEndWithin(cs', m);
  }

  lemma HandingOverKeepsDispute(cs: seq<Claim>, cs': seq<Claim>, s: Scope, g: seq<Observation>)
    requires Evolves(cs, cs') && |cs| == |cs'| && IsGroup(g, s) && Disputed(cs, s, g)
    ensures Disputed(cs', s, g)
  {
    forall o | o in g ensures HasContradiction(cs', o) { FoundStays(cs, cs', s, o.value, Contradicted, [o.id]); }
    var i :| 0 <= i < |cs| && cs[i].scope == s && cs[i].Current();
    assert cs'[i].Current() || HandedOver(cs', i);
  }

  lemma HandingOverKeepsSupport(cs: seq<Claim>, cs': seq<Claim>, s: Scope, g: seq<Observation>, k: nat)
    requires Evolves(cs, cs') && |cs| == |cs'| && Supports(cs, s, g, k)
    ensures Supports(cs', s, g, k)
  {
    assert cs'[k].Current();
  }

  /** Near-duplicate removal, or anything else that only hands claims over, keeps every scope settled. */
  lemma HandingOverKeepsSettled(cs: seq<Claim>, cs': seq<Claim>, s: Scope, g: seq<Observation>)
    requires Evolves(cs, cs') && |cs| == |cs'| && IsGroup(g, s) && Settled(cs, s, g)
    ensures Settled(cs', s, g)
  {
    TidyLooksAtFactsOnly(cs, cs', s, g);
    if |g| == 1 {
      FoundStays(cs, cs', s, g[0].value, Unverified, [g[0].id]);
      assert OnlyClaim(cs', s, g[0]);
    } else if !Agree(g) {
      HandingOverKeepsDispute(cs, cs', s, g);
    } else if |g| > 1 {
      var k: nat :| Supports(cs, s, g, k);
      HandingOverKeepsSupport(cs, cs', s, g, k);
    }
  }

  // ----- runs -----

  // `seen` rows were in the table when reconciliation last ran.
  datatype State = State(rows: seq<Observation>, claims: seq<Claim>, seen: nat) {
    function Reconciled(): seq<Observation> {
      if seen <= |rows| then rows[..seen] else rows
    }
  }

  datatype Action =
    | Observe(o: Observation)
    | ReconcilePass(clock: Clock, stamp: int)
    | DedupPass(order: seq<nat>, embedding: Embeddings)

  const EMPTY := State([], [], 0)

  ghost predicate Step(st: State, a: Action, st': State) {
    match a
    case Observe(o) =>
      (forall x :: x in st.rows ==> x.id != o.id) && st' == st.(rows := st.rows + [o])
    case ReconcilePass(clock, stamp) =>
      st' == State(st.rows, Reconcile(st.claims, st.rows, clock, stamp), |st.rows|)
    case DedupPass(order, embedding) =>
      && NewestClaimsFirst(st.claims, order) && Deduplicated(st.claims, st'.claims, order, embedding)
      && st' == st.(claims := st'.claims)
  }

  ghost predicate StepAt(states: seq<State>, actions: seq<Action>, i: nat)
    requires i < |actions| && |states| == |actions| + 1
  {
    Step(states[i], actions[i], states[i + 1])
  }

  ghost predicate Run(states: seq<State>, actions: seq<Action>) {
    && |states| == |actions| + 1 && states[0] == EMPTY
    && forall i :: 0 <= i < |actions| ==> StepAt(states, actions, i)
  }

  ghost predicate Sound(st: State) {
    st.seen <= |st.rows| && DistinctIds(st.rows) && AllSettled(st.claims, st.rows[..st.seen]) && Forest(st.claims)
  }

  lemma StepKeepsSound(st: State, a: Action, st': State)
    requires Sound(st) && Step(st, a, st')
    ensures Sound(st') && Evolves(st.claims, st'.claims)
  {
    match a
    case Observe(o) =>
      assert st'.rows[..st.seen] == st.rows[..st.seen];
    case ReconcilePass(clock, stamp) =>
      PassSettles(st.claims, st.rows, st.seen, clock, stamp);
      assert st'.rows[..st'.seen] == st.rows;
      EvolvesKeepsForest(st.claims, st'.claims);
    case DedupPass(order, embedding) =>
      PassEvolves(st.claims, st'.claims, order, embedding);
      EvolvesKeepsForest(st.claims, st'.claims);
      forall s ensures Settled(st'.claims, s, Group(st.rows[..st.seen], s)) {
        GroupMembers(st.rows[..st.seen], s);
        HandingOverKeepsSettled(st.claims, st'.claims, s, Group(st.rows[..st.seen], s));
      }
  }

  lemma {:induction false} RunIsSound(states: seq<State>, actions: seq<Action>, n: nat)
    requires Run(states, actions) && n < |states|
    ensures Sound(states[n])
  {
    if n == 0 {
      assert AllEndWithin(EMPTY.claims, 0);
    } else {
      RunIsSound(states, actions, n - 1);
      assert StepAt(states, actions, n - 1);
      StepKeepsSound(states[n - 1], actions[n - 1], states[n]);
    }
  }

  /** In every run supersession is a forest whose roots are current claims of the same scope. */
  lemma SupersessionIsAForest(states: seq<State>, actions: seq<Action>, n: nat)
    requires Run(states, actions) && n < |states|
    ensures Forest(states[n].claims)
  {
    RunIsSound(states, actions, n);
  }

  lemma StepEvolves(states: seq<State>, actions: seq<Action>, n: nat)
    requires Run(states, actions) && n < |actions|
    ensures Evolves(states[n].claims, states[n + 1].claims)
  {
    RunIsSound(states, actions, n);
    assert StepAt(states, actions, n);
    StepKeepsSound(states[n], actions[n], states[n + 1]);
  }

  // Claim k keeps its facts, and its edge if it has one.
  ghost predicate Keeps(cs: seq<Claim>, cs': seq<Claim>, k: nat) {
    && k < |cs| && k < |cs'| && cs'[k].SameFacts(cs[k])
    && (!cs[k].Current() ==> cs'[k] == cs[k])
  }

  lemma KeepsOn(cs: seq<Claim>, mid: seq<Claim>, cs': seq<Claim>, k: nat)
    requires Keeps(cs, mid, k) && Evolves(mid, cs')
    ensures Keeps(cs, cs', k)
  {
  }

  /** A claim's facts never change, and an edge is set once: a superseded claim is never written again. */
  lemma {:induction false} EdgesAreSetOnce(states: seq<State>, actions: seq<Action>, m: nat, n: nat, k: nat)
    requires Run(states, actions) && m <= n < |states| && k < |states[m].claims|
    ensures Keeps(states[m].claims, states[n].claims, k)
    decreases n
  {
    if m < n {
      EdgesAreSetOnce(states, actions, m, n - 1, k);
      StepEvolves(states, actions, n - 1);
      KeepsOn(states[m].claims, states[n - 1].claims, states[n].claims, k);
    }
  }

  /** An edge is only ever added from a current claim to another claim of its scope that is current afterwards. */
  lemma EdgesLeadToStandingClaims(states: seq<State>, actions: seq<Action>, n: nat, k: nat)
    requires Run(states, actions) && n < |actions| && k < |states[n].claims|
    ensures k < |states[n + 1].claims|
    ensures states[n + 1].claims[k] != states[n].claims[k] ==>
      states[n].claims[k].Current() && HandedOver(states[n + 1].claims, k)
  {
    StepEvolves(states, actions, n);
  }

  // The scope's current claims are exactly claim k, and it rests on exactly the scope's observations.
  ghost predicate SpeaksForAll(st: State, s: Scope, k: nat) {
    && k < |st.claims| && st.claims[k].scope == s && st.claims[k].Current() && st.claims[k].status == Supported
    && (forall i :: 0 <= i < |st.claims| && st.claims[i].scope == s && st.claims[i].Current() ==> i == k)
    && (forall id :: id in st.claims[k].cites <==> exists o :: o in st.rows && o.scope == s && o.id == id)
    && (forall o :: o in st.rows && o.scope == s ==> Strip(o.value) == Strip(st.claims[k].value))
  }

  /**
   Whatever passes came before, and until something new is observed: a scope whose two or more
   observations agree has exactly one current claim; it is supported and cites exactly them.
   */
  lemma AgreementHasOneClaim(states: seq<State>, actions: seq<Action>, n: nat, s: Scope)
    requires Run(states, actions) && n < |states| && states[n].seen == |states[n].rows|
    requires |Group(states[n].rows, s)| > 1 && Agree(Group(states[n].rows, s))
    ensures exists k: nat :: SpeaksForAll(states[n], s, k)
  {
    RunIsSound(states, actions, n);
    var st := states[n];
    var g := Group(st.rows, s);
    assert st.rows[..st.seen] == st.rows;
    GroupMembers(st.rows, s);
    var k: nat :| Supports(st.claims, s, g, k);
    forall id ensures id in st.claims[k].cites <==> exists o :: o in st.rows && o.scope == s && o.id == id {
      if id in Ids(g) {
        var i :| 0 <= i < |g| && Ids(g)[i] == id;
        assert g[i] in g;
      }
      if o :| o in st.rows && o.scope == s && o.id == id {
        var i :| 0 <= i < |g| && g[i] == o;
        assert Ids(g)[i] == id;
      }
    }
    assert Ids(g)[0] == g[0].id;
    var a := CitedRow(st.claims[k], g, g[0].id);
    assert SpeaksForAll(st, s, k);
  }

  ghost predicate Cites(st: State, k: nat, o: Observation) {
    k < |st.claims| && st.claims[k].scope == o.scope && o.id in st.claims[k].cites
  }

  /** After a pass every observation is cited, with its own value, by a claim of its own scope. */
  lemma NoEvidenceIsDropped(states: seq<State>, actions: seq<Action>, n: nat, o: Observation)
    requires Run(states, actions) && n < |states| && states[n].seen == |states[n].rows| && o in states[n].rows
    ensures exists k: nat :: Cites(states[n], k, o) && Strip(states[n].claims[k].value) == Strip(o.value)
    ensures !Agree(Group(states[n].rows, o.scope)) ==> HasContradiction(states[n].claims, o)
  {
    RunIsSound(states, actions, n);
    var st := states[n];
    var g := Group(st.rows, o.scope);
    assert st.rows[..st.seen] == st.rows;
    GroupMembers(st.rows, o.scope);
    var i :| 0 <= i < |g| && g[i] == o;
    assert Ids(g)[i] == o.id;
    if |g| == 1 {
      var k :| 0 <= k < |st.claims| && Matches(st.claims[k], o.scope, o.value, Unverified, [o.id]);
      assert Cites(st, k, o);
    } else if Agree(g) {
      AgreementHasOneClaim(states, actions, n, o.scope);
      var k: nat :| SpeaksForAll(st, o.scope, k);
      assert Cites(st, k, o);
    } else {
      var k :| 0 <= k < |st.claims| && Matches(st.claims[k], o.scope, o.value, Contradicted, [o.id]);
      assert Cites(st, k, o);
    }
  }

  /**
   At every moment of every run: a claim cites only observations of its own scope, all of which say
   what it says, and no two claims of a scope have the same status and evidence.
   */
  lemma ClaimsNeverMixEvidence(states: seq<State>, actions: seq<Action>, n: nat, k: nat)
    requires Run(states, actions) && n < |states| && k < |states[n].claims|
    ensures var st := states[n]; var c := st.claims[k];
      && (forall id :: id in c.cites ==>
            exists o :: o in st.rows && o.id == id && o.scope == c.scope && Strip(o.value) == Strip(c.value))
      && forall j :: 0 <= j < |st.claims| && j != k && st.claims[j].scope == c.scope ==>
           st.claims[j].status != c.status || st.claims[j].cites != c.cites
  {
    RunIsSound(states, actions, n);
    var st := states[n];
    var c := st.claims[k];
    var g := Group(st.rows[..st.seen], c.scope);
    assert Settled(st.claims, c.scope, g);
    GroupMembers(st.rows[..st.seen], c.scope);
    forall id | id in c.cites
      ensures exists o :: o in st.rows && o.id == id && o.scope == c.scope && Strip(o.value) == Strip(c.value)
    {
      var o := CitedRow(c, g, id);
      assert o in st.rows;
    }
  }

  /** In a disagreeing scope only contradicted claims are current, and there always is one. */
  lemma DisputesStayVisible(states: seq<State>, actions: seq<Action>, n: nat, s: Scope)
    requires Run(states, actions) && n < |states| && !Agree(Group(states[n].Reconciled(), s))
    ensures var cs := states[n].claims;
      && (forall i :: 0 <= i < |cs| && cs[i].scope == s && cs[i].Current() ==> cs[i].status == Contradicted)
      && exists i :: 0 <= i < |cs| && cs[i].scope == s && cs[i].Current()
  {
    RunIsSound(states, actions, n);
  }

  /**
   Running reconciliation again creates no claim and changes no claim: between the two passes any
   number of near-duplicate passes may have run and the clock may have reordered the evidence.
   */
  lemma RerunsCreateNothing(states: seq<State>, actions: seq<Action>, n: nat, clock: Clock, stamp: int)
    requires Run(states, actions) && n < |states| && states[n].seen == |states[n].rows|
    ensures Reconcile(states[n].claims, states[n].rows, clock, stamp) == states[n].claims
  {
    RunIsSound(states, actions, n);
    assert states[n].rows[..states[n].seen] == states[n].rows;
    ReconcileIsIdempotent(states[n].claims, states[n].rows, clock, stamp);
  }
}
