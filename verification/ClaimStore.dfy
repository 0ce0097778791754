/**
 The two passes as the source runs them: loops over lists of row references that update the claim
 rows in place, each proved against what ClaimModel and ClaimDedup say it computes.
 */
module ClaimStore {
  import opened Options
  import opened ClaimModel
  import opened ClaimProofs
  import opened ClaimDedup

  predicate ClaimMatches(c: Claim, attribute: string, value: string, status: Status, cites: seq<nat>) {
    c.scope.attribute == attribute && Strip(c.value) == Strip(value) && c.status == status && c.cites == cites
  }

  // `scoped` lists the rows of one opportunity.
  ghost predicate ListsOpportunity(cs: seq<Claim>, scoped: seq<nat>, opportunity: Option<nat>) {
    && (forall k :: k in scoped ==> k < |cs| && cs[k].scope.opportunity == opportunity)
    && (forall k :: 0 <= k < |cs| && cs[k].scope.opportunity == opportunity ==> k in scoped)
  }

  // Row k once the rows listed have been closed in favour of the replacement.
  function AfterClosing(cs: seq<Claim>, listed: seq<nat>, replacement: nat, attribute: string, k: nat): Claim
    requires k < |cs| && replacement < |cs|
  {
    if k in listed && k != replacement && cs[k].scope.attribute == attribute && cs[k].Current()
    then cs[k].SupersededBy(replacement, cs[replacement].validStart) else cs[k]
  }

  // How far position j has come once the first `bound` positions have been the outer loop's claim.
  ghost predicate Progress(cs: seq<Claim>, now: seq<Claim>, order: seq<nat>, embedding: Embeddings, j: nat, bound: nat)
    requires j < |order| && |cs| == |now| && Enumerates(cs, order) && bound <= |order|
  {
    || (now[order[j]] == cs[order[j]] && forall h: nat :: h < bound && h < j ==> !Absorbs(cs, now, order, embedding, h, j))
    || exists h: nat :: h < bound && YieldsTo(cs, now, order, embedding, h, j)
  }

  // Position h when the outer loop is at i and the inner loop is at j.
  ghost predicate ProgressAt(cs: seq<Claim>, now: seq<Claim>, order: seq<nat>, embedding: Embeddings, i: nat, j: nat, h: nat)
    requires h < |order| && |cs| == |now| && Enumerates(cs, order) && i < |order|
  {
    Progress(cs, now, order, embedding, h, if h < j then i + 1 else i)
  }

  ghost predicate Swept(cs: seq<Claim>, now: seq<Claim>, order: seq<nat>, embedding: Embeddings, i: nat, j: nat) {
    && |cs| == |now| && Enumerates(cs, order) && i < |order|
    && forall h: nat :: h < |order| ==> ProgressAt(cs, now, order, embedding, i, j, h)
  }

  ghost predicate SweptUpTo(cs: seq<Claim>, now: seq<Claim>, order: seq<nat>, embedding: Embeddings, i: nat) {
    && |cs| == |now| && Enumerates(cs, order) && i <= |order|
    && forall h: nat :: h < |order| ==> Progress(cs, now, order, embedding, h, i)
  }

  lemma ProgressSurvivesWrite(cs: seq<Claim>, now: seq<Claim>, now': seq<Claim>, order: seq<nat>, embedding: Embeddings,
                              j: nat, bound: nat, written: nat)
    requires NewestClaimsFirst(cs, order) && |cs| == |now| == |now'| && j < |order| && bound <= written < |order| && j != written
    requires forall k :: 0 <= k < |now| && k != order[written] ==> now'[k] == now[k]
    requires Progress(cs, now, order, embedding, j, bound)
    ensures Progress(cs, now', order, embedding, j, bound)
  {
    assert forall h: nat :: h < bound ==> now'[order[h]] == now[order[h]];
    assert now'[order[j]] == now[order[j]];
    forall h: nat | h < bound && h < j
      ensures Absorbs(cs, now', order, embedding, h, j) == Absorbs(cs, now, order, embedding, h, j) { }
    if h: nat :| h < bound && YieldsTo(cs, now, order, embedding, h, j) {
      assert YieldsTo(cs, now', order, embedding, h, j);
    }
  }

  lemma ProgressSkips(cs: seq<Claim>, now: seq<Claim>, order: seq<nat>, embedding: Embeddings, j: nat, i: nat)
    requires NewestClaimsFirst(cs, order) && |cs| == |now| && j < |order| && i < |order|
    requires Progress(cs, now, order, embedding, j, i)
    requires j <= i || now[order[j]] != cs[order[j]] || !Absorbs(cs, now, order, embedding, i, j)
    ensures Progress(cs, now, order, embedding, j, i + 1)
  {
  }

  lemma SweepBegins(cs: seq<Claim>, now: seq<Claim>, order: seq<nat>, embedding: Embeddings, i: nat)
    requires NewestClaimsFirst(cs, order) && SweptUpTo(cs, now, order, embedding, i) && i < |order|
    ensures Swept(cs, now, order, embedding, i, i + 1)
  {
    var j := i + 1;
    forall h: nat | h < |order| ensures ProgressAt(cs, now, order, embedding, i, j, h) {
      if h <= i { ProgressSkips(cs, now, order, embedding, h, i); }
    }
  }

  lemma SweepPassesOver(cs: seq<Claim>, now: seq<Claim>, order: seq<nat>, embedding: Embeddings, i: nat, j: nat)
    requires NewestClaimsFirst(cs, order) && Swept(cs, now, order, embedding, i, j) && j < |order|
    requires now[order[j]] != cs[order[j]] || !Absorbs(cs, now, order, embedding, i, j)
    ensures Swept(cs, now, order, embedding, i, j + 1)
  {
    var next := j + 1;
    forall h: nat | h < |order| ensures ProgressAt(cs, now, order, embedding, i, next, h) {
      assert ProgressAt(cs, now, order, embedding, i, j, h);
      if h == j { ProgressSkips(cs, now, order, embedding, j, i); }
    }
  }

  lemma SweepAbsorbs(cs: seq<Claim>, now: seq<Claim>, now': seq<Claim>, order: seq<nat>, embedding: Embeddings, i: nat, j: nat)
    requires NewestClaimsFirst(cs, order) && Swept(cs, now, order, embedding, i, j) && i < j < |order|
    requires now[order[j]] == cs[order[j]] && now[order[i]] == cs[order[i]] && Absorbs(cs, now, order, embedding, i, j)
    requires now' == now[order[j] := cs[order[j]].SupersededBy(order[i], cs[order[i]].validStart)]
    ensures Swept(cs, now', order, embedding, i, j + 1)
  {
    var next := j + 1;
    forall h: nat | h < |order| ensures ProgressAt(cs, now', order, embedding, i, next, h) {
      assert ProgressAt(cs, now, order, embedding, i, j, h);
      if h != j {
        ProgressSurvivesWrite(cs, now, now', order, embedding, h, if h < j then i + 1 else i, j);
      } else {
        forall g: nat | g < i ensures !Absorbs(cs, now', order, embedding, g, j) {
          assert !Absorbs(cs, now, order, embedding, g, j);
        }
        assert YieldsTo(cs, now', order, embedding, i, j);
      }
    }
  }

  lemma SweepEnds(cs: seq<Claim>, now: seq<Claim>, order: seq<nat>, embedding: Embeddings, i: nat)
    requires Swept(cs, now, order, embedding, i, |order|)
    ensures SweptUpTo(cs, now, order, embedding, i + 1)
  {
    var next := i + 1;
    forall h: nat | h < |order| ensures Progress(cs, now, order, embedding, h, next) {
      assert ProgressAt(cs, now, order, embedding, i, |order|, h);
    }
  }

  lemma SweepOfNothing(cs: seq<Claim>, now: seq<Claim>, order: seq<nat>, embedding: Embeddings, i: nat)
    requires NewestClaimsFirst(cs, order) && SweptUpTo(cs, now, order, embedding, i) && i < |order|
    requires !now[order[i]].Current() || Evidence(cs[order[i]], embedding) == []
    ensures SweptUpTo(cs, now, order, embedding, i + 1)
  {
    var next := i + 1;
    forall h: nat | h < |order| ensures Progress(cs, now, order, embedding, h, next) {
      assert Progress(cs, now, order, embedding, h, i);
      ProgressSkips(cs, now, order, embedding, h, i);
    }
  }

  lemma NextScope(cs: seq<Claim>, obs: seq<Observation>, scopes: seq<Scope>, n: nat, clock: Clock, stamp: int)
    requires n < |scopes| && forall s :: s in scopes ==> InScope(obs, s) != []
    ensures ReconcileScopes(cs, obs, scopes[..n + 1], clock, stamp) ==
      ReconcileScope(ReconcileScopes(cs, obs, scopes[..n], clock, stamp), InScope(obs, scopes[n]), clock, stamp)
  {
    assert scopes[..n + 1][..n] == scopes[..n];
  }

  lemma ListedAppend(cs: seq<Claim>, scoped: seq<nat>, c: Claim)
    requires ListsOpportunity(cs, scoped, c.scope.opportunity)
    ensures ListsOpportunity(cs + [c], scoped + [|cs|], c.scope.opportunity)
  {
    forall k | k in scoped + [|cs|] ensures k < |cs + [c]| && (cs + [c])[k].scope.opportunity == c.scope.opportunity {
      if k != |cs| { assert k in scoped; }
    }
    forall k | 0 <= k < |cs + [c]| && (cs + [c])[k].scope.opportunity == c.scope.opportunity ensures k in scoped + [|cs|] {
      if k < |cs| { assert k in scoped; } else { assert (scoped + [|cs|])[|scoped|] == k; }
    }
  }

  lemma ListedReplace(cs: seq<Claim>, scoped: seq<nat>, c: Claim)
    requires ListsOpportunity(cs, scoped, c.scope.opportunity)
    ensures ListsOpportunity(Replace(cs, c), scoped + [|cs|], c.scope.opportunity)
  {
    ListedAppend(cs, scoped, c);
    assert forall k :: 0 <= k < |cs + [c]| ==> Replace(cs, c)[k].scope == (cs + [c])[k].scope;
  }

  lemma NextLoser(cs: seq<Claim>, losers: seq<Observation>, n: nat, stamp: int)
    requires n < |losers|
    ensures AddCounterEvidence(cs, losers[n..], stamp) ==
      AddCounterEvidence(if HasContradiction(cs, losers[n]) then cs else cs + [Contradiction(losers[n], stamp)], losers[n + 1..], stamp)
  {
    assert losers[n..][1..] == losers[n + 1..];
  }

  lemma AllSwept(cs: seq<Claim>, now: seq<Claim>, order: seq<nat>, embedding: Embeddings)
    requires NewestClaimsFirst(cs, order) && SweptUpTo(cs, now, order, embedding, |order|)
    requires forall k: nat :: k < |cs| && k !in order ==> now[k] == cs[k]
    ensures Deduplicated(cs, now, order, embedding)
  {
    forall j: nat | j < |order| ensures Settles(cs, now, order, embedding, j) {
      assert Progress(cs, now, order, embedding, j, |order|);
    }
  }

  // `superseded` holds exactly the rows written so far.
  ghost predicate Written(cs: seq<Claim>, now: seq<Claim>, order: seq<nat>, superseded: set<nat>) {
    && |cs| == |now|
    && (forall k: nat :: k < |cs| && k !in superseded ==> now[k] == cs[k])
    && (forall k :: k in superseded ==> k < |cs| && k in order && cs[k].Current() && !now[k].Current())
  }

  lemma WrittenAreCounted(cs: seq<Claim>, now: seq<Claim>, order: seq<nat>, superseded: set<nat>)
    requires Written(cs, now, order, superseded)
    ensures Standing(now) <= Standing(cs) && Standing(cs) - Standing(now) == superseded
  {
  }

  predicate Duplicates(now: seq<Claim>, superseded: set<nat>, embedding: Embeddings, a: nat, b: nat)
    requires a < |now| && b < |now|
  {
    b !in superseded && NearDuplicate(now[a], now[b], embedding)
  }

  // The inner loop moves on past position j, with or without a write.
  lemma SweepReaches(cs: seq<Claim>, now: seq<Claim>, order: seq<nat>, embedding: Embeddings, i: nat, j: nat, superseded: set<nat>)
    requires NewestClaimsFirst(cs, order) && Swept(cs, now, order, embedding, i, j) && i < j < |order|
    requires Written(cs, now, order, superseded) && order[i] !in superseded
    ensures var a, b := order[i], order[j]; var now' := now[b := now[b].SupersededBy(a, now[a].validStart)];
      if Duplicates(now, superseded, embedding, a, b)
      then Swept(cs, now', order, embedding, i, j + 1) && Written(cs, now', order, superseded + {b}) && b != a
      else Swept(cs, now, order, embedding, i, j + 1)
  {
    var a, b := order[i], order[j];
    assert now[a] == cs[a] && cs[a].Current() && b in order && b != a;
    if Duplicates(now, superseded, embedding, a, b) {
      assert now[b] == cs[b];
      SweepAbsorbs(cs, now, now[b := now[b].SupersededBy(a, now[a].validStart)], order, embedding, i, j);
    } else {
      SweepPassesOver(cs, now, order, embedding, i, j);
    }
  }

  lemma DisputeUnfolds(cs: seq<Claim>, g: seq<Observation>, clock: Clock, stamp: int)
    requires !Agree(g) && g != []
    ensures var ranked := StrongestFirst(g, clock);
      && ranked != [] && (forall o :: o in ranked ==> o in g)
      && ReconcileScope(cs, g, clock, stamp) == AddCounterEvidence(RecordWinner(cs, ranked[0], stamp), ranked[1..], stamp)
  {
    StrengthOrderKeepsGroup(g, clock);
  }

  class ClaimTable {
    var observations: seq<Observation>
    var claims: seq<Claim>

    constructor ()
      ensures observations == [] && claims == []
    {
      observations, claims := [], [];
    }

    method FindMatchingClaim(scoped: seq<nat>, s: Scope, value: string, status: Status, cites: seq<nat>) returns (hit: bool)
      requires ListsOpportunity(claims, scoped, s.opportunity)
      ensures hit == Found(claims, s, value, status, cites)
    {
      for n := 0 to |scoped|
        invariant forall m :: 0 <= m < n ==> scoped[m] < |claims| && !ClaimMatches(claims[scoped[m]], s.attribute, value, status, cites)
      {
        assert scoped[n] in scoped;
        if ClaimMatches(claims[scoped[n]], s.attribute, value, status, cites) {
          assert Matches(claims[scoped[n]], s, value, status, cites);
          return true;
        }
      }
      forall k | 0 <= k < |claims| ensures !Matches(claims[k], s, value, status, cites) {
        if claims[k].scope == s { var m :| 0 <= m < |scoped| && scoped[m] == k; }
      }
      return false;
    }

    /** Every current row listed, other than the replacement, yields to the replacement. */
    method CloseSupersededClaims(scoped: seq<nat>, replacement: nat, attribute: string)
      requires replacement < |claims| && forall k :: k in scoped ==> k < |claims|
      modifies this`claims
      ensures |claims| == |old(claims)|
      ensures forall k :: 0 <= k < |claims| ==>
        claims[k] == AfterClosing(old(claims), scoped, replacement, attribute, k)
    {
      for n := 0 to |scoped|
        invariant |claims| == |old(claims)|
        invariant forall k :: 0 <= k < |claims| ==>
          claims[k] == AfterClosing(old(claims), scoped[..n], replacement, attribute, k)
      {
        var previous := scoped[n];
        assert previous in scoped;
        assert scoped[..n + 1] == scoped[..n] + [previous];
        if previous == replacement || claims[previous].scope.attribute != attribute {
          continue;
        }
        if !claims[previous].Current() {
          continue;
        }
        claims := claims[previous := claims[previous].SupersededBy(replacement, claims[replacement].validStart)];
      }
      assert scoped[..|scoped|] == scoped;
    }

    method AddAndClose(scoped: seq<nat>, c: Claim)
      requires ListsOpportunity(claims, scoped, c.scope.opportunity) && c.Current()
      modifies this`claims
      ensures claims == Replace(old(claims), c)
    {
      claims := claims + [c];
      CloseSupersededClaims(scoped, |claims| - 1, c.scope.attribute);
    }

    /** The branches of one scope; `scoped` was listed before the scope was entered. */
    method ReconcileGroup(scopedBefore: seq<nat>, g: seq<Observation>, clock: Clock, stamp: int) returns (created: nat)
      requires g != [] && (forall o :: o in g ==> o.scope == g[0].scope)
      requires ListsOpportunity(claims, scopedBefore, g[0].scope.opportunity)
      modifies this`claims
      ensures claims == ReconcileScope(old(claims), g, clock, stamp)
      ensures created == |claims| - |old(claims)|
    {
      var s := g[0].scope;
      var scoped: seq<nat> := scopedBefore;
      created := 0;
      if |g| == 1 {
        var o := g[0];
        var hit := FindMatchingClaim(scoped, s, o.value, Unverified, [o.id]);
        if !hit {
          claims := claims + [Derived(o, Unverified, [o.id], o.confidence, stamp)];
          created := 1;
        }
        return;
      }
      if Agree(g) {
        var hit := FindMatchingClaim(scoped, s, Strongest(g, clock).value, Supported, Ids(g));
        if !hit {
          AddAndClose(scoped, Support(g, clock, stamp));
          created := 1;
        }
        return;
      }
      created := ReconcileContradiction(scoped, g, clock, stamp);
    }

    /** The winner is looked up, and recorded in place of the scope's current claims if it is not there yet. */
    method AddWinner(scopedBefore: seq<nat>, winner: Observation, stamp: int) returns (scoped: seq<nat>, created: nat)
      requires ListsOpportunity(claims, scopedBefore, winner.scope.opportunity)
      modifies this`claims
      ensures claims == RecordWinner(old(claims), winner, stamp)
      ensures created == |claims| - |old(claims)| && ListsOpportunity(claims, scoped, winner.scope.opportunity)
    {
      scoped, created := scopedBefore, 0;
      var hit := FindMatchingClaim(scoped, winner.scope, winner.value, Contradicted, [winner.id]);
      if !hit {
        ListedReplace(claims, scoped, Contradiction(winner, stamp));
        AddAndClose(scoped, Contradiction(winner, stamp));
        scoped := scoped + [|claims| - 1];
        created := 1;
      }
    }

    /** Stronger evidence wins; weaker evidence stays on record as counter-evidence. */
    method ReconcileContradiction(scopedBefore: seq<nat>, g: seq<Observation>, clock: Clock, stamp: int) returns (created: nat)
      requires !Agree(g) && (forall o :: o in g ==> o.scope == g[0].scope)
      requires ListsOpportunity(claims, scopedBefore, g[0].scope.opportunity)
      modifies this`claims
      ensures claims == ReconcileScope(old(claims), g, clock, stamp)
      ensures created == |claims| - |old(claims)|
    {
      DisputeUnfolds(claims, g, clock, stamp);
      var ranked := StrongestFirst(g, clock);
      var scoped;
      scoped, created := AddWinner(scopedBefore, ranked[0], stamp);
      var more := AddLosers(scoped, ranked[1..], g[0].scope, stamp);
      created := created + more;
    }

    method AddLosers(scopedBefore: seq<nat>, losers: seq<Observation>, s: Scope, stamp: int) returns (created: nat)
      requires ListsOpportunity(claims, scopedBefore, s.opportunity) && forall o :: o in losers ==> o.scope == s
      modifies this`claims
      ensures claims == AddCounterEvidence(old(claims), losers, stamp)
      ensures created == |claims| - |old(claims)|
    {
      var scoped: seq<nat> := scopedBefore;
      created := 0;
      for n := 0 to |losers|
        invariant |old(claims)| <= |claims| && created == |claims| - |old(claims)|
        invariant ListsOpportunity(claims, scoped, s.opportunity)
        invariant AddCounterEvidence(claims, losers[n..], stamp) == AddCounterEvidence(old(claims), losers, stamp)
      {
        var loser := losers[n];
        NextLoser(claims, losers, n, stamp);
        var known := FindMatchingClaim(scoped, s, loser.value, Contradicted, [loser.id]);
        if known {
          continue;
        }
        ListedAppend(claims, scoped, Contradiction(loser, stamp));
        scoped := scoped + [|claims|];
        claims := claims + [Contradiction(loser, stamp)];
        created := created + 1;
      }
    }

    method GroupObservations(obs: seq<Observation>) returns (scopes: seq<Scope>, groups: map<Scope, seq<Observation>>)
      ensures scopes == ScopesOf(obs)
      ensures forall s :: s in scopes <==> s in groups
      ensures forall s :: s in groups ==> groups[s] == InScope(obs, s) && groups[s] != []
    {
      scopes, groups := [], map[];
      for i := 0 to |obs|
        invariant scopes == ScopesOf(obs[..i])
        invariant forall s :: s in scopes <==> s in groups
        invariant forall s :: s in groups ==> groups[s] == InScope(obs[..i], s) && groups[s] != []
      {
        var o := obs[i];
        assert obs[..i + 1] == obs[..i] + [o] && obs[..i + 1][..i] == obs[..i];
        forall s ensures InScope(obs[..i + 1], s) == InScope(obs[..i], s) + (if o.scope == s then [o] else []) {
          InScopeOfAppend(obs[..i], o, s);
        }
        ScopesAreInhabited(obs[..i]);
        if o.scope !in groups {
          scopes := scopes + [o.scope];
          groups := groups[o.scope := []];
        }
        groups := groups[o.scope := groups[o.scope] + [o]];
      }
      assert obs[..|obs|] == obs;
    }

    method ListOpportunity(opportunity: Option<nat>) returns (scoped: seq<nat>)
      ensures ListsOpportunity(claims, scoped, opportunity)
    {
      scoped := [];
      for n := 0 to |claims|
        invariant forall k :: k in scoped <==> 0 <= k < n && claims[k].scope.opportunity == opportunity
      {
        if claims[n].scope.opportunity == opportunity {
          scoped := scoped + [n];
        }
      }
    }

    method ReconcileOneScope(ghost obs: seq<Observation>, s: Scope, g: seq<Observation>, clock: Clock, stamp: int)
      returns (created: nat)
      requires g == InScope(obs, s) && g != []
      modifies this`claims
      ensures claims == ReconcileScope(old(claims), g, clock, stamp)
      ensures created == |claims| - |old(claims)|
    {
      InScopeMembers(obs, s);
      assert g[0] in g;
      var scoped := ListOpportunity(s.opportunity);
      created := ReconcileGroup(scoped, g, clock, stamp);
    }

    /** The loop over the groups, in order of first appearance. */
    method ReconcileEach(ghost obs: seq<Observation>, scopes: seq<Scope>, groups: map<Scope, seq<Observation>>, clock: Clock, stamp: int)
      returns (created: nat)
      requires forall s :: s in scopes ==> s in groups && groups[s] == InScope(obs, s) && groups[s] != []
      modifies this`claims
      ensures claims == ReconcileScopes(old(claims), obs, scopes, clock, stamp)
      ensures created == |claims| - |old(claims)|
    {
      created := 0;
      for n := 0 to |scopes|
        invariant |old(claims)| <= |claims| && created == |claims| - |old(claims)|
        invariant claims == ReconcileScopes(old(claims), obs, scopes[..n], clock, stamp)
      {
        var added := ReconcileOneScope(obs, scopes[n], groups[scopes[n]], clock, stamp);
        created := created + added;
        NextScope(old(claims), obs, scopes, n, clock, stamp);
      }
      assert scopes[..|scopes|] == scopes;
    }

    /** One pass: the table becomes what ClaimModel says, and the count is the number of rows added. */
    method ReconcileObservations(clock: Clock, stamp: int) returns (created: nat)
      modifies this`claims
      ensures claims == Reconcile(old(claims), observations, clock, stamp)
      ensures created == |claims| - |old(claims)|
    {
      var obs := NewestFirst(observations);
      if obs == [] {
        return 0;
      }
      var scopes, groups := GroupObservations(obs);
      created := ReconcileEach(obs, scopes, groups, clock, stamp);
    }

    /** The greedy pass; the count is exactly the number of claims that stopped being current. */
    method DeduplicateClaims(order: seq<nat>, embedding: Embeddings) returns (deduplicated: nat)
      requires NewestClaimsFirst(claims, order)
      modifies this`claims
      ensures Deduplicated(old(claims), claims, order, embedding)
      ensures Standing(claims) <= Standing(old(claims)) && deduplicated == |Standing(old(claims)) - Standing(claims)|
    {
      ghost var cs := claims;
      var superseded: set<nat> := {};
      deduplicated := 0;
      if |order| < 2 {
        assert forall j: nat :: j < |order| ==> Survives(cs, claims, order, embedding, j);
        WrittenAreCounted(cs, claims, order, {});
        return;
      }
      for i := 0 to |order|
        invariant SweptUpTo(cs, claims, order, embedding, i) && Written(cs, claims, order, superseded)
        invariant deduplicated == |superseded|
      {
        if order[i] in superseded || Evidence(claims[order[i]], embedding) == [] {
          SweepOfNothing(cs, claims, order, embedding, i);
          continue;
        }
        superseded, deduplicated := AbsorbNearDuplicates(cs, order, embedding, i, superseded, deduplicated);
      }
      AllSwept(cs, claims, order, embedding);
      WrittenAreCounted(cs, claims, order, superseded);
    }

    /** The inner loop: later claims that are near duplicates of position i yield to it. */
    method AbsorbNearDuplicates(ghost cs: seq<Claim>, order: seq<nat>, embedding: Embeddings, i: nat, before: set<nat>, count: nat)
      returns (superseded: set<nat>, deduplicated: nat)
      requires NewestClaimsFirst(cs, order) && SweptUpTo(cs, claims, order, embedding, i)
      requires i < |order| && order[i] !in before && Written(cs, claims, order, before) && count == |before|
      modifies this`claims
      ensures SweptUpTo(cs, claims, order, embedding, i + 1) && Written(cs, claims, order, superseded)
      ensures deduplicated == |superseded|
    {
      var a := order[i];
      superseded, deduplicated := before, count;
      SweepBegins(cs, claims, order, embedding, i);
      for j := i + 1 to |order|
        invariant Swept(cs, claims, order, embedding, i, j) && Written(cs, claims, order, superseded) && a !in superseded
        invariant deduplicated == |superseded|
      {
        var b := order[j];
        SweepReaches(cs, claims, order, embedding, i, j, superseded);
        if b in superseded || claims[b].scope != claims[a].scope
           || !Similar(Evidence(claims[a], embedding), Evidence(claims[b], embedding)) {
          continue;
        }
        claims := claims[b := claims[b].SupersededBy(a, claims[a].validStart)];
        superseded := superseded + {b};
        deduplicated := deduplicated + 1;
      }
      SweepEnds(cs, claims, order, embedding, i);
    }
  }
}
