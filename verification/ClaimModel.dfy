/**
 Observations, claims, and what one reconciliation pass computes
 (backend/app/processing/reconcile.py).  One person is fixed throughout: every query of the
 source filters by the same subject.  A claim table is a sequence whose index is the claim id.
 */
module ClaimModel {
  import opened Options

  // ----- rows -----

  // Claims never mix evidence of different scopes; a missing opportunity is a scope of its own.
  datatype Scope = Scope(attribute: string, opportunity: Option<nat>)

  datatype Observation = Observation(id: nat, scope: Scope, value: string, observedAt: int, confidence: real)

  datatype Status = Unverified | Supported | Contradicted

  datatype Claim = Claim(
    scope: Scope,
    value: string,
    status: Status,
    cites: seq<nat>,          // observation ids, in query order
    confidence: real,
    validStart: int,
    createdAt: int,
    validEnd: Option<int>,
    successor: Option<nat>)   // supersession_id: the newer claim
  {
    predicate Current() { successor.None? }

    predicate SameFacts(other: Claim) {
      this.(validEnd := None, successor := None) == other.(validEnd := None, successor := None)
    }

    function SupersededBy(newer: nat, at: int): Claim {
      this.(successor := Some(newer), validEnd := Some(at))
    }
  }

  // The instant at which the strength of each observation happens to be read.
  type Clock = nat -> int

  // ----- values are compared after stripping white space -----

  predicate IsSpace(c: char) {
    var k := c as int;
    9 <= k <= 13 || 28 <= k <= 32 || k == 0x85 || k == 0xA0 || k == 0x1680 || 0x2000 <= k <= 0x200A
    || k == 0x2028 || k == 0x2029 || k == 0x202F || k == 0x205F || k == 0x3000
  }

  function StripLeft(s: string): string {
    if s != [] && IsSpace(s[0]) then StripLeft(s[1..]) else s
  }

  function StripRight(s: string): string {
    if s != [] && IsSpace(s[|s| - 1]) then StripRight(s[..|s| - 1]) else s
  }

  function Strip(s: string): string {
    StripRight(StripLeft(s))
  }

  // ----- the query: newest first, ties by descending id -----

  predicate Newer(a: Observation, b: Observation) {
    a.observedAt > b.observedAt || (a.observedAt == b.observedAt && a.id > b.id)
  }

  function InsertByAge(o: Observation, xs: seq<Observation>): seq<Observation> {
    if xs == [] || Newer(o, xs[0]) then [o] + xs else [xs[0]] + InsertByAge(o, xs[1..])
  }

  function NewestFirst(rows: seq<Observation>): seq<Observation> {
    if rows == [] then [] else InsertByAge(rows[|rows| - 1], NewestFirst(rows[..|rows| - 1]))
  }

  function InScope(xs: seq<Observation>, s: Scope): seq<Observation> {
    if xs == [] then []
    else (if xs[0].scope == s then [xs[0]] else []) + InScope(xs[1..], s)
  }

  function Group(rows: seq<Observation>, s: Scope): seq<Observation> {
    InScope(NewestFirst(rows), s)
  }

  function Ids(g: seq<Observation>): (ids: seq<nat>)
    ensures |ids| == |g| && forall i :: 0 <= i < |g| ==> ids[i] == g[i].id
  {
    seq(|g|, i requires 0 <= i < |g| => g[i].id)
  }

  predicate Agree(g: seq<Observation>) {
    forall i, j :: 0 <= i < |g| && 0 <= j < |g| ==> Strip(g[i].value) == Strip(g[j].value)
  }

  // ----- evidence strength -----

  const SECONDS_PER_DAY := 86400

  // `timedelta.days` floors, and so does division by a positive number here.
  function Strength(o: Observation, now: int): real {
    var confidence := if o.confidence == 0.0 then 0.5 else o.confidence;
    var ageDays := (now - o.observedAt) / SECONDS_PER_DAY;
    var recency := 1.0 - ageDays as real / 365.0;
    confidence * (if recency < 0.5 then 0.5 else recency)
  }

  predicate Stronger(a: Observation, b: Observation, clock: Clock) {
    Strength(a, clock(a.id)) > Strength(b, clock(b.id))
  }

  // `max(group, key=...)`: the first of the strongest.
  function Strongest(g: seq<Observation>, clock: Clock): (o: Observation)
    requires g != []
    ensures o in g && forall x :: x in g ==> !Stronger(x, o, clock)
  {
    if |g| == 1 then g[0]
    else
      var rest := Strongest(g[1..], clock);
      assert forall x :: x in g <==> x == g[0] || x in g[1..];
      if Stronger(rest, g[0], clock) then rest else g[0]
  }

  function InsertByStrength(o: Observation, xs: seq<Observation>, clock: Clock): seq<Observation> {
    if xs == [] || !Stronger(xs[0], o, clock) then [o] + xs else [xs[0]] + InsertByStrength(o, xs[1..], clock)
  }

  // `sorted(group, key=..., reverse=True)`: stable, strongest first.
  function StrongestFirst(g: seq<Observation>, clock: Clock): seq<Observation> {
    if g == [] then [] else InsertByStrength(g[0], StrongestFirst(g[1..], clock), clock)
  }

  function MaxConfidence(g: seq<Observation>): (c: real)
    requires g != []
    ensures (exists o :: o in g && o.confidence == c) && forall o :: o in g ==> o.confidence <= c
  {
    if |g| == 1 then g[0].confidence
    else
      var rest := MaxConfidence(g[1..]);
      if g[0].confidence >= rest then g[0].confidence else rest
  }

  // ----- one scope of one pass -----

  predicate Matches(c: Claim, s: Scope, value: string, status: Status, cites: seq<nat>) {
    c.scope == s && Strip(c.value) == Strip(value) && c.status == status && c.cites == cites
  }

  predicate Found(cs: seq<Claim>, s: Scope, value: string, status: Status, cites: seq<nat>) {
    exists i :: 0 <= i < |cs| && Matches(cs[i], s, value, status, cites)
  }

  function Derived(o: Observation, status: Status, cites: seq<nat>, confidence: real, stamp: int): Claim {
    Claim(o.scope, o.value, status, cites, confidence, o.observedAt, stamp, None, None)
  }

  // Every current claim of the scope yields to claim `newer`.
  function Close(cs: seq<Claim>, s: Scope, newer: nat, at: int): (r: seq<Claim>)
    ensures |r| == |cs|
  {
    seq(|cs|, i requires 0 <= i < |cs| =>
      if cs[i].scope == s && cs[i].Current() then cs[i].SupersededBy(newer, at) else cs[i])
  }

  function Replace(cs: seq<Claim>, c: Claim): seq<Claim> {
    Close(cs, c.scope, |cs|, c.validStart) + [c]
  }

  function Contradiction(o: Observation, stamp: int): Claim {
    Derived(o, Contradicted, [o.id], o.confidence, stamp)
  }

  predicate HasContradiction(cs: seq<Claim>, o: Observation) {
    Found(cs, o.scope, o.value, Contradicted, [o.id])
  }

  function AddCounterEvidence(cs: seq<Claim>, losers: seq<Observation>, stamp: int): seq<Claim>
    decreases |losers|
  {
    if losers == [] then cs
    else
      var cs' := if HasContradiction(cs, losers[0]) then cs else cs + [Contradiction(losers[0], stamp)];
      AddCounterEvidence(cs', losers[1..], stamp)
  }

  function RecordWinner(cs: seq<Claim>, winner: Observation, stamp: int): seq<Claim> {
    if HasContradiction(cs, winner) then cs else Replace(cs, Contradiction(winner, stamp))
  }

  function Support(g: seq<Observation>, clock: Clock, stamp: int): Claim
    requires g != []
  {
    Derived(Strongest(g, clock), Supported, Ids(g), MaxConfidence(g), stamp)
  }

  lemma InsertByStrengthKeeps(o: Observation, xs: seq<Observation>, clock: Clock)
    ensures |InsertByStrength(o, xs, clock)| == |xs| + 1
    ensures forall x :: x in InsertByStrength(o, xs, clock) <==> x == o || x in xs
  {
    if !(xs == [] || !Stronger(xs[0], o, clock)) {
      InsertByStrengthKeeps(o, xs[1..], clock);
      assert forall x :: x in xs <==> x == xs[0] || x in xs[1..];
    }
  }

  lemma StrengthOrderKeepsGroup(g: seq<Observation>, clock: Clock)
    ensures |StrongestFirst(g, clock)| == |g|
    ensures forall o :: o in StrongestFirst(g, clock) <==> o in g
  {
    if g != [] {
      StrengthOrderKeepsGroup(g[1..], clock);
      InsertByStrengthKeeps(g[0], StrongestFirst(g[1..], clock), clock);
      assert forall o :: o in g <==> o == g[0] || o in g[1..];
    }
  }

  function ReconcileScope(cs: seq<Claim>, g: seq<Observation>, clock: Clock, stamp: int): seq<Claim>
    requires g != []
  {
    var s := g[0].scope;
    if |g| == 1 then
      if Found(cs, s, g[0].value, Unverified, [g[0].id]) then cs
      else cs + [Derived(g[0], Unverified, [g[0].id], g[0].confidence, stamp)]
    else if Agree(g) then
      if Found(cs, s, Strongest(g, clock).value, Supported, Ids(g)) then cs
      else Replace(cs, Support(g, clock, stamp))
    else
      StrengthOrderKeepsGroup(g, clock);
      var ranked := StrongestFirst(g, clock);
      AddCounterEvidence(RecordWinner(cs, ranked[0], stamp), ranked[1..], stamp)
  }

  // ----- one pass: the scopes in order of first appearance -----

  function ScopesOf(obs: seq<Observation>): seq<Scope> {
    if obs == [] then []
    else
      var earlier := ScopesOf(obs[..|obs| - 1]);
      var s := obs[|obs| - 1].scope;
      if s in earlier then earlier else earlier + [s]
  }

  function ReconcileScopes(cs: seq<Claim>, obs: seq<Observation>, scopes: seq<Scope>, clock: Clock, stamp: int): seq<Claim>
    requires forall s :: s in scopes ==> InScope(obs, s) != []
  {
    if scopes == [] then cs
    else
      var last := |scopes| - 1;
      ReconcileScope(ReconcileScopes(cs, obs, scopes[..last], clock, stamp), InScope(obs, scopes[last]), clock, stamp)
  }

  lemma InScopeOfAppend(xs: seq<Observation>, o: Observation, s: Scope)
    ensures InScope(xs + [o], s) == InScope(xs, s) + (if o.scope == s then [o] else [])
  {
    if xs == [] {
      assert xs + [o] == [o];
    } else {
      assert (xs + [o])[1..] == xs[1..] + [o];
      InScopeOfAppend(xs[1..], o, s);
    }
  }

  lemma ScopesAreInhabited(obs: seq<Observation>)
    ensures forall s :: s in ScopesOf(obs) <==> InScope(obs, s) != []
    ensures forall i, j :: 0 <= i < j < |ScopesOf(obs)| ==> ScopesOf(obs)[i] != ScopesOf(obs)[j]
  {
    if obs != [] {
      var last := |obs| - 1;
      ScopesAreInhabited(obs[..last]);
      assert obs == obs[..last] + [obs[last]];
      forall s ensures InScope(obs, s) == InScope(obs[..last], s) + (if obs[last].scope == s then [obs[last]] else []) {
        InScopeOfAppend(obs[..last], obs[last], s);
      }
    }
  }

  function Reconcile(cs: seq<Claim>, rows: seq<Observation>, clock: Clock, stamp: int): seq<Claim> {
    var obs := NewestFirst(rows);
    ScopesAreInhabited(obs);
    ReconcileScopes(cs, obs, ScopesOf(obs), clock, stamp)
  }
}
