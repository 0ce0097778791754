/**
 Greedy near-duplicate removal over the current claims (backend/app/processing/dedup.py).
 `order` is the query result: the current claims, newest first, ties in any order.
 `embedding` maps an observation id to its vector; the empty vector stands for a missing one.
 */
module ClaimDedup {
  import opened ClaimModel
  import opened ClaimProofs

  type Vector = seq<real>
  type Embeddings = nat -> Vector

  function Dot(a: Vector, b: Vector): real
    requires |a| == |b|
  {
    if a == [] then 0.0 else a[0] * b[0] + Dot(a[1..], b[1..])
  }

  lemma DotIsSymmetric(a: Vector, b: Vector)
    requires |a| == |b|
    ensures Dot(a, b) == Dot(b, a)
  {
  }

  const THRESHOLD := 0.92

  // cosine(a, b) >= THRESHOLD, stated without the square roots of the two norms.
  predicate Similar(a: Vector, b: Vector) {
    && a != [] && |a| == |b| && Dot(a, a) != 0.0 && Dot(b, b) != 0.0
    && Dot(a, b) > 0.0 && Dot(a, b) * Dot(a, b) >= THRESHOLD * THRESHOLD * (Dot(a, a) * Dot(b, b))
  }

  lemma SimilarIsSymmetric(a: Vector, b: Vector)
    ensures Similar(a, b) == Similar(b, a)
  {
    if |a| == |b| {
      DotIsSymmetric(a, b);
      assert Dot(a, a) * Dot(b, b) == Dot(b, b) * Dot(a, a);
    }
  }

  function Evidence(c: Claim, embedding: Embeddings): Vector {
    if c.cites == [] then [] else embedding(c.cites[0])
  }

  predicate NearDuplicate(a: Claim, b: Claim, embedding: Embeddings) {
    a.scope == b.scope && Similar(Evidence(a, embedding), Evidence(b, embedding))
  }

  predicate NewestClaimsFirst(cs: seq<Claim>, order: seq<nat>) {
    && (forall i :: 0 <= i < |order| ==> order[i] < |cs| && cs[order[i]].Current())
    && (forall k :: 0 <= k < |cs| && cs[k].Current() ==> k in order)
    && (forall i, j :: 0 <= i < j < |order| ==>
          order[i] != order[j] && cs[order[i]].createdAt >= cs[order[j]].createdAt)
  }

  // After the pass, position i still stands and is a near duplicate of position j.
  predicate Absorbs(cs: seq<Claim>, cs': seq<Claim>, order: seq<nat>, embedding: Embeddings, i: nat, j: nat)
    requires i < |order| && j < |order| && |cs| == |cs'|
    requires order[i] < |cs| && order[j] < |cs|
  {
    cs'[order[i]].Current() && NearDuplicate(cs[order[i]], cs[order[j]], embedding)
  }

  predicate Enumerates(cs: seq<Claim>, order: seq<nat>) {
    forall i :: 0 <= i < |order| ==> order[i] < |cs|
  }

  ghost predicate Survives(cs: seq<Claim>, cs': seq<Claim>, order: seq<nat>, embedding: Embeddings, j: nat)
    requires j < |order| && |cs| == |cs'| && Enumerates(cs, order)
  {
    cs'[order[j]] == cs[order[j]] && forall i: nat :: i < j ==> !Absorbs(cs, cs', order, embedding, i, j)
  }

  ghost predicate YieldsTo(cs: seq<Claim>, cs': seq<Claim>, order: seq<nat>, embedding: Embeddings, i: nat, j: nat)
    requires i < |order| && j < |order| && |cs| == |cs'| && Enumerates(cs, order)
  {
    && i < j && Absorbs(cs, cs', order, embedding, i, j)
    && (forall h: nat :: h < i ==> !Absorbs(cs, cs', order, embedding, h, j))
    && cs'[order[j]] == cs[order[j]].SupersededBy(order[i], cs[order[i]].validStart)
  }

  ghost predicate Settles(cs: seq<Claim>, cs': seq<Claim>, order: seq<nat>, embedding: Embeddings, j: nat)
    requires j < |order| && |cs| == |cs'| && Enumerates(cs, order)
  {
    Survives(cs, cs', order, embedding, j)
    || exists i: nat :: i < |order| && YieldsTo(cs, cs', order, embedding, i, j)
  }

  /**
   The result of a pass, without mentioning its loops: a claim stands unless an earlier claim that
   stands is a near duplicate, and then it points at the first such claim.
   */
  ghost predicate Deduplicated(cs: seq<Claim>, cs': seq<Claim>, order: seq<nat>, embedding: Embeddings) {
    && |cs| == |cs'| && Enumerates(cs, order)
    && (forall k :: 0 <= k < |cs| && k !in order ==> cs'[k] == cs[k])
    && (forall j :: 0 <= j < |order| ==>
          order[j] < |cs| && Settles(cs, cs', order, embedding, j))
  }

  ghost function Standing(cs: seq<Claim>): set<nat> {
    set k: nat | k < |cs| && cs[k].Current()
  }

  lemma {:induction false} PositionIsDetermined(cs: seq<Claim>, a: seq<Claim>, b: seq<Claim>, order: seq<nat>, embedding: Embeddings, j: nat)
    requires j < |order| && NewestClaimsFirst(cs, order)
    requires Deduplicated(cs, a, order, embedding) && Deduplicated(cs, b, order, embedding)
    ensures a[order[j]] == b[order[j]]
  {
    forall i: nat | i < j ensures Absorbs(cs, a, order, embedding, i, j) == Absorbs(cs, b, order, embedding, i, j) {
      PositionIsDetermined(cs, a, b, order, embedding, i);
    }
    if !Survives(cs, a, order, embedding, j) && !Survives(cs, b, order, embedding, j) {
      var i: nat :| i < |order| && YieldsTo(cs, a, order, embedding, i, j);
      var h: nat :| h < |order| && YieldsTo(cs, b, order, embedding, h, j);
      assert i == h;
    }
  }

  // A claim table cannot come out of the pass in two ways.
  lemma {:induction false} PassIsDetermined(cs: seq<Claim>, a: seq<Claim>, b: seq<Claim>, order: seq<nat>, embedding: Embeddings)
    requires NewestClaimsFirst(cs, order)
    requires Deduplicated(cs, a, order, embedding) && Deduplicated(cs, b, order, embedding)
    ensures a == b
  {
    forall j | 0 <= j < |order| ensures a[order[j]] == b[order[j]] {
      PositionIsDetermined(cs, a, b, order, embedding, j);
    }
    forall k | 0 <= k < |cs| ensures a[k] == b[k] {
      if k in order { var j :| 0 <= j < |order| && order[j] == k; }
    }
  }

  lemma StandingIsUnchanged(cs: seq<Claim>, cs': seq<Claim>, order: seq<nat>, embedding: Embeddings, k: nat)
    requires NewestClaimsFirst(cs, order) && Deduplicated(cs, cs', order, embedding) && k < |cs'| && cs'[k].Current()
    ensures cs'[k] == cs[k] && k in order
  {
    if k in order {
      var j: nat :| j < |order| && order[j] == k;
      assert Survives(cs, cs', order, embedding, j);
    }
  }

  lemma LaterSurvivorDiffers(cs: seq<Claim>, cs': seq<Claim>, order: seq<nat>, embedding: Embeddings, i: nat, j: nat)
    requires NewestClaimsFirst(cs, order) && Deduplicated(cs, cs', order, embedding) && i < j < |order|
    requires cs'[order[i]].Current() && cs'[order[j]].Current()
    ensures !NearDuplicate(cs[order[i]], cs[order[j]], embedding)
  {
    assert Survives(cs, cs', order, embedding, j);
    assert !Absorbs(cs, cs', order, embedding, i, j);
  }

  lemma TwoSurvivorsDiffer(cs: seq<Claim>, cs': seq<Claim>, order: seq<nat>, embedding: Embeddings, a: nat, b: nat)
    requires NewestClaimsFirst(cs, order) && Deduplicated(cs, cs', order, embedding)
    requires a < |cs'| && b < |cs'| && a != b && cs'[a].Current() && cs'[b].Current()
    ensures !NearDuplicate(cs'[a], cs'[b], embedding)
  {
    StandingIsUnchanged(cs, cs', order, embedding, a);
    StandingIsUnchanged(cs, cs', order, embedding, b);
    var i: nat :| i < |order| && order[i] == a;
    var j: nat :| j < |order| && order[j] == b;
    if i < j {
      LaterSurvivorDiffers(cs, cs', order, embedding, i, j);
    } else {
      LaterSurvivorDiffers(cs, cs', order, embedding, j, i);
      SimilarIsSymmetric(Evidence(cs[a], embedding), Evidence(cs[b], embedding));
    }
  }

  /** The survivors of a pass are pairwise not near duplicates. */
  lemma SurvivorsAreDistinct(cs: seq<Claim>, cs': seq<Claim>, order: seq<nat>, embedding: Embeddings)
    requires NewestClaimsFirst(cs, order) && Deduplicated(cs, cs', order, embedding)
    ensures forall a: nat, b: nat :: a < |cs'| && b < |cs'| && a != b && cs'[a].Current() && cs'[b].Current() ==>
      !NearDuplicate(cs'[a], cs'[b], embedding)
  {
    forall a: nat, b: nat | a < |cs'| && b < |cs'| && a != b && cs'[a].Current() && cs'[b].Current()
      ensures !NearDuplicate(cs'[a], cs'[b], embedding)
    {
      TwoSurvivorsDiffer(cs, cs', order, embedding, a, b);
    }
  }

  /** A second pass over the same vectors, in any order of ties, changes nothing. */
  lemma SecondPassChangesNothing(cs: seq<Claim>, once: seq<Claim>, twice: seq<Claim>,
                                 order: seq<nat>, order': seq<nat>, embedding: Embeddings)
    requires NewestClaimsFirst(cs, order) && Deduplicated(cs, once, order, embedding)
    requires NewestClaimsFirst(once, order') && Deduplicated(once, twice, order', embedding)
    ensures twice == once
  {
    SurvivorsAreDistinct(cs, once, order, embedding);
    forall k | 0 <= k < |once| ensures twice[k] == once[k] {
      if k in order' {
        var j: nat :| j < |order'| && order'[j] == k;
        forall i: nat | i < |order'| && i != j ensures !Absorbs(once, twice, order', embedding, i, j) { }
        assert Survives(once, twice, order', embedding, j);
      }
    }
  }

  /** Every claim superseded by a pass points directly at a near duplicate that still stands and is no older. */
  lemma PassEvolves(cs: seq<Claim>, cs': seq<Claim>, order: seq<nat>, embedding: Embeddings)
    requires NewestClaimsFirst(cs, order) && Deduplicated(cs, cs', order, embedding)
    ensures Evolves(cs, cs')
    ensures forall k :: 0 <= k < |cs| && cs[k].Current() && !cs'[k].Current() ==>
      && HandedOver(cs', k) && NearDuplicate(cs'[cs'[k].successor.value], cs'[k], embedding)
      && cs'[cs'[k].successor.value].createdAt >= cs'[k].createdAt
  {
    forall k | 0 <= k < |cs| && cs'[k] != cs[k]
      ensures cs[k].Current() && HandedOver(cs', k) && cs'[k].SameFacts(cs[k])
      ensures NearDuplicate(cs'[cs'[k].successor.value], cs'[k], embedding)
      ensures cs'[cs'[k].successor.value].createdAt >= cs'[k].createdAt
    {
      var j: nat :| j < |order| && order[j] == k;
      var i: nat :| i < |order| && YieldsTo(cs, cs', order, embedding, i, j);
      StandingIsUnchanged(cs, cs', order, embedding, order[i]);
    }
  }
}
