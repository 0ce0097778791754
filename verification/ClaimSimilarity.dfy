/** What near duplicates are: the cosine of two vectors (backend/app/processing/dedup.py), without its roots. */
module ClaimSimilarity {
  import opened ClaimModel
  import opened ClaimDedup

  function Scaled(a: Vector, f: real): (r: Vector)
    ensures |r| == |a| && forall i :: 0 <= i < |a| ==> r[i] == f * a[i]
  {
    if a == [] then [] else [f * a[0]] + Scaled(a[1..], f)
  }

  predicate IsZero(a: Vector) {
    forall i :: 0 <= i < |a| ==> a[i] == 0.0
  }

  // ----- products of reals -----

  lemma Distribute(f: real, x: real, y: real, z: real)
    ensures f * x * y + f * z == f * (x * y + z)
  {
  }

  lemma ProductIsPositive(x: real, y: real)
    requires x > 0.0 && y > 0.0
    ensures x * y > 0.0
  {
  }

  lemma PositiveProduct(x: real, y: real) returns (p: real)
    requires x > 0.0 && y > 0.0
    ensures p == x * y && p > 0.0
  {
    p := x * y;
  }

  lemma Square(x: real) returns (q: real)
    ensures q == x * x && q >= 0.0 && (q == 0.0 <==> x == 0.0)
  {
    q := 0.0;
    if x > 0.0 { q := PositiveProduct(x, x); }
    if x < 0.0 { q := PositiveProduct(-x, -x); }
  }

  lemma SquaresKeepOrder(x: real, y: real)
    requires x > 0.0 && y > 0.0
    ensures x * x >= y * y <==> x >= y
  {
    if x >= y { assert x * x >= x * y >= y * y; } else { assert x * x < x * y < y * y; }
  }

  lemma FactorOut(f: real, x: real, y: real)
    requires f > 0.0
    ensures f * x >= f * y <==> x >= y
  {
  }

  lemma SquareOfProduct(m: real, n: real)
    ensures (m * n) * (m * n) == (m * m) * (n * n)
  {
  }

  lemma Regroup(q: real, t: real, m: real)
    ensures t * (q * m) == q * (t * m)
  {
  }

  // With q the square of the factor.
  lemma ScaledBound(q: real, d: real, t: real, m: real)
    requires q > 0.0
    ensures q * d >= t * (q * m) <==> d >= t * m
  {
    Regroup(q, t, m);
    FactorOut(q, d, t * m);
  }

  // ----- products of vectors -----

  lemma {:induction false} DotOfScaled(a: Vector, b: Vector, f: real)
    requires |a| == |b|
    ensures Dot(Scaled(a, f), b) == f * Dot(a, b)
  {
    if a != [] {
      DotOfScaled(a[1..], b[1..], f);
      assert Scaled(a, f)[1..] == Scaled(a[1..], f);
      Distribute(f, a[0], b[0], Dot(a[1..], b[1..]));
    }
  }

  lemma {:induction false} DotOfSelf(a: Vector)
    ensures Dot(a, a) >= 0.0 && (Dot(a, a) == 0.0 <==> IsZero(a))
  {
    if a != [] {
      DotOfSelf(a[1..]);
      var q := Square(a[0]);
      assert IsZero(a) <==> a[0] == 0.0 && IsZero(a[1..]) by {
        if IsZero(a) { forall i | 0 <= i < |a[1..]| ensures a[1..][i] == 0.0 { assert a[1..][i] == a[i + 1]; } }
        if a[0] == 0.0 && IsZero(a[1..]) {
          forall i | 0 <= i < |a| ensures a[i] == 0.0 { if i > 0 { assert a[i] == a[1..][i - 1]; } }
        }
      }
    }
  }

  lemma DotOfScaledSelf(a: Vector, f: real)
    ensures Dot(Scaled(a, f), Scaled(a, f)) == f * (f * Dot(a, a))
  {
    DotOfScaled(a, Scaled(a, f), f);
    DotIsSymmetric(a, Scaled(a, f));
    DotOfScaled(a, a, f);
  }

  // ----- similarity -----

  lemma Quotient(d: real, m: real, t: real)
    requires m > 0.0
    ensures d / m >= t <==> d >= t * m
  {
    assert d == (d / m) * m;
    if d / m >= t { FactorOut(m, d / m, t); } else { FactorOut(m, t, d / m); }
  }

  // The bound on squares is the bound on the quotient.
  lemma CosineBound(d: real, p: real, t: real)
    requires p > 0.0 && t > 0.0
    ensures d > 0.0 && d * d >= t * t * (p * p) <==> d / p >= t
  {
    ProductIsPositive(t, p);
    Quotient(d, p, t);
    if d > 0.0 { SquaresKeepOrder(d, t * p); }
    assert (t * p) * (t * p) == t * t * (p * p);
  }

  /** Without a vector of the same length there is no similarity, and none to a vector of zeros. */
  lemma DissimilarWithoutVector(a: Vector, b: Vector)
    ensures a == [] || |a| != |b| || IsZero(a) || IsZero(b) ==> !Similar(a, b)
  {
    DotOfSelf(a);
    DotOfSelf(b);
  }

  lemma ProductIsNegative(x: real, y: real)
    requires x > 0.0 && y < 0.0
    ensures x * y < 0.0
  {
  }

  lemma ProductsCompareToZero(f: real, x: real)
    requires f > 0.0
    ensures (f * x > 0.0 <==> x > 0.0) && (f * x != 0.0 <==> x != 0.0)
  {
    if x > 0.0 { ProductIsPositive(f, x); }
    if x < 0.0 { ProductIsNegative(f, x); }
  }

  lemma Associate(f: real, m: real, n: real)
    ensures f * (f * m) == (f * f) * m && f * (f * m) * n == (f * f) * (m * n)
  {
  }

  // Similarity as a matter of three products.
  predicate Close(d: real, m: real, n: real) {
    m != 0.0 && n != 0.0 && d > 0.0 && d * d >= THRESHOLD * THRESHOLD * (m * n)
  }

  lemma SimilarIsClose(a: Vector, b: Vector)
    ensures Similar(a, b) <==> a != [] && |a| == |b| && Close(Dot(a, b), Dot(a, a), Dot(b, b))
  {
  }

  lemma CloseIsCosine(d: real, m: real, n: real, p: real, mm: real, nn: real)
    requires m > 0.0 && n > 0.0 && p == m * n && p > 0.0 && mm == m * m && nn == n * n && mm > 0.0 && nn > 0.0
    ensures Close(d, mm, nn) <==> d / p >= 0.92
  {
    SquareOfProduct(m, n);
    CosineBound(d, p, 0.92);
  }

  /** Whenever the two norms exist as numbers, similarity is a cosine of at least 0.92. */
  lemma SimilarIsCosine(a: Vector, b: Vector, m: real, n: real)
    requires a != [] && |a| == |b| && m > 0.0 && n > 0.0 && m * m == Dot(a, a) && n * n == Dot(b, b)
    ensures Similar(a, b) <==> Dot(a, b) / (m * n) >= 0.92
  {
    var p := PositiveProduct(m, n);
    var mm := PositiveProduct(m, m);
    var nn := PositiveProduct(n, n);
    SimilarIsClose(a, b);
    CloseIsCosine(Dot(a, b), m, n, p, mm, nn);
  }

  lemma ScaledIsClose(f: real, d: real, m: real, n: real, d': real, m': real)
    requires f > 0.0 && d' == f * d && m' == f * (f * m)
    ensures Close(d', m', n) <==> Close(d, m, n)
  {
    var q := Square(f);
    ProductsCompareToZero(f, d);
    ProductsCompareToZero(q, m);
    SquareOfProduct(f, d);
    Associate(f, m, n);
    ScaledBound(q, d * d, THRESHOLD * THRESHOLD, m * n);
  }

  /** The length of a vector does not matter, only its direction. */
  lemma ScalingChangesNothing(a: Vector, b: Vector, f: real)
    requires f > 0.0
    ensures Similar(Scaled(a, f), b) <==> Similar(a, b)
  {
    SimilarIsClose(a, b);
    SimilarIsClose(Scaled(a, f), b);
    if |a| == |b| {
      DotOfScaled(a, b, f);
      DotOfScaledSelf(a, f);
      ScaledIsClose(f, Dot(a, b), Dot(a, a), Dot(b, b), Dot(Scaled(a, f), b), Dot(Scaled(a, f), Scaled(a, f)));
    }
  }

  /** A vector is similar to itself; one at a right angle to it, or opposite, is not. */
  lemma SimilarToItself(a: Vector, b: Vector)
    requires |a| == |b| && !IsZero(a)
    ensures Similar(a, a)
    ensures Dot(a, b) <= 0.0 ==> !Similar(a, b)
    ensures !Similar(a, Scaled(a, -1.0))
  {
    DotOfSelf(a);
    var m := Dot(a, a);
    var q := Square(m);
    assert q >= THRESHOLD * THRESHOLD * q;
    DotOfScaled(a, a, -1.0);
    DotIsSymmetric(a, Scaled(a, -1.0));
  }

  /** On unit vectors the bound is 0.92, exactly; in the plane it is the first coordinate of the direction. */
  lemma BoundIsExact(x: real, y: real)
    requires x * x + y * y == 1.0
    ensures Similar([1.0, 0.0], [x, y]) <==> x >= 0.92
  {
    var a, b: Vector := [1.0, 0.0], [x, y];
    assert a[1..] == [0.0] && b[1..] == [y] && a[1..][1..] == [] && b[1..][1..] == [];
    assert Dot(a[1..][1..], b[1..][1..]) == 0.0 && Dot(a[1..][1..], a[1..][1..]) == 0.0 && Dot(b[1..][1..], b[1..][1..]) == 0.0;
    assert Dot(a, b) == x && Dot(a, a) == 1.0 && Dot(b, b) == 1.0;
    SimilarIsCosine(a, b, 1.0, 1.0);
    assert x / (1.0 * 1.0) == x;
  }

  /** Two claims are near duplicates exactly if their scopes are equal and the vectors of their first citations similar. */
  lemma FirstCitationsDecide(a: Claim, b: Claim, embedding: Embeddings)
    ensures NearDuplicate(a, b, embedding) <==>
      && a.scope.attribute == b.scope.attribute && a.scope.opportunity == b.scope.opportunity
      && a.cites != [] && b.cites != [] && Similar(embedding(a.cites[0]), embedding(b.cites[0]))
  {
  }
}
