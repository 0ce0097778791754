/**
 The opaque paging cursor (backend/app/api/routes/candidates.py): JSON text in unpadded base64url,
 sections 5 and 3.2 of RFC 4648.  The JSON printer and parser are parameters.
 */
module CandidateCursor {
  import opened Options
  import opened Fingerprint

  const PAD: byte := 61

  // The URL and filename safe alphabet.
  function Symbol(i: nat): byte
    requires i < 64
  {
    if i < 26 then 65 + i as byte
    else if i < 52 then 97 + (i - 26) as byte
    else if i < 62 then 48 + (i - 52) as byte
    else if i == 62 then 45 else 95
  }

  // The decoder also takes the two symbols of the standard alphabet.
  function Sextet(c: byte): (r: Option<nat>)
    ensures r.Some? ==> r.value < 64
  {
    if 65 <= c <= 90 then Some((c - 65) as nat)
    else if 97 <= c <= 122 then Some((c - 97) as nat + 26)
    else if 48 <= c <= 57 then Some((c - 48) as nat + 52)
    else if c == 45 || c == 43 then Some(62)
    else if c == 95 || c == 47 then Some(63)
    else None
  }

  lemma SextetOfSymbol(i: nat)
    requires i < 64
    ensures Sextet(Symbol(i)) == Some(i) && Symbol(i) != PAD
  {
  }

  function Quad(a: byte, b: byte, c: byte): Bytes {
    var (x, y, z) := (a as nat, b as nat, c as nat);
    [Symbol(x / 4), Symbol(x % 4 * 16 + y / 16), Symbol(y % 16 * 4 + z / 64), Symbol(z % 64)]
  }

  // Base64 without its padding.
  function Unpadded(b: Bytes): Bytes {
    if |b| == 0 then []
    else if |b| == 1 then Quad(b[0], 0, 0)[..2]
    else if |b| == 2 then Quad(b[0], b[1], 0)[..3]
    else Quad(b[0], b[1], b[2]) + Unpadded(b[3..])
  }

  function Pads(n: nat): Bytes {
    if n == 0 then [] else [PAD] + Pads(n - 1)
  }

  // The padding that completes the last group of three bytes.
  function PadCount(n: nat): nat {
    if n == 0 then 0 else if n == 1 then 2 else if n == 2 then 1 else PadCount(n - 3)
  }

  // `urlsafe_b64encode`: padded to a multiple of four symbols.
  function Base64(b: Bytes): Bytes {
    Unpadded(b) + Pads(PadCount(|b|))
  }

  // `rstrip("=")`
  function StripPads(t: Bytes): Bytes {
    if t != [] && t[|t| - 1] == PAD then StripPads(t[..|t| - 1]) else t
  }

  predicate NoPad(t: Bytes) {
    forall i :: 0 <= i < |t| ==> t[i] != PAD
  }

  lemma QuadHasNoPad(a: byte, b: byte, c: byte)
    ensures |Quad(a, b, c)| == 4 && NoPad(Quad(a, b, c))
  {
    var (x, y, z) := (a as nat, b as nat, c as nat);
    SextetOfSymbol(x / 4);
    SextetOfSymbol(x % 4 * 16 + y / 16);
    SextetOfSymbol(y % 16 * 4 + z / 64);
    SextetOfSymbol(z % 64);
  }

  lemma {:induction false} UnpaddedHasNoPad(b: Bytes)
    ensures NoPad(Unpadded(b))
  {
    if |b| == 0 {
    } else if |b| == 1 {
      QuadHasNoPad(b[0], 0, 0);
    } else if |b| == 2 {
      QuadHasNoPad(b[0], b[1], 0);
    } else {
      QuadHasNoPad(b[0], b[1], b[2]);
      UnpaddedHasNoPad(b[3..]);
    }
  }

  lemma FourMore(n: nat)
    requires n % 4 == 0
    ensures (4 + n) % 4 == 0
  {
  }

  lemma {:induction false} UnpaddedLength(b: Bytes)
    ensures (|Unpadded(b)| + PadCount(|b|)) % 4 == 0 && PadCount(|b|) < 4
  {
    if |b| >= 3 {
      UnpaddedLength(b[3..]);
      FourMore(|Unpadded(b[3..])| + PadCount(|b[3..]|));
      assert |Unpadded(b)| == 4 + |Unpadded(b[3..])|;
    }
  }

  lemma PadsEndInPad(n: nat)
    requires n > 0
    ensures |Pads(n)| == n && Pads(n)[n - 1] == PAD && Pads(n)[..n - 1] == Pads(n - 1)
  {
    if n > 1 {
      PadsEndInPad(n - 1);
      assert Pads(n)[..n - 1] == [PAD] + Pads(n - 1)[..n - 2];
    }
  }

  lemma StripRemovesPads(t: Bytes, n: nat)
    requires NoPad(t)
    ensures StripPads(t + Pads(n)) == t
  {
    if n == 0 {
      assert t + Pads(n) == t;
    } else {
      PadsEndInPad(n);
      assert (t + Pads(n))[..|t + Pads(n)| - 1] == t + Pads(n - 1);
      StripRemovesPads(t, n - 1);
    }
  }

  function Prepend(x: nat, rest: Option<Bytes>): Option<Bytes>
    requires x < 256
  {
    if rest.None? then None else Some([x as byte] + rest.value)
  }

  // The lenient decoder: other characters are skipped, enough padding ends the input, and a group
  // left incomplete is an error.  `quad` counts the symbols of the group, `left` holds its spare bits.
  function Scan(t: Bytes, quad: nat, left: nat, pads: nat): Option<Bytes>
    requires quad < 4 && left < (if quad == 0 then 1 else if quad == 1 then 64 else if quad == 2 then 16 else 4)
    decreases |t|
  {
    if t == [] then (if quad == 0 then Some([]) else None)
    else if t[0] == PAD then
      if quad >= 2 && quad + pads + 1 >= 4 then Some([]) else Scan(t[1..], quad, left, if quad >= 2 then pads + 1 else pads)
    else match Sextet(t[0])
      case None => Scan(t[1..], quad, left, pads)
      case Some(v) =>
        if quad == 0 then Scan(t[1..], 1, v, 0)
        else if quad == 1 then Prepend(left * 4 + v / 16, Scan(t[1..], 2, v % 16, 0))
        else if quad == 2 then Prepend(left * 16 + v / 4, Scan(t[1..], 3, v % 4, 0))
        else Prepend(left * 64 + v, Scan(t[1..], 0, 0, 0))
  }

  function Padded(cursor: Bytes): Bytes {
    cursor + Pads((4 - |cursor| % 4) % 4)
  }

  // The route pads to a multiple of four before decoding.
  function Decoded64(cursor: Bytes): Option<Bytes> {
    Scan(Padded(cursor), 0, 0, 0)
  }

  lemma ScanSymbol(i: nat, rest: Bytes, quad: nat, left: nat, pads: nat)
    requires i < 64 && quad < 4 && left < (if quad == 0 then 1 else if quad == 1 then 64 else if quad == 2 then 16 else 4)
    ensures Scan([Symbol(i)] + rest, quad, left, pads) ==
      if quad == 0 then Scan(rest, 1, i, 0)
      else if quad == 1 then Prepend(left * 4 + i / 16, Scan(rest, 2, i % 16, 0))
      else if quad == 2 then Prepend(left * 16 + i / 4, Scan(rest, 3, i % 4, 0))
      else Prepend(left * 64 + i, Scan(rest, 0, 0, 0))
  {
    SextetOfSymbol(i);
    assert ([Symbol(i)] + rest)[1..] == rest;
  }

  // The bits of three bytes survive being cut into four sextets.
  lemma QuadBits(x: nat, y: nat, z: nat)
    requires x < 256 && y < 256 && z < 256
    ensures var (p, q, r, s) := (x / 4, x % 4 * 16 + y / 16, y % 16 * 4 + z / 64, z % 64);
      && p < 64 && q < 64 && r < 64 && s < 64
      && p * 4 + q / 16 == x && q % 16 * 16 + r / 4 == y && r % 4 * 64 + s == z
  {
    assert (x % 4 * 16 + y / 16) / 16 == x % 4 && (x % 4 * 16 + y / 16) % 16 == y / 16;
    assert (y % 16 * 4 + z / 64) / 4 == y % 16 && (y % 16 * 4 + z / 64) % 4 == z / 64;
  }

  lemma ScanSextets(p: nat, q: nat, r: nat, s: nat, rest: Bytes)
    requires p < 64 && q < 64 && r < 64 && s < 64
    ensures Scan([Symbol(p), Symbol(q), Symbol(r), Symbol(s)] + rest, 0, 0, 0) ==
      Prepend(p * 4 + q / 16, Prepend(q % 16 * 16 + r / 4, Prepend(r % 4 * 64 + s, Scan(rest, 0, 0, 0))))
  {
    var t3 := [Symbol(s)] + rest;
    var t2 := [Symbol(r)] + t3;
    var t1 := [Symbol(q)] + t2;
    ScanSymbol(p, t1, 0, 0, 0);
    ScanSymbol(q, t2, 1, p, 0);
    ScanSymbol(r, t3, 2, q % 16, 0);
    ScanSymbol(s, rest, 3, r % 4, 0);
    assert [Symbol(p), Symbol(q), Symbol(r), Symbol(s)] + rest == [Symbol(p)] + t1;
  }

  lemma ScanQuad(a: byte, b: byte, c: byte, rest: Bytes)
    ensures Scan(Quad(a, b, c) + rest, 0, 0, 0) ==
      Prepend(a as nat, Prepend(b as nat, Prepend(c as nat, Scan(rest, 0, 0, 0))))
  {
    var (x, y, z) := (a as nat, b as nat, c as nat);
    QuadBits(x, y, z);
    ScanSextets(x / 4, x % 4 * 16 + y / 16, y % 16 * 4 + z / 64, z % 64, rest);
    assert Quad(a, b, c) == [Symbol(x / 4), Symbol(x % 4 * 16 + y / 16), Symbol(y % 16 * 4 + z / 64), Symbol(z % 64)];
  }

  lemma ScanPads(left: nat)
    ensures left < 16 ==> Scan([PAD, PAD], 2, left, 0) == Some([])
    ensures left < 4 ==> Scan([PAD], 3, left, 0) == Some([])
  {
    assert [PAD, PAD][1..] == [PAD];
    if left < 16 { assert Scan([PAD], 2, left, 1) == Some([]); }
  }

  lemma ScanOne(a: byte)
    ensures Scan(Unpadded([a]) + [PAD, PAD], 0, 0, 0) == Some([a])
  {
    var x := a as nat;
    QuadBits(x, 0, 0);
    var t1 := [Symbol(x % 4 * 16)] + [PAD, PAD];
    ScanSymbol(x / 4, t1, 0, 0, 0);
    ScanSymbol(x % 4 * 16, [PAD, PAD], 1, x / 4, 0);
    ScanPads(0);
    assert Unpadded([a]) == Quad(a, 0, 0)[..2] == [Symbol(x / 4), Symbol(x % 4 * 16)];
    assert Unpadded([a]) + [PAD, PAD] == [Symbol(x / 4)] + t1;
    assert (x % 4 * 16) % 16 == 0 && [a] + [] == [a];
  }

  lemma ScanTwo(a: byte, b: byte)
    ensures Scan(Unpadded([a, b]) + [PAD], 0, 0, 0) == Some([a, b])
  {
    var (x, y) := (a as nat, b as nat);
    var (p, q, r) := (x / 4, x % 4 * 16 + y / 16, y % 16 * 4);
    QuadBits(x, y, 0);
    var t2 := [Symbol(r)] + [PAD];
    var t1 := [Symbol(q)] + t2;
    ScanSymbol(p, t1, 0, 0, 0);
    ScanSymbol(q, t2, 1, p, 0);
    ScanSymbol(r, [PAD], 2, q % 16, 0);
    ScanPads(r % 4);
    assert Unpadded([a, b]) == Quad(a, b, 0)[..3] == [Symbol(p), Symbol(q), Symbol(r)];
    assert Unpadded([a, b]) + [PAD] == [Symbol(p)] + t1;
    assert [a] + ([b] + []) == [a, b];
  }

  lemma PadsWrittenOut()
    ensures Pads(0) == [] && Pads(1) == [PAD] && Pads(2) == [PAD, PAD]
  {
    assert Pads(1) == [PAD] + Pads(0);
    assert Pads(2) == [PAD] + Pads(1);
  }

  lemma ScanFirst(b: Bytes, rest: Bytes)
    requires |b| >= 3 && Scan(rest, 0, 0, 0) == Some(b[3..])
    ensures Scan(Quad(b[0], b[1], b[2]) + rest, 0, 0, 0) == Some(b)
  {
    ScanQuad(b[0], b[1], b[2], rest);
    assert b == [b[0]] + ([b[1]] + ([b[2]] + b[3..]));
  }

  lemma FirstQuad(b: Bytes)
    requires |b| >= 3
    ensures Base64(b) == Quad(b[0], b[1], b[2]) + Base64(b[3..])
  {
    assert |b[3..]| == |b| - 3;
  }

  lemma {:induction false} ScanInvertsBase64(b: Bytes)
    ensures Scan(Base64(b), 0, 0, 0) == Some(b)
  {
    PadsWrittenOut();
    if |b| == 0 {
      assert Base64(b) == [];
    } else if |b| == 1 {
      assert b == [b[0]];
      ScanOne(b[0]);
    } else if |b| == 2 {
      assert b == [b[0], b[1]];
      ScanTwo(b[0], b[1]);
    } else {
      ScanInvertsBase64(b[3..]);
      FirstQuad(b);
      ScanFirst(b, Base64(b[3..]));
    }
  }

  lemma PadsNeeded(n: nat, pads: nat)
    requires (n + pads) % 4 == 0 && pads < 4
    ensures (4 - n % 4) % 4 == pads
  {
  }

  // The decoder puts back as much padding as the encoder wrote.
  lemma PaddingIsRestored(cursor: Bytes, pads: nat)
    requires (|cursor| + pads) % 4 == 0 && pads < 4
    ensures Padded(cursor) == cursor + Pads(pads)
  {
    PadsNeeded(|cursor|, pads);
  }

  /** Stripping the padding and putting it back loses nothing, for every text. */
  lemma UnpaddedRoundTrip(b: Bytes)
    ensures StripPads(Base64(b)) == Unpadded(b) && Decoded64(StripPads(Base64(b))) == Some(b)
  {
    UnpaddedHasNoPad(b);
    StripRemovesPads(Unpadded(b), PadCount(|b|));
    UnpaddedLength(b);
    PaddingIsRestored(Unpadded(b), PadCount(|b|));
    ScanInvertsBase64(b);
  }

  /** Test vectors of section 10 of RFC 4648. */
  lemma ShortVectors()
    ensures Base64([102]) == [90, 103, PAD, PAD]
    ensures Base64([102, 111]) == [90, 109, 56, PAD]
    ensures Base64([102, 111, 111]) == [90, 109, 57, 118]
  {
    PadsWrittenOut();
    var foo: Bytes := [102, 111, 111];
    assert foo[3..] == [];
    assert Quad(102, 0, 0)[..2] == [90, 103] && Quad(102, 111, 0)[..3] == [90, 109, 56];
    assert Quad(102, 111, 111) == [90, 109, 57, 118];
  }

  /** And one with the two symbols that are safe in a URL. */
  lemma UrlSafeVector()
    ensures Base64([251, 255]) == [45, 95, 56, PAD]
  {
    PadsWrittenOut();
    assert Quad(251, 255, 0)[..3] == [45, 95, 56];
  }

  // ----- the cursor -----

  datatype Payload = Payload(createdAt: int, id: nat, filters: Bytes)

  datatype Json = Json(show: Payload -> Bytes, parse: Bytes -> Option<Payload>)

  datatype Position = At(createdAt: int, id: nat) | InvalidCursor | OtherFilters

  function EncodeCursor(p: Payload, json: Json): Bytes {
    StripPads(Base64(json.show(p)))
  }

  function DecodeCursor(cursor: Bytes, filters: Bytes, json: Json): Position {
    match Decoded64(cursor)
    case None => InvalidCursor
    case Some(text) =>
      match json.parse(text)
      case None => InvalidCursor
      case Some(p) => if p.filters != filters then OtherFilters else At(p.createdAt, p.id)
  }

  /** A cursor decodes to the row it was made from, under the same filters and no others. */
  lemma CursorRoundTrip(p: Payload, filters: Bytes, json: Json)
    requires json.parse(json.show(p)) == Some(p)
    ensures DecodeCursor(EncodeCursor(p, json), filters, json) ==
      if filters == p.filters then At(p.createdAt, p.id) else OtherFilters
  {
    UnpaddedRoundTrip(json.show(p));
  }
}
