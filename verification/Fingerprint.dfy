/**
 The length-prefixed text behind persistence fingerprints (backend/app/collectors/persistence.py).
 Text is its UTF-8 bytes; the digest taken over the result is not modelled.
 */
module Fingerprint {
  import opened Options

  newtype byte = x: int | 0 <= x < 256

  type Bytes = seq<byte>

  const COLON: byte := 58
  const ZERO: byte := 48

  predicate IsDigit(b: byte) {
    ZERO <= b < ZERO + 10
  }

  // `str(n)` in ASCII.
  function Digits(n: nat): (ds: Bytes)
    ensures ds != [] && forall i :: 0 <= i < |ds| ==> IsDigit(ds[i])
  {
    if n < 10 then [ZERO + n as byte] else Digits(n / 10) + [ZERO + (n % 10) as byte]
  }

  function Number(ds: Bytes): nat
    requires forall i :: 0 <= i < |ds| ==> IsDigit(ds[i])
  {
    if ds == [] then 0
    else
      var last := ds[|ds| - 1];
      assert IsDigit(last);
      10 * Number(ds[..|ds| - 1]) + (last - ZERO) as nat
  }

  lemma {:induction false} NumberOfDigits(n: nat)
    ensures Number(Digits(n)) == n
  {
    if n < 10 {
      assert Digits(n)[..0] == [];
    } else {
      NumberOfDigits(n / 10);
      assert Digits(n)[..|Digits(n)| - 1] == Digits(n / 10);
    }
  }

  type Part = Option<Bytes>

  function Text(part: Part): Bytes {
    if part.Some? then part.value else []
  }

  function Framed(part: Part): Bytes {
    Digits(|Text(part)|) + [COLON] + Text(part)
  }

  function Payload(parts: seq<Part>): Bytes {
    if parts == [] then [] else Framed(parts[0]) + Payload(parts[1..])
  }

  lemma PayloadOfAppend(parts: seq<Part>, part: Part)
    ensures Payload(parts + [part]) == Payload(parts) + Framed(part)
  {
    if parts == [] {
      assert parts + [part] == [part];
    } else {
      assert (parts + [part])[1..] == parts[1..] + [part];
      PayloadOfAppend(parts[1..], part);
    }
  }

  /** The loop of the source, extending one buffer part by part. */
  method BuildPayload(parts: seq<Part>) returns (payload: Bytes)
    ensures payload == Payload(parts)
  {
    payload := [];
    for i := 0 to |parts|
      invariant payload == Payload(parts[..i])
    {
      var value := Text(parts[i]);
      payload := payload + Digits(|value|);
      payload := payload + [COLON];
      payload := payload + value;
      PayloadOfAppend(parts[..i], parts[i]);
      assert parts[..i + 1] == parts[..i] + [parts[i]];
    }
    assert parts[..|parts|] == parts;
  }

  // ----- a decoder, to show that nothing is lost -----

  function ColonAt(b: Bytes): (i: nat)
    ensures i <= |b| && (i < |b| ==> b[i] == COLON) && forall j :: 0 <= j < i ==> b[j] != COLON
  {
    if b == [] || b[0] == COLON then 0 else 1 + ColonAt(b[1..])
  }

  function Decoded(b: Bytes): Option<seq<Bytes>> {
    if b == [] then Some([])
    else
      var i := ColonAt(b);
      if i == |b| || exists j :: 0 <= j < i && !IsDigit(b[j]) then None
      else
        var end := i + 1 + Number(b[..i]);
        if end > |b| then None
        else match Decoded(b[end..]) case None => None case Some(rest) => Some([b[i + 1..end]] + rest)
  }

  function Texts(parts: seq<Part>): (r: seq<Bytes>)
    ensures |r| == |parts| && forall i :: 0 <= i < |parts| ==> r[i] == Text(parts[i])
  {
    seq(|parts|, i requires 0 <= i < |parts| => Text(parts[i]))
  }

  lemma ColonAfterDigits(ds: Bytes, tail: Bytes)
    requires forall i :: 0 <= i < |ds| ==> IsDigit(ds[i])
    ensures ColonAt(ds + [COLON] + tail) == |ds|
  {
    var b := ds + [COLON] + tail;
    assert b[|ds|] == COLON;
    assert forall j :: 0 <= j < |ds| ==> b[j] == ds[j];
  }

  lemma FirstPartDecodes(text: Bytes, rest: Bytes)
    ensures var b := Digits(|text|) + [COLON] + text + rest;
      Decoded(b) == match Decoded(rest) case None => None case Some(texts) => Some([text] + texts)
  {
    var ds := Digits(|text|);
    var b := ds + [COLON] + text + rest;
    assert b == ds + [COLON] + (text + rest);
    ColonAfterDigits(ds, text + rest);
    NumberOfDigits(|text|);
    assert b[..|ds|] == ds;
    assert b[|ds| + 1..] == text + rest;
    assert b[|ds| + 1..|ds| + 1 + |text|] == text;
    assert b[|ds| + 1 + |text|..] == rest;
  }

  lemma {:induction false} DecodeInvertsPayload(parts: seq<Part>)
    ensures Decoded(Payload(parts)) == Some(Texts(parts))
  {
    if parts != [] {
      DecodeInvertsPayload(parts[1..]);
      FirstPartDecodes(Text(parts[0]), Payload(parts[1..]));
      assert Texts(parts) == [Text(parts[0])] + Texts(parts[1..]);
    }
  }

  lemma SameTextsSamePayload(parts: seq<Part>, others: seq<Part>)
    requires Texts(parts) == Texts(others)
    ensures Payload(parts) == Payload(others)
  {
    if parts != [] {
      assert Texts(parts)[0] == Texts(others)[0];
      assert Texts(parts[1..]) == Texts(parts)[1..] && Texts(others[1..]) == Texts(others)[1..];
      SameTextsSamePayload(parts[1..], others[1..]);
    }
  }

  /** Two fingerprint texts are equal exactly when all parts are, a missing part counting as empty. */
  lemma PayloadIsInjective(parts: seq<Part>, others: seq<Part>)
    ensures Payload(parts) == Payload(others) <==> Texts(parts) == Texts(others)
  {
    DecodeInvertsPayload(parts);
    DecodeInvertsPayload(others);
    if Texts(parts) == Texts(others) {
      SameTextsSamePayload(parts, others);
    }
  }

  /** The framing, written out: the length in decimal, a colon, the text; a missing part is an empty text. */
  lemma FramingWrittenOut()
    ensures Digits(120) == [49, 50, 48]
    ensures Payload([Some([97, 98]), None]) == [50, 58, 97, 98, 48, 58]
  {
    assert Digits(1) == [49] && Digits(12) == [49, 50];
    var parts: seq<Part> := [Some([97, 98]), None];
    assert parts[1..] == [None] && parts[1..][1..] == [];
    assert Framed(parts[0]) == [50, 58, 97, 98] && Framed(parts[1]) == [48, 58];
    assert Payload(parts[1..]) == [48, 58];
  }
}
