/** The published DHT locator, byte by byte (pkg/directory/locator.go).  Identifiers whose text
    form is a prefix and hex are kept as the 32 bytes they spell; `url` decides whether a
    reference is an acceptable one. */
module Locator {
  import opened Foundation
  import BigEndian
  import opened Canon

  const VERSION: byte := 1
  const MAX_LOCATOR_BYTES: nat := 640
  const MAX_REFERENCE_BYTES: nat := 256
  const MAX_LIFETIME: nat := 86400
  const FIXED: nat := 1 + 32 + 32 + 8 + 8 + 2 + 64
  const DOMAIN := Ascii("tos.messaging.dht-locator.v1\0")

  datatype Locator = Locator(
    endpoint: Bytes,
    descriptor: Bytes,
    reference: Bytes,
    issued: Uint64,
    expires: Uint64,
    signature: Bytes)

  predicate ValidLocator(url: Bytes -> bool, l: Locator, signed: bool) {
    && |l.endpoint| == 32
    && |l.descriptor| == 32 && !IsZero(l.descriptor)
    && 0 < |l.reference| <= MAX_REFERENCE_BYTES && url(l.reference)
    && 0 < l.issued < l.expires <= l.issued + MAX_LIFETIME
    && (signed ==> |l.signature| == 64)
  }

  /** The bytes before the reference. */
  function Head(l: Locator): Bytes {
    [VERSION] + l.endpoint + l.descriptor + BigEndian.Encode(l.issued, 8) + BigEndian.Encode(l.expires, 8) + Size(|l.reference|, 2)
  }

  function Encoded(l: Locator): Bytes {
    Head(l) + l.reference + l.signature
  }

  function SigningBytes(l: Locator): Bytes {
    DOMAIN + ([VERSION] + l.endpoint + l.descriptor) + WriteAll([N64(l.issued), N64(l.expires), B(l.reference)])
  }

  function Number(b: Bytes): Uint64
    requires |b| == 8
  {
    NumberFits(b);
    BigEndian.Decode(b)
  }

  function Decode(url: Bytes -> bool, raw: Bytes): Option<Locator> {
    if |raw| > MAX_LOCATOR_BYTES || |raw| < FIXED || raw[0] != VERSION then None
    else
      var length := BigEndian.Decode(raw[81..83]);
      if |raw| != 83 + length + 64 then None
      else
        var l := Locator(raw[1..33], raw[33..65], raw[83..83 + length], Number(raw[65..73]), Number(raw[73..81]), raw[83 + length..]);
        if ValidLocator(url, l, true) then Some(l) else None
  }

  // ---------------------------------------------------------------------------- slices

  /** The slices of a record of six fixed parts and two variable ones. */
  lemma Slices(v: Bytes, e: Bytes, d: Bytes, i: Bytes, x: Bytes, n: Bytes, r: Bytes, s: Bytes)
    requires |v| == 1 && |e| == 32 && |d| == 32 && |i| == 8 && |x| == 8 && |n| == 2
    ensures var raw := v + e + d + i + x + n + r + s;
            && raw[..1] == v && raw[1..33] == e && raw[33..65] == d && raw[65..73] == i && raw[73..81] == x && raw[81..83] == n
            && raw[83..83 + |r|] == r && raw[83 + |r|..] == s
  {
  }

  lemma Rejoin(raw: Bytes, length: nat)
    requires |raw| == 83 + length + 64
    ensures raw == raw[..1] + raw[1..33] + raw[33..65] + raw[65..73] + raw[73..81] + raw[81..83] + raw[83..83 + length] + raw[83 + length..]
  {
  }

  lemma NumberOf(n: Uint64)
    ensures Number(BigEndian.Encode(n, 8)) == n
  {
    BigEndian.Limits();
    BigEndian.DecodeEncode(n, 8);
  }

  lemma EncodedNumber(b: Bytes)
    requires |b| == 8
    ensures BigEndian.Encode(Number(b), 8) == b
  {
    BigEndian.EncodeDecode(b);
  }

  lemma ShortSize(n: nat)
    requires n <= MAX_REFERENCE_BYTES
    ensures Size(n, 2) == BigEndian.Encode(n, 2) && BigEndian.Decode(Size(n, 2)) == n
  {
    BigEndian.Limits();
    SmallRemainder(n, BigEndian.Power(2));
    BigEndian.DecodeEncode(n, 2);
  }

  lemma SizeOf(b: Bytes)
    requires |b| == 2
    ensures Size(BigEndian.Decode(b), 2) == b
  {
    BigEndian.EncodeDecode(b);
    SmallRemainder(BigEndian.Decode(b), BigEndian.Power(2));
  }

  // ----------------------------------------------------------------------- main results

  /** Every valid signed locator encodes well within the bound: the size refusal is unreachable. */
  lemma EncodedWithin(url: Bytes -> bool, l: Locator)
    requires ValidLocator(url, l, true)
    ensures |Encoded(l)| == FIXED + |l.reference| <= FIXED + MAX_REFERENCE_BYTES < MAX_LOCATOR_BYTES
  {
  }

  /** Decoding undoes encoding. */
  lemma DecodeEncoded(url: Bytes -> bool, l: Locator)
    requires ValidLocator(url, l, true)
    ensures Decode(url, Encoded(l)) == Some(l)
  {
    var i, x, n := BigEndian.Encode(l.issued, 8), BigEndian.Encode(l.expires, 8), Size(|l.reference|, 2);
    Slices([VERSION], l.endpoint, l.descriptor, i, x, n, l.reference, l.signature);
    EncodedWithin(url, l);
    NumberOf(l.issued);
    NumberOf(l.expires);
    ShortSize(|l.reference|);
    assert Encoded(l)[0] == Encoded(l)[..1][0];
  }

  /** Whatever decodes re-encodes to exactly the same bytes. */
  lemma EncodeDecoded(url: Bytes -> bool, raw: Bytes)
    requires Decode(url, raw).Some?
    ensures ValidLocator(url, Decode(url, raw).value, true)
    ensures Encoded(Decode(url, raw).value) == raw
  {
    var l := Decode(url, raw).value;
    var length := BigEndian.Decode(raw[81..83]);
    Rejoin(raw, length);
    EncodedNumber(raw[65..73]);
    EncodedNumber(raw[73..81]);
    SizeOf(raw[81..83]);
    assert raw[..1] == [VERSION];
    assert |l.reference| == length;
  }

  /** The signature pins every field but itself. */
  lemma SigningInjective(url: Bytes -> bool, l: Locator, m: Locator)
    requires ValidLocator(url, l, false) && ValidLocator(url, m, false) && SigningBytes(l) == SigningBytes(m)
    ensures l.(signature := m.signature) == m
  {
    var a, b := [VERSION] + l.endpoint + l.descriptor, [VERSION] + m.endpoint + m.descriptor;
    var us, vs := [N64(l.issued), N64(l.expires), B(l.reference)], [N64(m.issued), N64(m.expires), B(m.reference)];
    SplitEqual(DOMAIN + a, WriteAll(us), DOMAIN + b, WriteAll(vs));
    SplitEqual(DOMAIN, a, DOMAIN, b);
    assert a[1..33] == l.endpoint && b[1..33] == m.endpoint && a[33..] == l.descriptor && b[33..] == m.descriptor;
    var ks := [Number64, Number64, Blob(MAX_REFERENCE_BYTES)];
    FitThree(us, ks);
    FitThree(vs, ks);
    WriteInjective([], us, vs, ks);
    assert us[0] == vs[0] && us[1] == vs[1] && us[2] == vs[2];
  }

  lemma SplitEqual(a: Bytes, x: Bytes, b: Bytes, y: Bytes)
    requires |a| == |b| && a + x == b + y
    ensures a == b && x == y
  {
    assert (a + x)[..|a|] == a && (b + y)[..|b|] == b;
    assert (a + x)[|a|..] == x && (b + y)[|b|..] == y;
  }

  lemma FitThree(vs: seq<Value>, ks: seq<Kind>)
    requires |vs| == |ks| == 3 && Fits(vs[0], ks[0]) && Fits(vs[1], ks[1]) && Fits(vs[2], ks[2])
    ensures FitAll(vs, ks)
  {
    assert FitAll(vs[3..], ks[3..]);
    assert vs[2..][1..] == vs[3..] && ks[2..][1..] == ks[3..];
    assert FitAll(vs[2..], ks[2..]);
    assert vs[1..][1..] == vs[2..] && ks[1..][1..] == ks[2..];
    assert FitAll(vs[1..], ks[1..]);
  }

  // --------------------------------------------------------------------------- the code

  method EncodeLocator(url: Bytes -> bool, l: Locator) returns (r: Option<Bytes>)
    ensures r == if ValidLocator(url, l, true) then Some(Encoded(l)) else None
  {
    if !ValidLocator(url, l, true) {
      return None;
    }
    EncodedWithin(url, l);
    var buffer := [VERSION] + l.endpoint;
    buffer := buffer + l.descriptor;
    buffer := buffer + BigEndian.Encode(l.issued, 8);
    buffer := buffer + BigEndian.Encode(l.expires, 8);
    buffer := buffer + Size(|l.reference|, 2);
    buffer := buffer + l.reference;
    buffer := buffer + l.signature;
    if |buffer| > MAX_LOCATOR_BYTES {
      assert false;
    }
    r := Some(buffer);
  }

  /** A cursor walks the fields. */
  method DecodeLocator(url: Bytes -> bool, raw: Bytes) returns (r: Option<Locator>)
    ensures r == Decode(url, raw)
  {
    if |raw| > MAX_LOCATOR_BYTES || |raw| < FIXED || raw[0] != VERSION {
      return None;
    }
    var cursor := 1;
    var endpoint := raw[cursor..cursor + 32];
    cursor := cursor + 32;
    var descriptor := raw[cursor..cursor + 32];
    cursor := cursor + 32;
    var issued := Number(raw[cursor..cursor + 8]);
    cursor := cursor + 8;
    var expires := Number(raw[cursor..cursor + 8]);
    cursor := cursor + 8;
    var length := BigEndian.Decode(raw[cursor..cursor + 2]);
    cursor := cursor + 2;
    if |raw| != cursor + length + 64 {
      return None;
    }
    var reference := raw[cursor..cursor + length];
    cursor := cursor + length;
    var l := Locator(endpoint, descriptor, reference, issued, expires, raw[cursor..]);
    r := if ValidLocator(url, l, true) then Some(l) else None;
  }
}
