/** Canonical preimages: the length-prefixed writer of internal/canon/canon.go and the strict
    reader of internal/canon/reader.go, over every schema of supported fields, nested lists
    included.  A 32-byte hash stands for its lowercase hex spelling. */
module Canon {
  import opened Foundation
  import BigEndian

  /** What a reader asks for.  The bounds are the caller's. */
  datatype Kind =
    | Number8
    | Number32
    | Number64
    | Blob(max: nat)
    | Text(max: nat)
    | Hash
    | Repeated(max: nat, row: seq<Kind>)

  datatype Value =
    | N8(n8: byte)
    | N32(n32: Uint32)
    | N64(n64: Uint64)
    | B(blob: Bytes)
    | T(text: Bytes)
    | H(hash: Bytes)
    | Rows(rows: seq<Row>)

  datatype Row = Row(cells: seq<Value>)

  // ------------------------------------------------------------------------ UTF-8

  predicate Continuation(b: byte) {
    0x80 <= b <= 0xBF
  }

  /** utf8.Valid: section 4 of RFC 3629. */
  predicate ValidUtf8(b: Bytes)
    decreases |b|
  {
    if b == [] then true
    else if b[0] < 0x80 then ValidUtf8(b[1..])
    else if 0xC2 <= b[0] <= 0xDF then |b| >= 2 && Continuation(b[1]) && ValidUtf8(b[2..])
    else if 0xE0 <= b[0] <= 0xEF then
      && |b| >= 3 && Continuation(b[1]) && Continuation(b[2])
      && (b[0] == 0xE0 ==> b[1] >= 0xA0) && (b[0] == 0xED ==> b[1] <= 0x9F)
      && ValidUtf8(b[3..])
    else if 0xF0 <= b[0] <= 0xF4 then
      && |b| >= 4 && Continuation(b[1]) && Continuation(b[2]) && Continuation(b[3])
      && (b[0] == 0xF0 ==> b[1] >= 0x90) && (b[0] == 0xF4 ==> b[1] <= 0x8F)
      && ValidUtf8(b[4..])
    else false
  }

  // ----------------------------------------------------------------------- writing

  /** A length truncated to `width` bytes. */
  function Size(n: nat, width: nat): Bytes {
    BigEndian.Encode(n % BigEndian.Power(width), width)
  }

  /** uint32(len(value)) followed by the bytes. */
  function Prefixed(b: Bytes): Bytes {
    Size(|b|, 4) + b
  }

  function Write(v: Value): Bytes
    decreases v, 0
  {
    match v
    case N8(n) => [n]
    case N32(n) => BigEndian.Encode(n, 4)
    case N64(n) => BigEndian.Encode(n, 8)
    case B(b) => Prefixed(b)
    case T(t) => Prefixed(t)
    case H(h) => Prefixed(h)
    case Rows(rows) => Size(|rows|, 4) + WriteRows(rows)
  }

  function WriteAll(vs: seq<Value>): Bytes
    decreases vs, 0
  {
    if vs == [] then [] else Write(vs[0]) + WriteAll(vs[1..])
  }

  function WriteRows(rows: seq<Row>): Bytes
    decreases rows, 0
  {
    if rows == [] then [] else WriteAll(rows[0].cells) + WriteRows(rows[1..])
  }

  // ----------------------------------------------------------------------- reading

  function TakeNumber(b: Bytes, width: nat): Option<(nat, Bytes)> {
    if |b| < width then None else Some((BigEndian.Decode(b[..width]), b[width..]))
  }

  function TakeSized(b: Bytes, width: nat, max: nat): Option<(Bytes, Bytes)> {
    match TakeNumber(b, width)
    case None => None
    case Some((n, rest)) => if n > max || |rest| < n then None else Some((rest[..n], rest[n..]))
  }

  function TakeBlob(b: Bytes, max: nat): Option<(Bytes, Bytes)> {
    TakeSized(b, 4, max)
  }

  function Read(b: Bytes, k: Kind): Option<(Value, Bytes)>
    decreases k, 0, 0
  {
    match k
    case Number8 => if |b| < 1 then None else Some((N8(b[0]), b[1..]))
    case Number32 =>
      if |b| < 4 then None
      else NumberFits(b[..4]); Some((N32(BigEndian.Decode(b[..4])), b[4..]))
    case Number64 =>
      if |b| < 8 then None
      else NumberFits(b[..8]); Some((N64(BigEndian.Decode(b[..8])), b[8..]))
    case Blob(max) => (match TakeBlob(b, max) case None => None case Some((x, rest)) => Some((B(x), rest)))
    case Text(max) =>
      (match TakeBlob(b, max)
       case None => None
       case Some((x, rest)) => if ValidUtf8(x) then Some((T(x), rest)) else None)
    case Hash =>
      (match TakeBlob(b, 32)
       case None => None
       case Some((x, rest)) => if |x| == 32 then Some((H(x), rest)) else None)
    case Repeated(max, row) =>
      (match TakeNumber(b, 4)
       case None => None
       case Some((n, rest)) =>
         if n > max then None
         else
           match ReadRows(rest, row, n)
           case None => None
           case Some((rows, tail)) => Some((Rows(rows), tail)))
  }

  function ReadAll(b: Bytes, ks: seq<Kind>): Option<(seq<Value>, Bytes)>
    decreases ks, 0, 0
  {
    if ks == [] then Some(([], b))
    else
      match Read(b, ks[0])
      case None => None
      case Some((v, rest)) =>
        match ReadAll(rest, ks[1..])
        case None => None
        case Some((vs, tail)) => Some(([v] + vs, tail))
  }

  function ReadRows(b: Bytes, row: seq<Kind>, n: nat): Option<(seq<Row>, Bytes)>
    decreases row, 1, n
  {
    if n == 0 then Some(([], b))
    else
      match ReadAll(b, row)
      case None => None
      case Some((vs, rest)) =>
        match ReadRows(rest, row, n - 1)
        case None => None
        case Some((more, tail)) => Some(([Row(vs)] + more, tail))
  }

  /** The whole of a preimage: domain, fields, and nothing after them. */
  function Parse(domain: Bytes, preimage: Bytes, ks: seq<Kind>): Option<seq<Value>> {
    if |preimage| < |domain| || preimage[..|domain|] != domain then None
    else
      match ReadAll(preimage[|domain|..], ks)
      case None => None
      case Some((vs, rest)) => if rest == [] then Some(vs) else None
  }

  lemma NumberFits(b: Bytes)
    ensures |b| == 4 ==> BigEndian.Decode(b) < UINT32_LIMIT
    ensures |b| == 8 ==> BigEndian.Decode(b) < UINT64_LIMIT
  {
    BigEndian.EncodeDecode(b);
    BigEndian.Limits();
  }

  // ------------------------------------------------------------------- well-typed values

  /** The value is one the reader can be asked for: within the bound, of the right form. */
  predicate Fits(v: Value, k: Kind)
    decreases k, 0, 0
  {
    match (v, k)
    case (N8(_), Number8) => true
    case (N32(_), Number32) => true
    case (N64(_), Number64) => true
    case (B(b), Blob(max)) => |b| <= max && |b| < UINT32_LIMIT
    case (T(t), Text(max)) => |t| <= max && |t| < UINT32_LIMIT && ValidUtf8(t)
    case (H(h), Hash) => |h| == 32
    case (Rows(rows), Repeated(max, row)) => |rows| <= max && |rows| < UINT32_LIMIT && FitRows(rows, row)
    case _ => false
  }

  predicate FitAll(vs: seq<Value>, ks: seq<Kind>)
    decreases ks, 0, 0
  {
    |vs| == |ks| && (ks != [] ==> Fits(vs[0], ks[0]) && FitAll(vs[1..], ks[1..]))
  }

  predicate FitRows(rows: seq<Row>, row: seq<Kind>)
    decreases row, 1, |rows|
  {
    rows != [] ==> FitAll(rows[0].cells, row) && FitRows(rows[1..], row)
  }

  // ---------------------------------------------------------------- reading undoes writing

  lemma NumberRoundTrip(n: nat, width: nat, rest: Bytes)
    requires n < BigEndian.Power(width)
    ensures TakeNumber(BigEndian.Encode(n, width) + rest, width) == Some((n, rest))
  {
    var b := BigEndian.Encode(n, width) + rest;
    assert b[..width] == BigEndian.Encode(n, width) && b[width..] == rest;
    BigEndian.DecodeEncode(n, width);
  }

  lemma SmallRemainder(n: nat, m: nat)
    requires n < m
    ensures n % m == n
  {
  }

  lemma SizeRoundTrip(n: nat, width: nat, rest: Bytes)
    requires n < BigEndian.Power(width)
    ensures TakeNumber(Size(n, width) + rest, width) == Some((n, rest))
  {
    SmallRemainder(n, BigEndian.Power(width));
    NumberRoundTrip(n, width, rest);
  }

  lemma SizedRoundTrip(b: Bytes, width: nat, max: nat, rest: Bytes)
    requires |b| <= max && |b| < BigEndian.Power(width)
    ensures TakeSized(Size(|b|, width) + b + rest, width, max) == Some((b, rest))
  {
    assert Size(|b|, width) + b + rest == Size(|b|, width) + (b + rest);
    SizeRoundTrip(|b|, width, b + rest);
    assert (b + rest)[..|b|] == b && (b + rest)[|b|..] == rest;
  }

  lemma BlobRoundTrip(b: Bytes, max: nat, rest: Bytes)
    requires |b| <= max && |b| < UINT32_LIMIT
    ensures TakeBlob(Prefixed(b) + rest, max) == Some((b, rest))
  {
    BigEndian.Limits();
    SizedRoundTrip(b, 4, max, rest);
  }

  lemma NumbersRoundTrip(n32: Uint32, n64: Uint64, rest: Bytes)
    ensures Read(Write(N32(n32)) + rest, Number32) == Some((N32(n32), rest))
    ensures Read(Write(N64(n64)) + rest, Number64) == Some((N64(n64), rest))
  {
    BigEndian.Limits();
    NumberRoundTrip(n32, 4, rest);
    NumberRoundTrip(n64, 8, rest);
  }

  lemma ListRoundTrip(rows: seq<Row>, max: nat, row: seq<Kind>, rest: Bytes)
    requires |rows| <= max && |rows| < UINT32_LIMIT
    requires ReadRows(WriteRows(rows) + rest, row, |rows|) == Some((rows, rest))
    ensures Read(Write(Rows(rows)) + rest, Repeated(max, row)) == Some((Rows(rows), rest))
  {
    BigEndian.Limits();
    assert Write(Rows(rows)) + rest == Size(|rows|, 4) + (WriteRows(rows) + rest);
    SizeRoundTrip(|rows|, 4, WriteRows(rows) + rest);
  }

  lemma {:induction false} RoundTrip(v: Value, k: Kind, rest: Bytes)
    requires Fits(v, k)
    ensures Read(Write(v) + rest, k) == Some((v, rest))
    decreases k, 0, 0
  {
    match k
    case Number8 => assert ([v.n8] + rest)[1..] == rest;
    case Number32 => NumbersRoundTrip(v.n32, 0, rest);
    case Number64 => NumbersRoundTrip(0, v.n64, rest);
    case Blob(max) => BlobRoundTrip(v.blob, max, rest);
    case Text(max) => BlobRoundTrip(v.text, max, rest);
    case Hash => BlobRoundTrip(v.hash, 32, rest);
    case Repeated(max, row) =>
      RoundTripRows(v.rows, row, rest);
      ListRoundTrip(v.rows, max, row, rest);
  }

  lemma {:induction false} RoundTripAll(vs: seq<Value>, ks: seq<Kind>, rest: Bytes)
    requires FitAll(vs, ks)
    ensures ReadAll(WriteAll(vs) + rest, ks) == Some((vs, rest))
    decreases ks, 0, 0
  {
    if ks == [] {
      assert WriteAll(vs) + rest == rest;
    } else {
      assert WriteAll(vs) + rest == Write(vs[0]) + (WriteAll(vs[1..]) + rest);
      RoundTrip(vs[0], ks[0], WriteAll(vs[1..]) + rest);
      RoundTripAll(vs[1..], ks[1..], rest);
      assert [vs[0]] + vs[1..] == vs;
    }
  }

  lemma {:induction false} RoundTripRows(rows: seq<Row>, row: seq<Kind>, rest: Bytes)
    requires FitRows(rows, row)
    ensures ReadRows(WriteRows(rows) + rest, row, |rows|) == Some((rows, rest))
    decreases row, 1, |rows|
  {
    if rows == [] {
      assert WriteRows(rows) + rest == rest;
    } else {
      assert WriteRows(rows) + rest == WriteAll(rows[0].cells) + (WriteRows(rows[1..]) + rest);
      RoundTripAll(rows[0].cells, row, WriteRows(rows[1..]) + rest);
      RoundTripRows(rows[1..], row, rest);
      assert [rows[0]] + rows[1..] == rows;
    }
  }

  // -------------------------------------------------------------- what is read was written

  lemma SizeExact(b: Bytes, width: nat)
    requires TakeNumber(b, width).Some?
    ensures var (n, rest) := TakeNumber(b, width).value;
            n < BigEndian.Power(width) && b == Size(n, width) + rest
  {
    var (n, rest) := TakeNumber(b, width).value;
    BigEndian.EncodeDecode(b[..width]);
    SmallRemainder(n, BigEndian.Power(width));
    assert b == b[..width] + rest;
  }

  lemma SizedExact(b: Bytes, width: nat, max: nat)
    requires TakeSized(b, width, max).Some?
    ensures var (x, rest) := TakeSized(b, width, max).value;
            |x| <= max && |x| < BigEndian.Power(width) && b == Size(|x|, width) + x + rest
  {
    SizeExact(b, width);
    var (n, tail) := TakeNumber(b, width).value;
    assert tail == tail[..n] + tail[n..];
    assert b == Size(n, width) + tail[..n] + tail[n..];
  }

  lemma BlobExact(b: Bytes, max: nat)
    requires TakeBlob(b, max).Some?
    ensures var (x, rest) := TakeBlob(b, max).value;
            |x| <= max && |x| < UINT32_LIMIT && b == Prefixed(x) + rest
  {
    BigEndian.Limits();
    SizedExact(b, 4, max);
  }

  lemma ListExact(b: Bytes, max: nat, row: seq<Kind>)
    requires Read(b, Repeated(max, row)).Some?
    requires var (n, rest) := TakeNumber(b, 4).value;
             var (rows, tail) := ReadRows(rest, row, n).value;
             |rows| == n && FitRows(rows, row) && rest == WriteRows(rows) + tail
    ensures var (v, rest) := Read(b, Repeated(max, row)).value;
            Fits(v, Repeated(max, row)) && b == Write(v) + rest
  {
    BigEndian.Limits();
    SizeExact(b, 4);
    var (n, rest) := TakeNumber(b, 4).value;
    var (rows, tail) := ReadRows(rest, row, n).value;
    assert b == Size(n, 4) + WriteRows(rows) + tail;
  }

  lemma {:induction false} Exact(b: Bytes, k: Kind)
    requires Read(b, k).Some?
    ensures var (v, rest) := Read(b, k).value; Fits(v, k) && b == Write(v) + rest
    decreases k, 0, 0
  {
    match k
    case Number8 => assert b == [b[0]] + b[1..];
    case Number32 => BigEndian.EncodeDecode(b[..4]); assert b == b[..4] + b[4..];
    case Number64 => BigEndian.EncodeDecode(b[..8]); assert b == b[..8] + b[8..];
    case Blob(max) => BlobExact(b, max);
    case Text(max) => BlobExact(b, max);
    case Hash => BlobExact(b, 32);
    case Repeated(max, row) =>
      var (n, rest) := TakeNumber(b, 4).value;
      ExactRows(rest, row, n);
      ListExact(b, max, row);
  }

  lemma {:induction false} ExactAll(b: Bytes, ks: seq<Kind>)
    requires ReadAll(b, ks).Some?
    ensures var (vs, rest) := ReadAll(b, ks).value; FitAll(vs, ks) && b == WriteAll(vs) + rest
    decreases ks, 0, 0
  {
    if ks != [] {
      var (v, rest) := Read(b, ks[0]).value;
      Exact(b, ks[0]);
      ExactAll(rest, ks[1..]);
      var (vs, tail) := ReadAll(b, ks).value;
      assert vs[1..] == ReadAll(rest, ks[1..]).value.0;
    }
  }

  lemma {:induction false} ExactRows(b: Bytes, row: seq<Kind>, n: nat)
    requires ReadRows(b, row, n).Some?
    ensures var (rows, rest) := ReadRows(b, row, n).value;
            |rows| == n && FitRows(rows, row) && b == WriteRows(rows) + rest
    decreases row, 1, n
  {
    if n > 0 {
      var (vs, rest) := ReadAll(b, row).value;
      ExactAll(b, row);
      ExactRows(rest, row, n - 1);
      var (rows, tail) := ReadRows(b, row, n).value;
      assert rows[1..] == ReadRows(rest, row, n - 1).value.0;
    }
  }

  // ----------------------------------------------------------------------- main results

  /** Reading undoes writing, with nothing left over. */
  lemma ParseUndoesWrite(domain: Bytes, vs: seq<Value>, ks: seq<Kind>)
    requires FitAll(vs, ks)
    ensures Parse(domain, domain + WriteAll(vs), ks) == Some(vs)
  {
    var p := domain + WriteAll(vs);
    assert p[..|domain|] == domain && p[|domain|..] == WriteAll(vs) + [];
    RoundTripAll(vs, ks, []);
  }

  /** A preimage that is accepted is exactly what the writer emits for the fields read. */
  lemma ParseIsExact(domain: Bytes, preimage: Bytes, ks: seq<Kind>)
    requires Parse(domain, preimage, ks).Some?
    ensures var vs := Parse(domain, preimage, ks).value; FitAll(vs, ks) && preimage == domain + WriteAll(vs)
  {
    ExactAll(preimage[|domain|..], ks);
    assert preimage == preimage[..|domain|] + preimage[|domain|..];
  }

  /** So equal preimages carry equal fields. */
  lemma WriteInjective(domain: Bytes, us: seq<Value>, vs: seq<Value>, ks: seq<Kind>)
    requires FitAll(us, ks) && FitAll(vs, ks) && domain + WriteAll(us) == domain + WriteAll(vs)
    ensures us == vs
  {
    ParseUndoesWrite(domain, us, ks);
    ParseUndoesWrite(domain, vs, ks);
  }

  /** Bool: one byte, 1 for true and 0 for false. */
  function BoolValue(v: bool): Value {
    N8(if v then 1 else 0)
  }

  /** A single byte the reader accepts is a boolean the writer wrote exactly when it is 0 or 1: the
      reader itself takes any. */
  lemma BoolExactly(b: Bytes)
    requires Read(b, Number8).Some?
    ensures var (v, rest) := Read(b, Number8).value;
            (exists x :: b == Write(BoolValue(x)) + rest) <==> v.n8 <= 1
  {
    var (v, rest) := Read(b, Number8).value;
    assert b == [b[0]] + rest;
    if v.n8 <= 1 {
      assert b == Write(BoolValue(v.n8 == 1)) + rest;
    }
    forall x: bool | b == Write(BoolValue(x)) + rest ensures v.n8 <= 1 {
      assert b[0] == Write(BoolValue(x))[0];
    }
  }
}
