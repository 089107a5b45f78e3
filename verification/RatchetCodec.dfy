/** The binary form of a session state and of a message header, byte for byte. */
module RatchetCodec {
  import opened Foundation
  import BigEndian
  import Ratchet

  const MAX_STATE_BYTES: nat := 262144
  const HEADER_BYTES: nat := 41

  const ZERO: Bytes := seq(32, _ => 0 as byte)
  const MAGIC: Bytes := [0x54, 0x53, 0x45, 0x32]

  /** A 32-byte field. */
  type Word = b: Bytes | |b| == 32 witness ZERO

  datatype SkippedRecord = SkippedRecord(public: Word, number: Uint32, key: Word)

  datatype Record = Record(
    root: Word, selfPrivate: Word, selfPublic: Word, peerPublic: Word, sendChain: Word, receiveChain: Word,
    hasSend: bool, hasReceive: bool,
    sendNumber: Uint32, receiveNumber: Uint32, previousSendNumber: Uint32,
    skipped: seq<SkippedRecord>, seen: seq<Word>)

  // --------------------------------------------------------------------- sorting

  /** bytes.Compare(a, b) <= 0. */
  predicate BytesLeq(a: Bytes, b: Bytes) {
    if a == [] then true
    else if b == [] then false
    else a[0] < b[0] || (a[0] == b[0] && BytesLeq(a[1..], b[1..]))
  }

  /** The order in which skipped keys are written: by public key, then by number. */
  predicate Leq(a: SkippedRecord, b: SkippedRecord) {
    if a.public == b.public then a.number <= b.number else BytesLeq(a.public, b.public)
  }

  ghost predicate Sorted(s: seq<SkippedRecord>) {
    forall i :: 0 <= i < |s| - 1 ==> Leq(s[i], s[i + 1])
  }

  /** Insertion sort of any list by the record each element stands for. */
  function InsertBy<T>(f: T -> SkippedRecord, x: T, s: seq<T>): (r: seq<T>)
    ensures |r| == |s| + 1
  {
    if s == [] || Leq(f(x), f(s[0])) then [x] + s else [s[0]] + InsertBy(f, x, s[1..])
  }

  function SortBy<T>(f: T -> SkippedRecord, s: seq<T>): (r: seq<T>)
    ensures |r| == |s|
  {
    if s == [] then [] else InsertBy(f, s[0], SortBy(f, s[1..]))
  }

  function Sort(s: seq<SkippedRecord>): (r: seq<SkippedRecord>)
    ensures |r| == |s|
  {
    SortBy(x => x, s)
  }

  lemma {:induction false} BytesTotal(a: Bytes, b: Bytes)
    requires |a| == |b|
    ensures BytesLeq(a, b) || BytesLeq(b, a)
  {
    if a != [] && a[0] == b[0] { BytesTotal(a[1..], b[1..]); }
  }

  lemma {:induction false} InsertPermutes<T>(f: T -> SkippedRecord, x: T, s: seq<T>)
    ensures multiset(InsertBy(f, x, s)) == multiset(s) + multiset{x}
  {
    if s != [] && !Leq(f(x), f(s[0])) {
      InsertPermutes(f, x, s[1..]);
      assert s == [s[0]] + s[1..];
    }
  }

  lemma {:induction false} SortPermutes<T>(f: T -> SkippedRecord, s: seq<T>)
    ensures multiset(SortBy(f, s)) == multiset(s)
  {
    if s != [] {
      SortPermutes(f, s[1..]);
      InsertPermutes(f, s[0], SortBy(f, s[1..]));
      assert s == [s[0]] + s[1..];
    }
  }

  lemma {:induction false} InsertSorted(x: SkippedRecord, s: seq<SkippedRecord>)
    requires Sorted(s)
    ensures Sorted(InsertBy(y => y, x, s))
    ensures s != [] ==> InsertBy(y => y, x, s)[0] == x || InsertBy(y => y, x, s)[0] == s[0]
  {
    var r := InsertBy(y => y, x, s);
    if s != [] && !Leq(x, s[0]) {
      InsertSorted(x, s[1..]);
      var rest := InsertBy(y => y, x, s[1..]);
      assert r == [s[0]] + rest;
      BytesTotal(x.public, s[0].public);
      assert Leq(s[0], x);
      assert |s| > 1 ==> Leq(s[0], s[1]);
      forall i | 0 <= i < |r| - 1 ensures Leq(r[i], r[i + 1]) {
        if i > 0 { assert r[i] == rest[i - 1] && r[i + 1] == rest[i]; }
      }
    } else if s != [] {
      forall i | 0 <= i < |r| - 1 ensures Leq(r[i], r[i + 1]) {
        if i > 0 { assert r[i] == s[i - 1] && r[i + 1] == s[i]; }
      }
    }
  }

  lemma {:induction false} SortSorts(s: seq<SkippedRecord>)
    ensures Sorted(Sort(s))
  {
    if s != [] {
      SortSorts(s[1..]);
      InsertSorted(s[0], Sort(s[1..]));
    }
  }

  lemma {:induction false} SortFixed(s: seq<SkippedRecord>)
    requires Sorted(s)
    ensures Sort(s) == s
  {
    if s != [] {
      forall i | 0 <= i < |s| - 2 ensures Leq(s[1..][i], s[1..][i + 1]) { assert Leq(s[i + 1], s[i + 2]); }
      SortFixed(s[1..]);
      assert |s| > 1 ==> Leq(s[0], s[1]);
      assert s == [s[0]] + s[1..];
    }
  }

  // ---------------------------------------------------------------------- fields

  /** Consecutive 32-byte fields. */
  function PutWords(ws: seq<Word>): (b: Bytes)
    ensures |b| == 32 * |ws|
  {
    if ws == [] then [] else ws[0] + PutWords(ws[1..])
  }

  function TakeWords(b: Bytes, count: nat): (r: Option<(seq<Word>, Bytes)>)
    ensures r.Some? ==> |r.value.0| == count
  {
    if count == 0 then Some(([], b))
    else if |b| < 32 then None
    else
      match TakeWords(b[32..], count - 1)
      case None => None
      case Some((ws, rest)) => Some(([b[..32]] + ws, rest))
  }

  lemma {:induction false} WordsRoundTrip(ws: seq<Word>, rest: Bytes)
    ensures TakeWords(PutWords(ws) + rest, |ws|) == Some((ws, rest))
  {
    var b := PutWords(ws) + rest;
    if ws == [] {
      assert b == rest;
    } else {
      assert b[..32] == ws[0];
      assert b[32..] == PutWords(ws[1..]) + rest;
      WordsRoundTrip(ws[1..], rest);
      assert [ws[0]] + ws[1..] == ws;
    }
  }

  lemma {:induction false} WordsExact(b: Bytes, count: nat)
    requires TakeWords(b, count).Some?
    ensures b == PutWords(TakeWords(b, count).value.0) + TakeWords(b, count).value.1
  {
    if count > 0 {
      WordsExact(b[32..], count - 1);
      var (ws, rest) := TakeWords(b, count).value;
      assert b == b[..32] + b[32..];
    }
  }

  /** Consecutive skipped-key entries of 68 bytes. */
  function PutSkipped(s: seq<SkippedRecord>): (b: Bytes)
    ensures |b| == 68 * |s|
  {
    if s == [] then [] else s[0].public + BigEndian.Encode(s[0].number, 4) + s[0].key + PutSkipped(s[1..])
  }

  function EntryAt(b: Bytes): SkippedRecord
    requires |b| >= 68
  {
    BigEndian.EncodeDecode(b[32..36]);
    BigEndian.Limits();
    SkippedRecord(b[..32], BigEndian.Decode(b[32..36]), b[36..68])
  }

  function TakeSkipped(b: Bytes, count: nat): (r: Option<(seq<SkippedRecord>, Bytes)>)
    ensures r.Some? ==> |r.value.0| == count
  {
    if count == 0 then Some(([], b))
    else if |b| < 68 then None
    else
      match TakeSkipped(b[68..], count - 1)
      case None => None
      case Some((s, rest)) => Some(([EntryAt(b)] + s, rest))
  }

  lemma {:induction false} SkippedRoundTrip(s: seq<SkippedRecord>, rest: Bytes)
    ensures TakeSkipped(PutSkipped(s) + rest, |s|) == Some((s, rest))
  {
    var b := PutSkipped(s) + rest;
    if s == [] {
      assert b == rest;
    } else {
      BigEndian.Limits();
      BigEndian.DecodeEncode(s[0].number, 4);
      assert b[..32] == s[0].public && b[32..36] == BigEndian.Encode(s[0].number, 4) && b[36..68] == s[0].key;
      assert b[68..] == PutSkipped(s[1..]) + rest;
      SkippedRoundTrip(s[1..], rest);
      assert [s[0]] + s[1..] == s;
    }
  }

  lemma {:induction false} SkippedExactBytes(b: Bytes, count: nat)
    requires TakeSkipped(b, count).Some?
    ensures b == PutSkipped(TakeSkipped(b, count).value.0) + TakeSkipped(b, count).value.1
  {
    if count > 0 {
      SkippedExactBytes(b[68..], count - 1);
      var (s, rest) := TakeSkipped(b, count).value;
      BigEndian.EncodeDecode(b[32..36]);
      assert b == b[..32] + b[32..36] + b[36..68] + b[68..];
    }
  }

  // ------------------------------------------------------------------- whole state

  datatype Error = StateUnusable | StateTooLong

  function Flags(r: Record): byte {
    (if r.hasSend then 1 else 0) + (if r.hasReceive then 2 else 0)
  }

  function Fields(r: Record): seq<Word> {
    [r.root, r.selfPrivate, r.selfPublic, r.peerPublic, r.sendChain, r.receiveChain]
  }

  /** Flags, the three counters and the number of skipped keys: 15 bytes after the fields. */
  function Counters(r: Record): (b: Bytes)
    requires |r.skipped| <= Ratchet.MAX_SKIPPED
    ensures |b| == 15
  {
    [Flags(r)] + BigEndian.Encode(r.sendNumber, 4) + BigEndian.Encode(r.receiveNumber, 4)
    + BigEndian.Encode(r.previousSendNumber, 4) + BigEndian.Encode(|r.skipped|, 2)
  }

  function Layout(r: Record): (b: Bytes)
    requires |r.skipped| <= Ratchet.MAX_SKIPPED && |r.seen| <= Ratchet.MAX_SEEN
    ensures |b| == 214 + 68 * |r.skipped| + 32 * |r.seen|
  {
    MAGIC + [1] + (PutWords(Fields(r)) + (Counters(r) + (PutSkipped(r.skipped)
    + SeenBytes(r.seen))))
  }

  /** encodeRatchetState. */
  function Encode(r: Record): Result<Bytes, Error> {
    if |r.skipped| > Ratchet.MAX_SKIPPED || |r.seen| > Ratchet.MAX_SEEN then Err(StateUnusable)
    else
      var encoded := Layout(r.(skipped := Sort(r.skipped)));
      if encoded == [] then Err(StateUnusable)
      else if |encoded| > MAX_STATE_BYTES then Err(StateTooLong)
      else Ok(encoded)
  }

  /** The checks decodeRatchetState makes on the fields it has read.  `publicOf` is X25519's
      scalar multiplication of the base point. */
  ghost predicate Acceptable(r: Record, publicOf: Word -> Word) {
    && Distinct(r.seen)
    && publicOf(r.selfPrivate) == r.selfPublic
    && (!r.hasSend ==> r.sendChain == ZERO)
    && (!r.hasReceive ==> r.receiveChain == ZERO)
    && Distinct(Identities(r.skipped))
  }

  function Identities(skipped: seq<SkippedRecord>): (r: seq<(Word, Uint32)>)
    ensures |r| == |skipped|
  {
    seq(|skipped|, i requires 0 <= i < |skipped| => (skipped[i].public, skipped[i].number))
  }

  function Assemble(w: seq<Word>, c: Bytes, skipped: seq<SkippedRecord>, seen: seq<Word>): Record
    requires |w| == 6 && |c| == 15
  {
    BigEndian.EncodeDecode(c[1..5]);
    BigEndian.EncodeDecode(c[5..9]);
    BigEndian.EncodeDecode(c[9..13]);
    BigEndian.Limits();
    Record(w[0], w[1], w[2], w[3], w[4], w[5], c[0] % 2 == 1, c[0] / 2 == 1,
           BigEndian.Decode(c[1..5]), BigEndian.Decode(c[5..9]), BigEndian.Decode(c[9..13]), skipped, seen)
  }

  /** The seen list, which must use up the input. */
  function ReadSeen(b: Bytes): Option<seq<Word>> {
    if |b| < 2 || BigEndian.Decode(b[..2]) > Ratchet.MAX_SEEN then None
    else
      match TakeWords(b[2..], BigEndian.Decode(b[..2]))
      case None => None
      case Some((seen, left)) => if left == [] then Some(seen) else None
  }

  /** Everything after the six fields. */
  function ReadRest(fields: seq<Word>, b: Bytes): Option<Record>
    requires |fields| == 6
  {
    if |b| < 15 || b[0] > 3 || BigEndian.Decode(b[13..15]) > Ratchet.MAX_SKIPPED then None
    else
      match TakeSkipped(b[15..], BigEndian.Decode(b[13..15]))
      case None => None
      case Some((skipped, tail)) =>
        match ReadSeen(tail)
        case None => None
        case Some(seen) => Some(Assemble(fields, b[..15], skipped, seen))
  }

  /** The reading half of decodeRatchetState: every field present, every bound met, nothing left over. */
  function Read(raw: Bytes): Option<Record> {
    if |raw| < 5 || raw[..4] != MAGIC || raw[4] != 1 then None
    else
      match TakeWords(raw[5..], 6)
      case None => None
      case Some((fields, rest)) => ReadRest(fields, rest)
  }

  /** decodeRatchetState. */
  ghost function Decode(raw: Bytes, publicOf: Word -> Word): Result<Record, Error> {
    if raw == [] then Err(StateUnusable)
    else if |raw| > MAX_STATE_BYTES then Err(StateTooLong)
    else
      match Read(raw)
      case None => Err(StateUnusable)
      case Some(r) => if Acceptable(r, publicOf) then Ok(r) else Err(StateUnusable)
  }

  lemma CountersRoundTrip(r: Record)
    requires |r.skipped| <= Ratchet.MAX_SKIPPED
    ensures var c := Counters(r);
            && c[0] <= 3 && BigEndian.Decode(c[13..15]) == |r.skipped|
            && Assemble(Fields(r), c, r.skipped, r.seen) == r
  {
    var c := Counters(r);
    BigEndian.Limits();
    BigEndian.DecodeEncode(r.sendNumber, 4);
    BigEndian.DecodeEncode(r.receiveNumber, 4);
    BigEndian.DecodeEncode(r.previousSendNumber, 4);
    BigEndian.DecodeEncode(|r.skipped|, 2);
    CounterSlices([Flags(r)], BigEndian.Encode(r.sendNumber, 4), BigEndian.Encode(r.receiveNumber, 4),
                  BigEndian.Encode(r.previousSendNumber, 4), BigEndian.Encode(|r.skipped|, 2));
  }

  lemma CounterSlices(flags: Bytes, send: Bytes, receive: Bytes, previous: Bytes, skipped: Bytes)
    requires |flags| == 1 && |send| == 4 && |receive| == 4 && |previous| == 4 && |skipped| == 2
    ensures var c := flags + send + receive + previous + skipped;
            c[0] == flags[0] && c[1..5] == send && c[5..9] == receive && c[9..13] == previous && c[13..15] == skipped
  {
  }

  function SeenBytes(seen: seq<Word>): Bytes {
    BigEndian.Encode(|seen|, 2) + PutWords(seen)
  }

  lemma ReadSeenBytes(seen: seq<Word>)
    requires |seen| <= Ratchet.MAX_SEEN
    ensures ReadSeen(SeenBytes(seen)) == Some(seen)
  {
    var n := BigEndian.Encode(|seen|, 2);
    assert SeenBytes(seen)[..2] == n && SeenBytes(seen)[2..] == PutWords(seen) + [];
    BigEndian.Limits();
    BigEndian.DecodeEncode(|seen|, 2);
    WordsRoundTrip(seen, []);
  }

  lemma ReadRestBytes(r: Record)
    requires |r.skipped| <= Ratchet.MAX_SKIPPED && |r.seen| <= Ratchet.MAX_SEEN
    ensures ReadRest(Fields(r), Counters(r) + (PutSkipped(r.skipped) + SeenBytes(r.seen))) == Some(r)
  {
    var c, tail := Counters(r), SeenBytes(r.seen);
    var rest := c + (PutSkipped(r.skipped) + tail);
    assert rest[..15] == c && rest[13..15] == c[13..15] && rest[15..] == PutSkipped(r.skipped) + tail;
    CountersRoundTrip(r);
    SkippedRoundTrip(r.skipped, tail);
    ReadSeenBytes(r.seen);
  }

  lemma ReadLayout(r: Record)
    requires |r.skipped| <= Ratchet.MAX_SKIPPED && |r.seen| <= Ratchet.MAX_SEEN
    ensures Read(Layout(r)) == Some(r)
  {
    var raw := Layout(r);
    var rest := Counters(r) + (PutSkipped(r.skipped) + SeenBytes(r.seen));
    assert raw[..4] == MAGIC && raw[4] == 1 && raw[5..] == PutWords(Fields(r)) + rest;
    WordsRoundTrip(Fields(r), rest);
    ReadRestBytes(r);
  }

  lemma CountersExact(w: seq<Word>, c: Bytes, skipped: seq<SkippedRecord>, seen: seq<Word>)
    requires |w| == 6 && |c| == 15 && c[0] <= 3 && |skipped| == BigEndian.Decode(c[13..15]) <= Ratchet.MAX_SKIPPED
    ensures Fields(Assemble(w, c, skipped, seen)) == w
    ensures Counters(Assemble(w, c, skipped, seen)) == c
  {
    BigEndian.EncodeDecode(c[1..5]);
    BigEndian.EncodeDecode(c[5..9]);
    BigEndian.EncodeDecode(c[9..13]);
    BigEndian.EncodeDecode(c[13..15]);
    assert c == [c[0]] + c[1..5] + c[5..9] + c[9..13] + c[13..15];
  }

  lemma SeenBytesRead(b: Bytes)
    requires ReadSeen(b).Some?
    ensures |ReadSeen(b).value| <= Ratchet.MAX_SEEN && SeenBytes(ReadSeen(b).value) == b
  {
    WordsExact(b[2..], BigEndian.Decode(b[..2]));
    BigEndian.EncodeDecode(b[..2]);
    assert b == b[..2] + b[2..];
  }

  lemma RestBytesRead(fields: seq<Word>, b: Bytes)
    requires |fields| == 6 && ReadRest(fields, b).Some?
    ensures var r := ReadRest(fields, b).value;
            && |r.skipped| <= Ratchet.MAX_SKIPPED && |r.seen| <= Ratchet.MAX_SEEN && Fields(r) == fields
            && Counters(r) + (PutSkipped(r.skipped) + SeenBytes(r.seen)) == b
  {
    var count := BigEndian.Decode(b[13..15]);
    var (skipped, tail) := TakeSkipped(b[15..], count).value;
    SkippedExactBytes(b[15..], count);
    SeenBytesRead(tail);
    assert b[..15][13..15] == b[13..15];
    CountersExact(fields, b[..15], skipped, ReadSeen(tail).value);
    assert b == b[..15] + b[15..];
  }

  lemma LayoutRead(raw: Bytes)
    requires Read(raw).Some?
    ensures var r := Read(raw).value;
            |r.skipped| <= Ratchet.MAX_SKIPPED && |r.seen| <= Ratchet.MAX_SEEN && Layout(r) == raw
  {
    var (fields, rest) := TakeWords(raw[5..], 6).value;
    WordsExact(raw[5..], 6);
    RestBytesRead(fields, rest);
    assert raw == MAGIC + [1] + raw[5..];
  }

  // ---------------------------------------------------------------- main results

  /** Storing and loading gives the state back with its skipped keys sorted, exactly when the
      decoder's checks accept it; the size bound is never what refuses it. */
  lemma StoreLoad(r: Record, publicOf: Word -> Word)
    requires |r.skipped| <= Ratchet.MAX_SKIPPED && |r.seen| <= Ratchet.MAX_SEEN
    ensures Encode(r).Ok? && |Encode(r).value| <= MAX_STATE_BYTES
    ensures var sorted := r.(skipped := Sort(r.skipped));
            Decode(Encode(r).value, publicOf) == if Acceptable(sorted, publicOf) then Ok(sorted) else Err(StateUnusable)
    ensures Sorted(Sort(r.skipped)) && multiset(Sort(r.skipped)) == multiset(r.skipped)
  {
    ReadLayout(r.(skipped := Sort(r.skipped)));
    SortSorts(r.skipped);
    SortPermutes(x => x, r.skipped);
  }

  /** Whatever the decoder accepts encodes again to the same bytes if and only if those bytes
      listed the skipped keys in order; in particular encoder output is a fixed point. */
  lemma LoadStore(raw: Bytes, publicOf: Word -> Word)
    requires Decode(raw, publicOf).Ok?
    ensures var r := Decode(raw, publicOf).value;
            Encode(r).Ok? && (Encode(r) == Ok(raw) <==> Sorted(r.skipped))
  {
    LayoutRead(raw);
    var r := Decode(raw, publicOf).value;
    SortSorts(r.skipped);
    var again := r.(skipped := Sort(r.skipped));
    if Sorted(r.skipped) {
      SortFixed(r.skipped);
      assert again == r;
    } else {
      ReadLayout(again);
      ReadLayout(r);
    }
  }

  // -------------------------------------------------------------- the coding loops

  /** The encoder's loops append one entry at a time to the buffer. */
  method AppendSkipped(buffer: Bytes, skipped: seq<SkippedRecord>) returns (encoded: Bytes)
    ensures encoded == buffer + PutSkipped(skipped)
  {
    encoded := buffer;
    for i := 0 to |skipped|
      invariant encoded + PutSkipped(skipped[i..]) == buffer + PutSkipped(skipped)
    {
      var entry := skipped[i].public + BigEndian.Encode(skipped[i].number, 4) + skipped[i].key;
      assert skipped[i..][1..] == skipped[i + 1..];
      assert encoded + PutSkipped(skipped[i..]) == (encoded + entry) + PutSkipped(skipped[i + 1..]);
      encoded := encoded + entry;
    }
  }

  method AppendWords(buffer: Bytes, words: seq<Word>) returns (encoded: Bytes)
    ensures encoded == buffer + PutWords(words)
  {
    encoded := buffer;
    for i := 0 to |words|
      invariant encoded + PutWords(words[i..]) == buffer + PutWords(words)
    {
      assert words[i..][1..] == words[i + 1..];
      assert encoded + PutWords(words[i..]) == (encoded + words[i]) + PutWords(words[i + 1..]);
      encoded := encoded + words[i];
    }
  }

  method EncodeState(r: Record) returns (out: Result<Bytes, Error>)
    ensures out == Encode(r)
  {
    if |r.skipped| > Ratchet.MAX_SKIPPED || |r.seen| > Ratchet.MAX_SEEN { return Err(StateUnusable); }
    var sorted := r.(skipped := Sort(r.skipped));
    var encoded := AppendWords(MAGIC + [1], Fields(r));
    encoded := AppendSkipped(encoded + Counters(sorted), sorted.skipped);
    encoded := AppendWords(encoded + BigEndian.Encode(|r.seen|, 2), r.seen);
    assert encoded == Layout(sorted);
    if encoded == [] { return Err(StateUnusable); }
    if |encoded| > MAX_STATE_BYTES { return Err(StateTooLong); }
    out := Ok(encoded);
  }

  method ReadWords(b: Bytes, count: nat) returns (r: Option<(seq<Word>, Bytes)>)
    ensures r == TakeWords(b, count)
  {
    var words: seq<Word>, rest := [], b;
    PrependedEmpty(TakeWords(b, count));
    for i := 0 to count
      invariant TakeWords(b, count) == Prepended(words, TakeWords(rest, count - i))
    {
      if |rest| < 32 { return None; }
      PrependedAgain(words, [rest[..32]], TakeWords(rest[32..], count - i - 1));
      words, rest := words + [rest[..32]], rest[32..];
    }
    assert words + [] == words;
    r := Some((words, rest));
  }

  method ReadSkipped(b: Bytes, count: nat) returns (r: Option<(seq<SkippedRecord>, Bytes)>)
    ensures r == TakeSkipped(b, count)
  {
    var entries: seq<SkippedRecord>, rest := [], b;
    PrependedEmpty(TakeSkipped(b, count));
    for i := 0 to count
      invariant TakeSkipped(b, count) == Prepended(entries, TakeSkipped(rest, count - i))
    {
      if |rest| < 68 { return None; }
      PrependedAgain(entries, [EntryAt(rest)], TakeSkipped(rest[68..], count - i - 1));
      entries, rest := entries + [EntryAt(rest)], rest[68..];
    }
    assert entries + [] == entries;
    r := Some((entries, rest));
  }

  method DecodeState(raw: Bytes, publicOf: Word -> Word) returns (out: Result<Record, Error>)
    ensures out == Decode(raw, publicOf)
  {
    if raw == [] { return Err(StateUnusable); }
    if |raw| > MAX_STATE_BYTES { return Err(StateTooLong); }
    if |raw| < 5 || raw[..4] != MAGIC || raw[4] != 1 { return Err(StateUnusable); }
    var fields := ReadWords(raw[5..], 6);
    if fields.None? { return Err(StateUnusable); }
    var rest := fields.value.1;
    if |rest| < 15 || rest[0] > 3 || BigEndian.Decode(rest[13..15]) > Ratchet.MAX_SKIPPED { return Err(StateUnusable); }
    var skipped := ReadSkipped(rest[15..], BigEndian.Decode(rest[13..15]));
    if skipped.None? { return Err(StateUnusable); }
    var tail := skipped.value.1;
    if |tail| < 2 || BigEndian.Decode(tail[..2]) > Ratchet.MAX_SEEN { return Err(StateUnusable); }
    var seen := ReadWords(tail[2..], BigEndian.Decode(tail[..2]));
    if seen.None? || seen.value.1 != [] { return Err(StateUnusable); }
    var r := Assemble(fields.value.0, rest[..15], skipped.value.0, seen.value.0);
    var distinct := AllDistinct(r.seen);
    if !distinct || publicOf(r.selfPrivate) != r.selfPublic { return Err(StateUnusable); }
    if (!r.hasSend && r.sendChain != ZERO) || (!r.hasReceive && r.receiveChain != ZERO) { return Err(StateUnusable); }
    distinct := AllDistinct(Identities(r.skipped));
    out := if distinct then Ok(r) else Err(StateUnusable);
  }

  // ------------------------------------------------------------------ message header

  datatype WireHeader = WireHeader(public: Word, previousNumber: Uint32, number: Uint32)

  function EncodeHeader(h: WireHeader): (b: Bytes)
    ensures |b| == HEADER_BYTES
  {
    [1] + h.public + BigEndian.Encode(h.previousNumber, 4) + BigEndian.Encode(h.number, 4)
  }

  function DecodeHeader(ciphertext: Bytes): Option<(WireHeader, Bytes)> {
    if |ciphertext| < HEADER_BYTES + 16 || ciphertext[0] != 1 then None
    else
      BigEndian.EncodeDecode(ciphertext[33..37]);
      BigEndian.EncodeDecode(ciphertext[37..41]);
      BigEndian.Limits();
      Some((WireHeader(ciphertext[1..33], BigEndian.Decode(ciphertext[33..37]), BigEndian.Decode(ciphertext[37..41])),
            ciphertext[HEADER_BYTES..]))
  }

  /** Header parsing and printing are inverse in both directions. */
  lemma HeaderRoundTrip(h: WireHeader, body: Bytes)
    ensures DecodeHeader(EncodeHeader(h) + body) == if |body| >= 16 then Some((h, body)) else None
  {
    var c := EncodeHeader(h) + body;
    BigEndian.Limits();
    BigEndian.DecodeEncode(h.previousNumber, 4);
    BigEndian.DecodeEncode(h.number, 4);
    assert c[1..33] == h.public && c[33..37] == BigEndian.Encode(h.previousNumber, 4);
    assert c[37..41] == BigEndian.Encode(h.number, 4) && c[HEADER_BYTES..] == body;
  }

  lemma HeaderExact(ciphertext: Bytes)
    requires DecodeHeader(ciphertext).Some?
    ensures var (h, body) := DecodeHeader(ciphertext).value; EncodeHeader(h) + body == ciphertext
  {
    BigEndian.EncodeDecode(ciphertext[33..37]);
    BigEndian.EncodeDecode(ciphertext[37..41]);
    assert ciphertext == [ciphertext[0]] + ciphertext[1..33] + ciphertext[33..37] + ciphertext[37..41] + ciphertext[41..];
  }
}
