/** The chunk file of an outbound transaction, byte by byte (pkg/attachmentops/emitter.go): the
    marshalled hash state behind a length, then the ciphertext. */
module ChunkRecord {
  import opened Foundation
  import opened AttachmentLimits
  import BigEndian
  import opened Canon

  const MAX_HASH_STATE: nat := 256

  function Encode(hash: Bytes, ciphertext: Bytes): Bytes {
    Size(|hash|, 4) + (hash + ciphertext)
  }

  function Decode(record: Bytes): Option<(Bytes, Bytes)> {
    if |record| < 4 + 1 + TAG_BYTES then None
    else
      var (length, rest) := TakeNumber(record, 4).value;
      if length < 1 || length > MAX_HASH_STATE || 4 + length + TAG_BYTES > |record| then None
      else Some((rest[..length], rest[length..]))
  }

  /** Decoding undoes encoding exactly for the records an emitter writes, and refuses the rest. */
  lemma RecordRoundTrip(hash: Bytes, ciphertext: Bytes)
    requires |hash| < UINT32_LIMIT
    ensures Decode(Encode(hash, ciphertext)) ==
            if 1 <= |hash| <= MAX_HASH_STATE && |ciphertext| >= TAG_BYTES then Some((hash, ciphertext)) else None
  {
    BigEndian.Limits();
    SizeRoundTrip(|hash|, 4, hash + ciphertext);
    assert (hash + ciphertext)[..|hash|] == hash && (hash + ciphertext)[|hash|..] == ciphertext;
  }

  /** Whatever decodes is exactly the encoding of what it decodes to. */
  lemma RecordExact(record: Bytes)
    requires Decode(record).Some?
    ensures var (hash, ciphertext) := Decode(record).value;
            record == Encode(hash, ciphertext) && 1 <= |hash| <= MAX_HASH_STATE && |ciphertext| >= TAG_BYTES
  {
    SizeExact(record, 4);
    var (length, rest) := TakeNumber(record, 4).value;
    assert rest == rest[..length] + rest[length..];
  }

  /** A record cut short by a crash never passes: it does not decode, or its ciphertext is shorter
      than the one that was being written, and so not of the length its piece wants. */
  lemma TornRecord(hash: Bytes, ciphertext: Bytes, n: nat)
    requires 1 <= |hash| <= MAX_HASH_STATE && n < |Encode(hash, ciphertext)|
    ensures var cut := Decode(Encode(hash, ciphertext)[..n]);
            cut.Some? ==> cut.value.0 == hash && cut.value.1 < ciphertext
  {
    var whole := Encode(hash, ciphertext);
    var record := whole[..n];
    if Decode(record).Some? {
      RecordExact(record);
      var (h, t) := Decode(record).value;
      BigEndian.Limits();
      SizeRoundTrip(|hash|, 4, hash + ciphertext);
      SizeRoundTrip(|h|, 4, h + t);
      assert record[..4] == whole[..4] && TakeNumber(record, 4).value.0 == TakeNumber(whole, 4).value.0;
      assert whole[4..4 + |hash|] == hash && whole[4 + |hash|..] == ciphertext;
      assert record[4..4 + |h|] == h && record[4 + |h|..] == t;
    }
  }
}
