/** The loops of attachments.go and the mutable SealState of stream.go, proved equal to the
    functions of Sealing. */
module SealingMachine {
  import opened Foundation
  import opened AttachmentLimits
  import opened Digests
  import opened StoreModel
  import opened Sealing
  import opened SealingLaws

  /** The batch form. */
  method Seal(p: Primitives, m: Material, metadata: Metadata, plaintext: Bytes)
    returns (r: Option<(Reference, seq<Chunk>)>)
    ensures r == if Sealable(p, m, metadata, plaintext)
                 then Some(Sealed(p, Shape(m, metadata, |plaintext|, DEFAULT_CHUNK_BYTES), plaintext)) else None
  {
    if |plaintext| == 0 || |plaintext| > MAX_PLAINTEXT_BYTES || !ValidMetadata(p, metadata) {
      return None;
    }
    if metadata.plaintextDigest.Some? && metadata.plaintextDigest.value != Sha256(plaintext) {
      return None;
    }
    if !Usable(m) {
      return None;
    }
    var s := Shape(m, metadata, |plaintext|, DEFAULT_CHUNK_BYTES);
    var count := ChunkCount(s);
    DefaultCount(|plaintext|);
    var chunks: seq<Chunk> := [];
    var digests: seq<Digest> := [];
    ghost var pieces := Pieces(plaintext, s.size, count);
    for index := 0 to count
      invariant |chunks| == |digests| == index
      invariant chunks == SealChunks(p, s, pieces)[..index]
      invariant digests == DigestsOf(chunks)
    {
      PieceLength(plaintext, s.size, index);
      var start := index * DEFAULT_CHUNK_BYTES;
      var end := start + DEFAULT_CHUNK_BYTES;
      if end > |plaintext| {
        end := |plaintext|;
      }
      var chunk := SealChunk(p, s, index, plaintext[start..end]);
      assert plaintext[start..end] == pieces[index];
      chunks := chunks + [chunk];
      digests := digests + [chunk.digest];
    }
    assert SealChunks(p, s, pieces)[..count] == SealChunks(p, s, pieces);
    var reference := MakeReference(p, s, digests);
    if !ValidReference(p, reference) {
      BatchReferenceValid(p, s, plaintext);
      assert false;
    }
    r := Some((reference, chunks));
  }

  lemma BatchReferenceValid(p: Primitives, s: Shape, plaintext: Bytes)
    requires ValidShape(p, s) && |plaintext| == s.total && ChunkCount(s) <= MAX_CHUNKS
    ensures ValidReference(p, Sealed(p, s, plaintext).0)
  {
    SealValid(p, s, Pieces(plaintext, s.size, ChunkCount(s)));
    CountBounds(s.total, s.size);
  }

  lemma OpenStep(p: Primitives, r: Reference, chunks: seq<Chunk>, i: nat)
    requires i < |chunks| == |r.manifest.chunkDigests| < UINT32_LIMIT
    ensures OpenChunks(p, r, |chunks|, chunks[..i + 1]) ==
            match OpenChunks(p, r, |chunks|, chunks[..i])
            case None => None
            case Some(before) =>
              match OpenChunk(p, r, |chunks|, i, chunks[i])
              case None => None
              case Some(piece) => Some(before + piece)
  {
    assert chunks[..i + 1][..i] == chunks[..i];
  }

  lemma {:induction false} OpenStops(p: Primitives, r: Reference, chunks: seq<Chunk>, i: nat)
    requires i <= |chunks| == |r.manifest.chunkDigests| < UINT32_LIMIT
    requires OpenChunks(p, r, |chunks|, chunks[..i]).None?
    ensures OpenChunks(p, r, |chunks|, chunks).None?
    decreases |chunks| - i
  {
    if i < |chunks| {
      OpenStep(p, r, chunks, i);
      OpenStops(p, r, chunks, i + 1);
    } else {
      assert chunks[..i] == chunks;
    }
  }

  /** Every chunk is checked and opened before any plaintext is returned. */
  method OpenAttachment(p: Primitives, r: Reference, chunks: seq<Chunk>, policy: Policy, now: int)
    returns (result: Option<Bytes>)
    ensures result == Open(p, r, chunks, policy, now)
  {
    if !ValidReference(p, r) || !Permits(policy, r, now) || |chunks| != |r.manifest.chunkDigests| {
      return None;
    }
    var plaintext: Bytes := [];
    for index := 0 to |chunks|
      invariant OpenChunks(p, r, |chunks|, chunks[..index]) == Some(plaintext)
    {
      OpenStep(p, r, chunks, index);
      var piece := OpenChunk(p, r, |chunks|, index, chunks[index]);
      if piece.None? {
        OpenStops(p, r, chunks, index + 1);
        return None;
      }
      plaintext := plaintext + piece.value;
    }
    assert chunks[..|chunks|] == chunks;
    if |plaintext| != r.manifest.plaintextBytes {
      return None;
    }
    if r.metadata.plaintextDigest.Some? && Sha256(plaintext) != r.metadata.plaintextDigest.value {
      return None;
    }
    result := Some(plaintext);
  }

  /** The restartable state of one streaming sealing. */
  class SealState {
    var key: Bytes
    var id: Bytes
    var prefix: Bytes
    var metadata: Metadata
    var plaintextBytes: Uint64
    var chunkBytes: Uint32
    var digests: seq<Digest>

    function Value(): Stream
      reads this
    {
      Stream(Shape(Material(key, id, prefix), metadata, plaintextBytes, chunkBytes), digests)
    }

    constructor (st: Stream)
      ensures Value() == st
    {
      key, id, prefix := st.shape.material.key, st.shape.material.id, st.shape.material.prefix;
      metadata, plaintextBytes, chunkBytes := st.shape.metadata, st.shape.total, st.shape.size;
      digests := st.digests;
    }

    method Validate(p: Primitives, complete: bool) returns (ok: bool)
      ensures ok <==> ValidStream(p, Value(), complete)
    {
      var st := Value();
      if !ValidShape(p, st.shape) {
        return false;
      }
      if |digests| > ChunkCount(st.shape) || (complete && |digests| != ChunkCount(st.shape)) {
        return false;
      }
      for i := 0 to |digests|
        invariant forall j :: 0 <= j < i ==> ValidDigest(digests[j])
      {
        if !ValidDigest(digests[i]) {
          assert digests[i] in digests;
          return false;
        }
      }
      ok := AllDistinct(digests);
    }

    /** Seal exactly the next piece; nothing changes unless a chunk is produced. */
    method Next(p: Primitives, piece: Bytes) returns (r: Option<Chunk>)
      modifies this
      ensures var next := SealNext(p, old(Value()), piece);
              if next.None? then r == None && Value() == old(Value())
              else r == Some(next.value.1) && Value() == next.value.0
    {
      var ok := Validate(p, false);
      if !ok {
        return None;
      }
      var shape := Value().shape;
      var index, count := |digests|, ChunkCount(shape);
      if index >= count {
        return None;
      }
      var want: int := chunkBytes;
      if index == count - 1 {
        want := plaintextBytes - index * chunkBytes;
      }
      if |piece| != want {
        return None;
      }
      var chunk := SealChunk(p, shape, index, piece);
      var i := 0;
      while i < |digests|
        invariant 0 <= i <= |digests| && chunk.digest !in digests[..i]
      {
        if digests[i] == chunk.digest {
          return None;
        }
        i := i + 1;
      }
      assert digests[..|digests|] == digests;
      digests := digests + [chunk.digest];
      r := Some(chunk);
    }

    method MakeReference(p: Primitives) returns (r: Option<Reference>)
      ensures r == StreamReference(p, Value())
    {
      var ok := Validate(p, true);
      if !ok {
        return None;
      }
      var reference := Sealing.MakeReference(p, Value().shape, digests);
      r := if ValidReference(p, reference) then Some(reference) else None;
    }

    /** A cleared state seals nothing and yields no reference. */
    method Clear(ghost p: Primitives)
      modifies this
      ensures !ValidStream(p, Value(), false)
      ensures digests == old(digests)
    {
      key, id, prefix := [], [], [];
    }
  }
}
