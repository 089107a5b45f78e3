/** Sealing and opening are inverse, opening is sound against any chunk list, and the streaming
    form agrees with the batch form. */
module SealingLaws {
  import opened Foundation
  import opened AttachmentLimits
  import opened Digests
  import opened StoreModel
  import opened Sealing
  import BigEndian

  // -------------------------------------------------------------------- seal, then open

  /** A reference and chunks made by sealing `plaintext`. */
  ghost predicate MadeFrom(p: Primitives, s: Shape, plaintext: Bytes) {
    Lawful(p) && ValidShape(p, s) && |plaintext| == s.total
  }

  lemma ChunkOpens(p: Primitives, s: Shape, plaintext: Bytes, i: Uint32)
    requires MadeFrom(p, s, plaintext) && i < ChunkCount(s)
    ensures var (r, cs) := Sealed(p, s, plaintext);
            OpenChunk(p, r, ChunkCount(s), i, cs[i]) == Some(Piece(plaintext, s.size, i))
  {
    PieceLength(plaintext, s.size, i);
    var (r, cs) := Sealed(p, s, plaintext);
    assert cs[i] == SealChunk(p, s, i, Piece(plaintext, s.size, i));
    assert r.manifest.chunkDigests[i] == cs[i].digest;
  }

  lemma JoinPiece(plaintext: Bytes, size: nat, i: nat)
    requires size > 0 && i < Count(|plaintext|, size)
    ensures plaintext[..Min(i * size, |plaintext|)] + Piece(plaintext, size, i)
         == plaintext[..Min((i + 1) * size, |plaintext|)]
  {
    PieceLength(plaintext, size, i);
    assert (i + 1) * size == i * size + size;
  }

  lemma {:induction false} PrefixOpens(p: Primitives, s: Shape, plaintext: Bytes, n: nat)
    requires MadeFrom(p, s, plaintext) && n <= ChunkCount(s)
    ensures var (r, cs) := Sealed(p, s, plaintext);
            OpenChunks(p, r, ChunkCount(s), cs[..n]) == Some(plaintext[..Min(n * s.size, |plaintext|)])
  {
    var (r, cs) := Sealed(p, s, plaintext);
    if n == 0 {
      assert cs[..0] == [] && plaintext[..0] == [];
    } else {
      PrefixOpens(p, s, plaintext, n - 1);
      ChunkOpens(p, s, plaintext, n - 1);
      JoinPiece(plaintext, s.size, n - 1);
      assert cs[..n][..n - 1] == cs[..n - 1];
    }
  }

  /** The reference is refused only for too many chunks, and opening the sealed chunks under a
      permitting policy gives the plaintext back. */
  lemma SealedOpens(p: Primitives, s: Shape, plaintext: Bytes, policy: Policy, now: int)
    requires MadeFrom(p, s, plaintext)
    ensures var (r, cs) := Sealed(p, s, plaintext);
            && (ValidReference(p, r) <==> ChunkCount(s) <= MAX_CHUNKS)
            && Open(p, r, cs, policy, now) ==
               if ChunkCount(s) <= MAX_CHUNKS && Permits(policy, r, now) && DeclaredDigest(s.metadata, plaintext)
               then Some(plaintext) else None
  {
    var (r, cs) := Sealed(p, s, plaintext);
    PrefixOpens(p, s, plaintext, ChunkCount(s));
    CountBounds(|plaintext|, s.size);
    assert cs[..ChunkCount(s)] == cs;
    assert plaintext[..|plaintext|] == plaintext;
  }

  // -------------------------------------------------------------- any chunks at all

  lemma {:induction false} OpenedEach(p: Primitives, r: Reference, count: Uint32, chunks: seq<Chunk>, i: nat)
    requires i < |chunks| <= |r.manifest.chunkDigests| < UINT32_LIMIT
    requires OpenChunks(p, r, count, chunks).Some?
    ensures OpenChunk(p, r, count, i, chunks[i]).Some?
  {
    if i < |chunks| - 1 {
      OpenedEach(p, r, count, chunks[..|chunks| - 1], i);
    }
  }

  /** For a reference made by sealing and any chunk list whatever, opening succeeds exactly for
      the sealed chunks in order, and then it yields that same plaintext. */
  lemma OpenExactly(p: Primitives, s: Shape, plaintext: Bytes, chunks: seq<Chunk>, policy: Policy, now: int)
    requires MadeFrom(p, s, plaintext)
    ensures var (r, cs) := Sealed(p, s, plaintext);
            Open(p, r, chunks, policy, now) ==
            if chunks == cs && ChunkCount(s) <= MAX_CHUNKS && Permits(policy, r, now) && DeclaredDigest(s.metadata, plaintext)
            then Some(plaintext) else None
  {
    var (r, cs) := Sealed(p, s, plaintext);
    SealedOpens(p, s, plaintext, policy, now);
    if Open(p, r, chunks, policy, now).Some? {
      forall i | 0 <= i < |chunks| ensures chunks[i] == cs[i] {
        OpenedEach(p, r, |chunks|, chunks, i);
        assert r.manifest.chunkDigests[i] == cs[i].digest == Sha256(cs[i].ciphertext);
      }
      assert chunks == cs;
    }
  }

  /** The batch form at its default chunk size: whatever it accepts opens to itself, and its own
      closing check never refuses. */
  lemma SealThenOpen(p: Primitives, m: Material, metadata: Metadata, plaintext: Bytes, policy: Policy, now: int)
    requires Lawful(p) && Sealable(p, m, metadata, plaintext)
    ensures var s := Shape(m, metadata, |plaintext|, DEFAULT_CHUNK_BYTES);
            var (r, cs) := Sealed(p, s, plaintext);
            && ValidReference(p, r)
            && (Permits(policy, r, now) ==> Open(p, r, cs, policy, now) == Some(plaintext))
  {
    DefaultCount(|plaintext|);
    SealedOpens(p, Shape(m, metadata, |plaintext|, DEFAULT_CHUNK_BYTES), plaintext, policy, now);
  }

  /** No chunk of an attachment is sealed under the nonce of another. */
  lemma NoncesDistinct(prefix: Bytes, i: nat, j: nat)
    requires i < UINT64_LIMIT && j < UINT64_LIMIT && Nonce(prefix, i) == Nonce(prefix, j)
    ensures i == j
  {
    assert Nonce(prefix, i)[|prefix|..] == BigEndian.Encode(i, 8);
    assert Nonce(prefix, j)[|prefix|..] == BigEndian.Encode(j, 8);
    BigEndian.Limits();
    BigEndian.EncodeInjective(i, j, 8);
  }

  // ------------------------------------------------------------------------ streaming

  /** What the streaming form accepts, stated on the pieces alone. */
  ghost predicate Accepted(p: Primitives, s: Shape, pieces: seq<Bytes>)
    requires ValidShape(p, s)
  {
    var holds :=
      && |pieces| <= ChunkCount(s)
      && (forall i :: 0 <= i < |pieces| ==> |pieces[i]| == Wanted(s, i))
      && Distinct(DigestsOf(SealChunks(p, s, pieces)));
    holds
  }

  lemma SealSnoc(p: Primitives, s: Shape, pieces: seq<Bytes>)
    requires ValidShape(p, s) && 0 < |pieces| <= ChunkCount(s)
    ensures var n := |pieces| - 1; var c := SealChunk(p, s, n, pieces[n]);
            && SealChunks(p, s, pieces) == SealChunks(p, s, pieces[..n]) + [c]
            && DigestsOf(SealChunks(p, s, pieces)) == DigestsOf(SealChunks(p, s, pieces[..n])) + [c.digest]
  {
  }

  lemma SealValid(p: Primitives, s: Shape, pieces: seq<Bytes>)
    requires ValidShape(p, s) && |pieces| <= ChunkCount(s)
    ensures AllValid(DigestsOf(SealChunks(p, s, pieces)))
  {
  }

  lemma AcceptedSnoc(p: Primitives, s: Shape, front: seq<Bytes>, piece: Bytes)
    requires ValidShape(p, s) && |front| < ChunkCount(s)
    ensures Accepted(p, s, front + [piece]) <==>
            && Accepted(p, s, front) && |piece| == Wanted(s, |front|)
            && SealChunk(p, s, |front|, piece).digest !in DigestsOf(SealChunks(p, s, front))
  {
    var pieces := front + [piece];
    assert pieces[..|front|] == front && pieces[|front|] == piece;
    SealSnoc(p, s, pieces);
    DistinctSnoc(DigestsOf(SealChunks(p, s, front)), SealChunk(p, s, |front|, piece).digest);
    assert forall i :: 0 <= i < |front| ==> |front[i]| == |pieces[i]|;
  }

  /** Feeding a new stream succeeds exactly for accepted pieces, and gives the batch chunks. */
  lemma {:induction false} FeedExact(p: Primitives, s: Shape, pieces: seq<Bytes>)
    requires ValidShape(p, s)
    ensures Feed(p, Stream(s, []), pieces) ==
            if Accepted(p, s, pieces)
            then Some((Stream(s, DigestsOf(SealChunks(p, s, pieces))), SealChunks(p, s, pieces))) else None
  {
    if pieces == [] {
      assert SealChunks(p, s, pieces) == [] && DigestsOf([]) == [];
    } else {
      var n := |pieces| - 1;
      var front := pieces[..n];
      FeedExact(p, s, front);
      if n < ChunkCount(s) {
        AcceptedSnoc(p, s, front, pieces[n]);
        assert pieces == front + [pieces[n]];
        SealSnoc(p, s, pieces);
        SealValid(p, s, front);
      }
    }
  }

  lemma PiecesWanted(s: Shape, plaintext: Bytes)
    requires 0 < s.size && |plaintext| == s.total <= MAX_PLAINTEXT_BYTES
    ensures var ps := Pieces(plaintext, s.size, ChunkCount(s));
            forall i :: 0 <= i < |ps| ==> |ps[i]| == Wanted(s, i)
  {
    var ps := Pieces(plaintext, s.size, ChunkCount(s));
    forall i | 0 <= i < |ps| ensures |ps[i]| == Wanted(s, i) {
      PieceLength(plaintext, s.size, i);
    }
  }

  /** Feeding the pieces of a plaintext gives exactly the batch chunks and reference, unless two
      of the batch's ciphertexts coincide: SealNext refuses a repeated digest, Seal does not. */
  lemma StreamRefinesBatch(p: Primitives, s: Shape, plaintext: Bytes)
    requires ValidShape(p, s) && |plaintext| == s.total
    ensures var (r, cs) := Sealed(p, s, plaintext);
            var st := Stream(s, DigestsOf(cs));
            && Feed(p, Stream(s, []), Pieces(plaintext, s.size, ChunkCount(s))) ==
               (if Distinct(DigestsOf(cs)) then Some((st, cs)) else None)
            && (Distinct(DigestsOf(cs)) ==>
                  StreamReference(p, st) == if ChunkCount(s) <= MAX_CHUNKS then Some(r) else None)
  {
    var pieces := Pieces(plaintext, s.size, ChunkCount(s));
    PiecesWanted(s, plaintext);
    FeedExact(p, s, pieces);
    SealValid(p, s, pieces);
  }

  // ----------------------------------------------------- every finished stream is a batch

  lemma {:induction false} ConcatAt(pieces: seq<Bytes>, size: nat, k: nat)
    requires k < |pieces| && forall i :: 0 <= i < |pieces| - 1 ==> |pieces[i]| == size
    ensures |Concat(pieces)| == (|pieces| - 1) * size + |pieces[|pieces| - 1]|
    ensures k * size + |pieces[k]| <= |Concat(pieces)|
    ensures Concat(pieces)[k * size..k * size + |pieces[k]|] == pieces[k]
    decreases |pieces|
  {
    var n := |pieces| - 1;
    var front := pieces[..n];
    if n > 0 {
      ConcatAt(front, size, if k < n then k else 0);
      assert n * size == (n - 1) * size + size;
    }
  }

  lemma PiecesOfConcat(s: Shape, pieces: seq<Bytes>)
    requires 0 < s.size && 0 < s.total <= MAX_PLAINTEXT_BYTES && |pieces| == ChunkCount(s)
    requires forall i :: 0 <= i < |pieces| ==> |pieces[i]| == Wanted(s, i)
    ensures |Concat(pieces)| == s.total
    ensures Pieces(Concat(pieces), s.size, |pieces|) == pieces
  {
    var n := |pieces|;
    CountBounds(s.total, s.size);
    ConcatAt(pieces, s.size, 0);
    forall i | 0 <= i < n ensures Piece(Concat(pieces), s.size, i) == pieces[i] {
      ConcatAt(pieces, s.size, i);
      PieceLength(Concat(pieces), s.size, i);
    }
  }

  /** Cutting a plaintext into pieces and joining them gives it back. */
  lemma {:induction false} ConcatOfPieces(plaintext: Bytes, size: nat, n: nat)
    requires size > 0 && n <= Count(|plaintext|, size)
    ensures Concat(Pieces(plaintext, size, n)) == plaintext[..Min(n * size, |plaintext|)]
  {
    if n > 0 {
      ConcatOfPieces(plaintext, size, n - 1);
      JoinPiece(plaintext, size, n - 1);
      assert Pieces(plaintext, size, n)[..n - 1] == Pieces(plaintext, size, n - 1);
    }
  }

  /** Whatever pieces a caller feeds: if the stream takes them all, its chunks are the batch
      chunks of their concatenation, which Open gives back. */
  lemma StreamOnlyBatch(p: Primitives, s: Shape, pieces: seq<Bytes>, policy: Policy, now: int)
    requires Lawful(p) && ValidShape(p, s) && |pieces| == ChunkCount(s)
    requires Feed(p, Stream(s, []), pieces).Some?
    ensures var plaintext := Concat(pieces);
            var (st, chunks) := Feed(p, Stream(s, []), pieces).value;
            && |plaintext| == s.total
            && chunks == Sealed(p, s, plaintext).1
            && StreamReference(p, st) == (if ChunkCount(s) <= MAX_CHUNKS then Some(Sealed(p, s, plaintext).0) else None)
            && (StreamReference(p, st).Some? ==>
                  var r := StreamReference(p, st).value;
                  Permits(policy, r, now) && DeclaredDigest(s.metadata, plaintext) ==>
                    Open(p, r, chunks, policy, now) == Some(plaintext))
  {
    FeedExact(p, s, pieces);
    PiecesOfConcat(s, pieces);
    StreamRefinesBatch(p, s, Concat(pieces));
    SealedOpens(p, s, Concat(pieces), policy, now);
  }

  // ------------------------------------------------------------------ nonces and duplicates

  /** Under one key, equal outputs come from equal nonces: what authenticated encryption is used
      for, idealised as a digest is idealised to name its preimage. */
  ghost predicate NonceBinding(p: Primitives) {
    var holds := forall k, n, m, a, n', m', a' ::
      |n| == 12 && |n'| == 12 && p.seal(k, n, m, a) == p.seal(k, n', m', a') ==> n == n';
    holds
  }

  /** Then no two chunks of any attachment share a digest, since their nonces differ. */
  lemma SealedDistinct(p: Primitives, s: Shape, plaintext: Bytes)
    requires NonceBinding(p) && ValidShape(p, s) && |plaintext| == s.total
    ensures Distinct(DigestsOf(Sealed(p, s, plaintext).1))
  {
    var cs := Sealed(p, s, plaintext).1;
    var prefix := s.material.prefix;
    forall i, j | 0 <= i < j < |cs| ensures DigestsOf(cs)[i] != DigestsOf(cs)[j] {
      var x, y := Piece(plaintext, s.size, i), Piece(plaintext, s.size, j);
      assert cs[i] == SealChunk(p, s, i, x) && cs[j] == SealChunk(p, s, j, y);
      assert |Nonce(prefix, i)| == 12 && |Nonce(prefix, j)| == 12;
      if Nonce(prefix, i) == Nonce(prefix, j) {
        NoncesDistinct(prefix, i, j);
        assert false;
      }
    }
  }

  /** So streaming always gives exactly the batch chunks and reference, for every plaintext. */
  lemma StreamIsBatch(p: Primitives, s: Shape, plaintext: Bytes)
    requires NonceBinding(p) && ValidShape(p, s) && |plaintext| == s.total
    ensures var (r, cs) := Sealed(p, s, plaintext);
            var st := Stream(s, DigestsOf(cs));
            && Feed(p, Stream(s, []), Pieces(plaintext, s.size, ChunkCount(s))) == Some((st, cs))
            && StreamReference(p, st) == if ChunkCount(s) <= MAX_CHUNKS then Some(r) else None
  {
    SealedDistinct(p, s, plaintext);
    StreamRefinesBatch(p, s, plaintext);
  }

  function TwelveBytes(n: Bytes): (r: Bytes)
    ensures |r| == 12
    ensures |n| == 12 ==> r == n
  {
    (n + seq(12, _ => 0 as byte))[..12]
  }

  /** Primitives that write the nonce in front of the message. */
  const PREFIXING := Primitives(
    (k: Bytes, n: Bytes, m: Bytes, a: Bytes) => TwelveBytes(n) + seq(4, _ => 0 as byte) + m,
    (k: Bytes, n: Bytes, c: Bytes, a: Bytes) => if |c| < TAG_BYTES then None else Some(c[TAG_BYTES..]),
    (d: Digest) => [], (b: Bytes) => true, (b: Bytes) => true)

  /** The two laws can be had together. */
  lemma LawsTogether()
    ensures Lawful(PREFIXING) && NonceBinding(PREFIXING)
  {
    forall k, n, m, a
      ensures |PREFIXING.seal(k, n, m, a)| == |m| + TAG_BYTES
      ensures PREFIXING.unseal(k, n, PREFIXING.seal(k, n, m, a), a) == Some(m)
    {
      var c := PREFIXING.seal(k, n, m, a);
      assert c == TwelveBytes(n) + seq(4, _ => 0 as byte) + m;
      assert c[TAG_BYTES..] == m;
    }
    forall k, n, m, a, n', m', a' | |n| == 12 && |n'| == 12 && PREFIXING.seal(k, n, m, a) == PREFIXING.seal(k, n', m', a')
      ensures n == n'
    {
      assert (TwelveBytes(n) + seq(4, _ => 0 as byte) + m)[..12] == n;
      assert (TwelveBytes(n') + seq(4, _ => 0 as byte) + m')[..12] == n';
    }
  }

  // ---------------------------------------------------------------------- byte counts

  /** The bytes of the first `n` pieces. */
  function PrefixBytes(total: nat, size: nat, n: nat): nat {
    Min(n * size, total)
  }

  lemma PrefixStep(p: Primitives, s: Shape, plaintext: Bytes, i: Uint32)
    requires MadeFrom(p, s, plaintext) && i < ChunkCount(s)
    ensures |Sealed(p, s, plaintext).1[i].ciphertext| == |Piece(plaintext, s.size, i)| + TAG_BYTES
    ensures PrefixBytes(s.total, s.size, i + 1) == PrefixBytes(s.total, s.size, i) + |Piece(plaintext, s.size, i)|
  {
    PieceLength(plaintext, s.size, i);
    assert (i + 1) * s.size == i * s.size + s.size;
    CountBounds(s.total, s.size);
    var cs := Sealed(p, s, plaintext).1;
    assert cs[i] == SealChunk(p, s, i, Piece(plaintext, s.size, i));
  }

  lemma {:induction false} SealedPrefixBytes(p: Primitives, s: Shape, plaintext: Bytes, n: nat)
    requires MadeFrom(p, s, plaintext) && n <= ChunkCount(s)
    ensures BatchBytes(Sealed(p, s, plaintext).1[..n]) == PrefixBytes(s.total, s.size, n) + TAG_BYTES * n
  {
    if n > 0 {
      var cs := Sealed(p, s, plaintext).1;
      SealedPrefixBytes(p, s, plaintext, n - 1);
      assert cs[..n][..n - 1] == cs[..n - 1];
      PrefixStep(p, s, plaintext, n - 1);
    }
  }

  /** The sealed lengths sum to the plaintext and one tag a chunk. */
  lemma SealedBytes(p: Primitives, s: Shape, plaintext: Bytes)
    requires MadeFrom(p, s, plaintext)
    ensures BatchBytes(Sealed(p, s, plaintext).1) == s.total + TAG_BYTES * ChunkCount(s)
  {
    SealedPrefixBytes(p, s, plaintext, ChunkCount(s));
    CountBounds(s.total, s.size);
    assert Sealed(p, s, plaintext).1[..ChunkCount(s)] == Sealed(p, s, plaintext).1;
  }

  /** `objects` holds every chunk under its digest. */
  ghost predicate Holds(objects: map<Digest, Object>, chunks: seq<Chunk>) {
    forall i :: 0 <= i < |chunks| ==> chunks[i].digest in objects && objects[chunks[i].digest].content == chunks[i].ciphertext
  }

  lemma {:induction false} SumsAgree(objects: map<Digest, Object>, chunks: seq<Chunk>)
    requires Holds(objects, chunks)
    ensures SumLengths(objects, DigestsOf(chunks)) == BatchBytes(chunks)
  {
    if chunks != [] {
      var n := |chunks| - 1;
      SumsAgree(objects, chunks[..n]);
      assert DigestsOf(chunks) == DigestsOf(chunks[..n]) + [chunks[n].digest];
      SumAppend(objects, DigestsOf(chunks[..n]), chunks[n].digest);
    }
  }

  /** The byte total an emitter puts in its grant always meets the store's exact-sum check once
      the store holds the sealed chunks, and the sealed chunks make a batch the store admits. */
  lemma GrantedTotalMeetsStore(p: Primitives, s: Shape, plaintext: Bytes, objects: map<Digest, Object>)
    requires MadeFrom(p, s, plaintext) && ChunkCount(s) <= MAX_CHUNKS
    requires Holds(objects, Sealed(p, s, plaintext).1)
    ensures var (r, cs) := Sealed(p, s, plaintext);
            var granted := r.manifest.plaintextBytes + TAG_BYTES * |r.manifest.chunkDigests|;
            && VerifyObjects(objects, r.manifest.chunkDigests, granted) == Ok(())
            && (Distinct(DigestsOf(cs)) ==> ValidBatch(cs))
  {
    var (r, cs) := Sealed(p, s, plaintext);
    SealedBytes(p, s, plaintext);
    SumsAgree(objects, cs);
    CountBounds(s.total, s.size);
    forall i | 0 <= i < |cs| ensures ValidChunk(cs[i]) {
      PieceLength(plaintext, s.size, i);
      assert cs[i] == SealChunk(p, s, i, Piece(plaintext, s.size, i));
    }
    forall i | 0 <= i < |cs| ensures HashOk(objects, r.manifest.chunkDigests[i]) {
      assert r.manifest.chunkDigests[i] == cs[i].digest;
    }
  }
}
