/** Chunked attachment sealing (pkg/attachments/attachments.go, stream.go): the batch form, the
    streaming form, and the Open that undoes both, as functions of their inputs. */
module Sealing {
  import opened Foundation
  import opened AttachmentLimits
  import opened Digests
  import opened StoreModel
  import BigEndian
  import opened Canon

  /** AEAD and parsing primitives; `text` spells a digest. */
  datatype Primitives = Primitives(
    seal: (Bytes, Bytes, Bytes, Bytes) -> Bytes,
    unseal: (Bytes, Bytes, Bytes, Bytes) -> Option<Bytes>,
    text: Digest -> Bytes,
    filename: Bytes -> bool,
    mediaType: Bytes -> bool)

  /** Arguments are key, nonce, message and associated data. */
  ghost predicate Lawful(p: Primitives) {
    var holds := forall k, n, m, a ::
      |p.seal(k, n, m, a)| == |m| + TAG_BYTES && p.unseal(k, n, p.seal(k, n, m, a), a) == Some(m);
    holds
  }

  datatype Metadata = Metadata(filename: Bytes, mediaType: Bytes, plaintextDigest: Option<Digest>, expiresAt: Uint64)

  /** What a sealing draws at random. */
  datatype Material = Material(key: Bytes, id: Bytes, prefix: Bytes)

  datatype Manifest = Manifest(
    schema: string,
    algorithm: string,
    id: Bytes,
    prefix: Bytes,
    plaintextBytes: Uint64,
    chunkBytes: Uint32,
    metadataDigest: Digest,
    chunkDigests: seq<Digest>)

  datatype Reference = Reference(manifest: Manifest, key: Bytes, metadata: Metadata)

  datatype Policy = Policy(maxPlaintextBytes: nat, allowedMediaTypes: set<Bytes>)

  const SCHEMA := "tos.messaging.encrypted-attachment.v1"
  const ALGORITHM := "AES-256-GCM"
  const METADATA_DOMAIN := Ascii("tos.messaging.attachment-metadata.v1\0")
  const CHUNK_DOMAIN := Ascii("tos.messaging.attachment-chunk.v1\0")
  const MANIFEST_DOMAIN := Ascii("tos.messaging.attachment-manifest.v1\0")

  // ----------------------------------------------------------------------- validity

  predicate Usable(m: Material) {
    && |m.key| == 32 && !IsZero(m.key)
    && |m.id| == 16 && !IsZero(m.id)
    && |m.prefix| == 4 && !IsZero(m.prefix)
  }

  predicate ValidMetadata(p: Primitives, m: Metadata) {
    && p.filename(m.filename)
    && p.mediaType(m.mediaType)
    && (m.plaintextDigest.Some? ==> ValidDigest(m.plaintextDigest.value))
    && m.expiresAt != 0
  }

  /** Ceiling division. */
  function Count(total: nat, size: nat): nat
    requires size > 0
  {
    (total + size - 1) / size
  }

  predicate ValidManifest(m: Manifest) {
    && m.schema == SCHEMA && m.algorithm == ALGORITHM
    && |m.id| == 16 && !IsZero(m.id)
    && |m.prefix| == 4 && !IsZero(m.prefix)
    && 0 < m.plaintextBytes <= MAX_PLAINTEXT_BYTES
    && 0 < m.chunkBytes <= MAX_CHUNK_BYTES
    && ValidDigest(m.metadataDigest)
    && Count(m.plaintextBytes, m.chunkBytes) <= MAX_CHUNKS
    && |m.chunkDigests| == Count(m.plaintextBytes, m.chunkBytes)
    && AllValid(m.chunkDigests)
  }

  predicate ValidReference(p: Primitives, r: Reference) {
    && ValidManifest(r.manifest)
    && |r.key| == 32 && !IsZero(r.key)
    && ValidMetadata(p, r.metadata)
    && MetadataDigest(p, r.metadata) == r.manifest.metadataDigest
  }

  predicate Permits(policy: Policy, r: Reference, now: int) {
    var limit := if policy.maxPlaintextBytes == 0 then MAX_PLAINTEXT_BYTES else policy.maxPlaintextBytes;
    && 0 <= now < r.metadata.expiresAt
    && limit <= MAX_PLAINTEXT_BYTES
    && r.manifest.plaintextBytes <= limit
    && (policy.allowedMediaTypes == {} || r.metadata.mediaType in policy.allowedMediaTypes)
  }

  // ----------------------------------------------------------------- digests, nonces, data

  function MetadataDigest(p: Primitives, m: Metadata): Digest {
    var declared := if m.plaintextDigest.Some? then p.text(m.plaintextDigest.value) else [];
    Sha256(METADATA_DOMAIN + WriteAll([B(Ascii(SCHEMA)), B(m.filename), B(m.mediaType), B(declared), N64(m.expiresAt)]))
  }

  function Nonce(prefix: Bytes, index: nat): Bytes {
    prefix + BigEndian.Encode(index, 8)
  }

  /** Binds a chunk to its attachment, its shape and its position. */
  function ChunkData(p: Primitives, id: Bytes, metadata: Digest, total: Uint64, size: Uint32, count: Uint32, index: Uint32): Bytes {
    CHUNK_DOMAIN + WriteAll([B(Ascii(SCHEMA)), B(id), B(p.text(metadata)), N64(total), N32(size), N32(count), N32(index)])
  }

  function ManifestDigest(p: Primitives, m: Manifest): Digest {
    Sha256(MANIFEST_DOMAIN + WriteAll(
      [B(Ascii(m.schema)), B(Ascii(m.algorithm)), B(m.id), B(m.prefix), N64(m.plaintextBytes), N32(m.chunkBytes),
       B(p.text(m.metadataDigest)), Rows(seq(|m.chunkDigests|, i requires 0 <= i < |m.chunkDigests| => Row([B(p.text(m.chunkDigests[i]))])))]))
  }

  // ------------------------------------------------------------------------- sealing

  /** Everything that fixes how chunk `index` of an attachment is sealed, but its plaintext. */
  datatype Shape = Shape(material: Material, metadata: Metadata, total: Uint64, size: Uint32)

  predicate ValidShape(p: Primitives, s: Shape) {
    var holds :=
      && Usable(s.material)
      && ValidMetadata(p, s.metadata)
      && 0 < s.total <= MAX_PLAINTEXT_BYTES
      && 0 < s.size <= MAX_CHUNK_BYTES;
    holds
  }

  function ChunkCount(s: Shape): (n: Uint32)
    requires 0 < s.size && s.total <= MAX_PLAINTEXT_BYTES
    ensures n == Count(s.total, s.size)
  {
    CountWithin(s.total, s.size);
    Count(s.total, s.size)
  }

  function SealChunk(p: Primitives, s: Shape, index: Uint32, piece: Bytes): Chunk
    requires 0 < s.size && s.total <= MAX_PLAINTEXT_BYTES
  {
    var data := ChunkData(p, s.material.id, MetadataDigest(p, s.metadata), s.total, s.size, ChunkCount(s), index);
    var sealed := p.seal(s.material.key, Nonce(s.material.prefix, index), piece, data);
    Chunk(index, Sha256(sealed), sealed)
  }

  /** Chunk `index` of the plaintext. */
  function Piece(plaintext: Bytes, size: nat, index: nat): Bytes {
    var start := index * size;
    if start >= |plaintext| then [] else plaintext[start..Min(start + size, |plaintext|)]
  }

  function Pieces(plaintext: Bytes, size: nat, n: nat): (ps: seq<Bytes>)
    ensures |ps| == n
  {
    seq(n, i requires 0 <= i < n => Piece(plaintext, size, i))
  }

  function SealChunks(p: Primitives, s: Shape, pieces: seq<Bytes>): (cs: seq<Chunk>)
    requires 0 < s.size && s.total <= MAX_PLAINTEXT_BYTES && |pieces| < UINT32_LIMIT
    ensures |cs| == |pieces|
  {
    seq(|pieces|, i requires 0 <= i < |pieces| => SealChunk(p, s, i, pieces[i]))
  }

  function MakeReference(p: Primitives, s: Shape, digests: seq<Digest>): Reference {
    Reference(
      Manifest(SCHEMA, ALGORITHM, s.material.id, s.material.prefix, s.total, s.size, MetadataDigest(p, s.metadata), digests),
      s.material.key, s.metadata)
  }

  predicate DeclaredDigest(m: Metadata, plaintext: Bytes) {
    m.plaintextDigest.None? || m.plaintextDigest.value == Sha256(plaintext)
  }

  /** What the batch form accepts. */
  predicate Sealable(p: Primitives, m: Material, metadata: Metadata, plaintext: Bytes) {
    && 0 < |plaintext| <= MAX_PLAINTEXT_BYTES
    && ValidMetadata(p, metadata)
    && DeclaredDigest(metadata, plaintext)
    && Usable(m)
  }

  /** The sealed form of a plaintext at a chunk size. */
  function Sealed(p: Primitives, s: Shape, plaintext: Bytes): (Reference, seq<Chunk>)
    requires 0 < s.size && s.total <= MAX_PLAINTEXT_BYTES
  {
    var chunks := SealChunks(p, s, Pieces(plaintext, s.size, ChunkCount(s)));
    (MakeReference(p, s, DigestsOf(chunks)), chunks)
  }

  // ------------------------------------------------------------------------- opening

  /** The plaintext length chunk `index` must have. */
  function ExpectedPlaintext(m: Manifest, index: nat): int {
    if index < |m.chunkDigests| - 1 then m.chunkBytes else m.plaintextBytes - index * m.chunkBytes
  }

  function OpenChunk(p: Primitives, r: Reference, count: Uint32, index: Uint32, c: Chunk): Option<Bytes>
    requires index < |r.manifest.chunkDigests|
  {
    var m := r.manifest;
    if c.index != index || c.digest != m.chunkDigests[index] || Sha256(c.ciphertext) != c.digest then None
    else if |c.ciphertext| != ExpectedPlaintext(m, index) + TAG_BYTES then None
    else
      p.unseal(r.key, Nonce(m.prefix, index), c.ciphertext,
               ChunkData(p, m.id, m.metadataDigest, m.plaintextBytes, m.chunkBytes, count, index))
  }

  function OpenChunks(p: Primitives, r: Reference, count: Uint32, chunks: seq<Chunk>): Option<Bytes>
    requires |chunks| <= |r.manifest.chunkDigests| < UINT32_LIMIT
  {
    if chunks == [] then Some([])
    else
      match OpenChunks(p, r, count, chunks[..|chunks| - 1])
      case None => None
      case Some(before) =>
        match OpenChunk(p, r, count, |chunks| - 1, chunks[|chunks| - 1])
        case None => None
        case Some(piece) => Some(before + piece)
  }

  function Open(p: Primitives, r: Reference, chunks: seq<Chunk>, policy: Policy, now: int): Option<Bytes> {
    if !ValidReference(p, r) || !Permits(policy, r, now) || |chunks| != |r.manifest.chunkDigests| then None
    else
      match OpenChunks(p, r, |chunks|, chunks)
      case None => None
      case Some(plaintext) =>
        if |plaintext| != r.manifest.plaintextBytes || !DeclaredDigest(r.metadata, plaintext) then None
        else Some(plaintext)
  }

  // ----------------------------------------------------------------------- streaming

  datatype Stream = Stream(shape: Shape, digests: seq<Digest>)

  ghost predicate ValidStream(p: Primitives, st: Stream, complete: bool) {
    && ValidShape(p, st.shape)
    && |st.digests| <= ChunkCount(st.shape)
    && (complete ==> |st.digests| == ChunkCount(st.shape))
    && AllValid(st.digests)
    && Distinct(st.digests)
  }

  /** The length the next piece must have. */
  function Wanted(s: Shape, index: nat): int
    requires 0 < s.size
  {
    if index == Count(s.total, s.size) - 1 then s.total - index * s.size else s.size
  }

  ghost function SealNext(p: Primitives, st: Stream, piece: Bytes): Option<(Stream, Chunk)> {
    if !ValidStream(p, st, false) || |st.digests| >= ChunkCount(st.shape) || |piece| != Wanted(st.shape, |st.digests|) then None
    else
      var c := SealChunk(p, st.shape, |st.digests|, piece);
      if c.digest in st.digests then None else Some((st.(digests := st.digests + [c.digest]), c))
  }

  ghost function StreamReference(p: Primitives, st: Stream): Option<Reference> {
    if !ValidStream(p, st, true) then None
    else
      var r := MakeReference(p, st.shape, st.digests);
      if ValidReference(p, r) then Some(r) else None
  }

  /** Feed pieces one after the other. */
  ghost function Feed(p: Primitives, st: Stream, pieces: seq<Bytes>): Option<(Stream, seq<Chunk>)> {
    if pieces == [] then Some((st, []))
    else
      match Feed(p, st, pieces[..|pieces| - 1])
      case None => None
      case Some((mid, chunks)) =>
        match SealNext(p, mid, pieces[|pieces| - 1])
        case None => None
        case Some((last, c)) => Some((last, chunks + [c]))
  }

  function Concat(pieces: seq<Bytes>): Bytes {
    if pieces == [] then [] else Concat(pieces[..|pieces| - 1]) + pieces[|pieces| - 1]
  }

  // ---------------------------------------------------------------------- arithmetic

  lemma CountBounds(total: nat, size: nat)
    requires total > 0 && size > 0
    ensures var n := Count(total, size); n > 0 && (n - 1) * size < total <= n * size
  {
    var n := Count(total, size);
    assert total + size - 1 == n * size + (total + size - 1) % size;
    assert (n - 1) * size == n * size - size;
  }

  lemma {:induction false} MulOrder(a: nat, b: nat, size: nat)
    requires a <= b
    ensures a * size <= b * size
    ensures a < b ==> a * size + size <= b * size
    decreases b
  {
    if a < b {
      MulOrder(a, b - 1, size);
      assert b * size == (b - 1) * size + size;
    }
  }

  lemma CountZero(size: nat)
    requires size > 0
    ensures Count(0, size) == 0
  {
  }

  lemma CountWithin(total: nat, size: nat)
    requires size > 0
    ensures Count(total, size) <= total
  {
    if total == 0 {
      CountZero(size);
    } else {
      CountBounds(total, size);
      MulOrder(1, size, Count(total, size) - 1);
    }
  }

  /** Every index below the count starts inside the plaintext, so no subtraction underflows, and
      what is expected of a piece is exactly its length. */
  lemma PieceLength(plaintext: Bytes, size: nat, index: nat)
    requires size > 0 && index < Count(|plaintext|, size)
    ensures index * size < |plaintext|
    ensures |Piece(plaintext, size, index)| ==
            if index == Count(|plaintext|, size) - 1 then |plaintext| - index * size else size
    ensures 0 < |Piece(plaintext, size, index)| <= size
  {
    if plaintext == [] {
      CountZero(size);
    }
    CountBounds(|plaintext|, size);
    var n := Count(|plaintext|, size);
    MulOrder(index, n - 1, size);
    assert n * size == (n - 1) * size + size;
  }

  /** The default chunk size never exceeds the chunk limit. */
  lemma DefaultCount(total: nat)
    requires 0 < total <= MAX_PLAINTEXT_BYTES
    ensures 0 < Count(total, DEFAULT_CHUNK_BYTES) <= MAX_CHUNKS
  {
  }
}
