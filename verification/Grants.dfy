/** Attachment capability grants, access requests and operation bodies as the byte strings that
    are signed or hashed (pkg/attachments/remote_auth.go).  Fields whose JSON form is hex but
    whose canonical form is raw bytes are kept raw; the rest are text.  `hash` maps a preimage to
    its digest text. */
module Grants {
  import opened Foundation
  import opened AttachmentLimits
  import opened Canon

  const MAX_REQUEST_LIFETIME: nat := 120
  const MAX_FUTURE_SKEW: nat := 30 * SECOND
  const SIGNATURE_BYTES: nat := 64

  const GRANT_DOMAIN := Ascii("tos.messaging.attachment-capability-grant.v1\0")
  const REQUEST_DOMAIN := Ascii("tos.messaging.attachment-access-request.v1\0")
  const BODY_DOMAIN := Ascii("tos.messaging.attachment-operation-body.v1\0")
  const GRANT_SCHEMA := Ascii("tos.messaging.attachment-capability-grant.v1")
  const REQUEST_SCHEMA := Ascii("tos.messaging.attachment-access-request.v1")
  const UPLOAD := Ascii("upload")
  const FETCH := Ascii("fetch")
  const DELETE := Ascii("delete")

  datatype Grant = Grant(
    schema: Bytes,
    network: Bytes,
    genesisRoot: Bytes,
    genesisFile: Bytes,
    agent: Bytes,
    endpoint: Bytes,
    storageKey: Bytes,
    capabilityKey: Bytes,
    manifest: Bytes,
    chunkDigests: seq<Bytes>,
    ciphertextBytes: Uint64,
    retainUntil: Uint64,
    operations: seq<Bytes>,
    issuedAt: Uint64,
    expiresAt: Uint64,
    signature: Bytes)

  datatype Request = Request(
    schema: Bytes,
    grantDigest: Bytes,
    operation: Bytes,
    bodyDigest: Bytes,
    nonce: Bytes,
    issuedAt: Uint64,
    expiresAt: Uint64,
    signature: Bytes)

  datatype UploadChunk = UploadChunk(index: Uint32, digest: Bytes, ciphertext: Bytes)

  /** One operation a client may ask for, with its body. */
  datatype Call = UploadCall(chunks: seq<UploadChunk>) | FetchCall(digests: seq<Bytes>) | DeleteCall

  // ----------------------------------------------------------------------- validity

  predicate IsHex(b: byte) {
    '0' as int <= b as int <= '9' as int || 'a' as int <= b as int <= 'f' as int
  }

  /** A prefix followed by 32 bytes of lowercase hex. */
  predicate Tagged(prefix: Bytes, t: Bytes) {
    && |t| == |prefix| + 64
    && t[..|prefix|] == prefix
    && forall i :: |prefix| <= i < |t| ==> IsHex(t[i])
  }

  /** A digest text that is not the all-zero one. */
  predicate ContentDigest(t: Bytes) {
    && Tagged(Ascii("sha256:"), t)
    && exists i :: 7 <= i < |t| && t[i] as int != '0' as int
  }

  predicate Key(b: Bytes) {
    |b| == 32 && !IsZero(b)
  }

  predicate KnownOperation(t: Bytes) {
    t == UPLOAD || t == FETCH || t == DELETE
  }

  /** Go's order on strings. */
  predicate Less(a: Bytes, b: Bytes) {
    b != [] && (a == [] || a[0] < b[0] || (a[0] == b[0] && Less(a[1..], b[1..])))
  }

  predicate ValidScalars(g: Grant) {
    && g.schema == GRANT_SCHEMA
    && 0 < |g.network| <= 128
    && Tagged(Ascii("agent_"), g.agent)
    && Tagged(Ascii("mep_"), g.endpoint)
    && |g.genesisRoot| == 32
    && |g.genesisFile| == 32
    && ContentDigest(g.manifest)
    && 0 < |g.chunkDigests| <= MAX_CHUNKS
    && 0 < g.ciphertextBytes <= MAX_PLAINTEXT_BYTES + MAX_CHUNKS * TAG_BYTES
    && 0 < g.issuedAt < g.retainUntil <= g.expiresAt
    && g.expiresAt - g.issuedAt <= MAX_GRANT_LIFETIME
    && 0 < |g.operations| <= 3
  }

  ghost predicate ValidChunks(digests: seq<Bytes>) {
    (forall i :: 0 <= i < |digests| ==> ContentDigest(digests[i])) && Distinct(digests)
  }

  /** A known operation, in order after the one before it. */
  predicate OperationAt(operations: seq<Bytes>, i: nat)
    requires i < |operations|
  {
    var holds :=
      && KnownOperation(operations[i])
      && (i > 0 ==> !Less(operations[i], operations[i - 1]) && operations[i - 1] != operations[i]);
    holds
  }

  ghost predicate ValidOperations(operations: seq<Bytes>) {
    forall i :: 0 <= i < |operations| ==> OperationAt(operations, i)
  }

  ghost predicate ValidGrant(g: Grant) {
    && ValidScalars(g)
    && ValidChunks(g.chunkDigests)
    && ValidOperations(g.operations)
    && Key(g.storageKey)
    && Key(g.capabilityKey)
  }

  predicate ValidRequest(r: Request) {
    && r.schema == REQUEST_SCHEMA
    && ContentDigest(r.grantDigest)
    && KnownOperation(r.operation)
    && ContentDigest(r.bodyDigest)
    && 0 < r.issuedAt < r.expiresAt
    && r.expiresAt - r.issuedAt <= MAX_REQUEST_LIFETIME
    && Key(r.nonce)
  }

  // ------------------------------------------------------------------------ preimages

  /** Text and Bytes write alike; as `B` a string need not be UTF-8, and NetworkID need not. */
  function TextRows(ts: seq<Bytes>): (rows: seq<Row>)
    ensures |rows| == |ts|
  {
    seq(|ts|, i requires 0 <= i < |ts| => Row([B(ts[i])]))
  }

  function ChunkRow(c: UploadChunk): Row {
    Row([N32(c.index), B(c.digest), N64(|c.ciphertext| % UINT64_LIMIT)])
  }

  function ChunkRows(cs: seq<UploadChunk>): (rows: seq<Row>)
    ensures |rows| == |cs|
  {
    seq(|cs|, i requires 0 <= i < |cs| => ChunkRow(cs[i]))
  }

  const FIELD := Blob(UINT32_LIMIT - 1)
  const TEXTS := Repeated(UINT32_LIMIT - 1, [FIELD])
  const CHUNKS := Repeated(UINT32_LIMIT - 1, [Number32, FIELD, Number64])

  function GrantKinds(): seq<Kind> {
    [FIELD, FIELD, Hash, Hash, FIELD, FIELD, FIELD, FIELD, FIELD, TEXTS, Number64, Number64, TEXTS, Number64, Number64]
  }

  function GrantFields(g: Grant): seq<Value> {
    [B(GRANT_SCHEMA), B(g.network), H(g.genesisRoot), H(g.genesisFile), B(g.agent), B(g.endpoint),
     B(g.storageKey), B(g.capabilityKey), B(g.manifest), Rows(TextRows(g.chunkDigests)),
     N64(g.ciphertextBytes), N64(g.retainUntil), Rows(TextRows(g.operations)), N64(g.issuedAt), N64(g.expiresAt)]
  }

  function GrantBytes(g: Grant): Bytes {
    GRANT_DOMAIN + WriteAll(GrantFields(g))
  }

  function RequestKinds(): seq<Kind> {
    [FIELD, FIELD, FIELD, FIELD, FIELD, Number64, Number64]
  }

  function RequestFields(r: Request): seq<Value> {
    [B(REQUEST_SCHEMA), B(r.grantDigest), B(r.operation), B(r.bodyDigest), B(r.nonce), N64(r.issuedAt), N64(r.expiresAt)]
  }

  function RequestBytes(r: Request): Bytes {
    REQUEST_DOMAIN + WriteAll(RequestFields(r))
  }

  function OperationOf(call: Call): Bytes {
    match call
    case UploadCall(_) => UPLOAD
    case FetchCall(_) => FETCH
    case DeleteCall => DELETE
  }

  /** The fields of a body after its operation name. */
  function BodyFields(g: Grant, call: Call): seq<Value> {
    match call
    case UploadCall(chunks) => [B(g.manifest), N64(g.retainUntil), Rows(ChunkRows(chunks))]
    case FetchCall(digests) => [B(g.manifest), Rows(TextRows(digests))]
    case DeleteCall => [B(g.manifest)]
  }

  function BodyKinds(call: Call): seq<Kind> {
    match call
    case UploadCall(_) => [FIELD, Number64, CHUNKS]
    case FetchCall(_) => [FIELD, TEXTS]
    case DeleteCall => [FIELD]
  }

  function BodyBytes(g: Grant, call: Call): Bytes {
    BODY_DOMAIN + WriteAll([B(OperationOf(call))] + BodyFields(g, call))
  }

  // ------------------------------------------------------------------ admissible bodies

  function SizeOf(c: UploadChunk): nat {
    |c.ciphertext|
  }

  function SumBytes(chunks: seq<UploadChunk>): nat {
    SumOf(SizeOf, chunks)
  }

  /** The chunk sits at its own position in the grant and hashes to its digest. */
  predicate GrantedChunk(hash: Bytes -> Bytes, g: Grant, c: UploadChunk) {
    && c.index < |g.chunkDigests|
    && g.chunkDigests[c.index] == c.digest
    && TAG_BYTES < |c.ciphertext| <= MAX_CHUNK_BYTES + TAG_BYTES
    && hash(c.ciphertext) == c.digest
  }

  ghost predicate ValidUpload(hash: Bytes -> Bytes, g: Grant, chunks: seq<UploadChunk>) {
    && ValidGrant(g)
    && 0 < |chunks| <= |g.chunkDigests|
    && (forall i :: 0 <= i < |chunks| ==> GrantedChunk(hash, g, chunks[i]))
    && (forall i, j :: 0 <= i < j < |chunks| ==> chunks[i].digest != chunks[j].digest)
    && SumBytes(chunks) <= g.ciphertextBytes
  }

  ghost predicate ValidFetch(g: Grant, digests: seq<Bytes>) {
    && ValidGrant(g)
    && 0 < |digests| <= MAX_CHUNKS
    && (forall i :: 0 <= i < |digests| ==> digests[i] in g.chunkDigests)
    && Distinct(digests)
  }

  ghost predicate ValidCall(hash: Bytes -> Bytes, g: Grant, call: Call) {
    match call
    case UploadCall(chunks) => ValidUpload(hash, g, chunks)
    case FetchCall(digests) => ValidFetch(g, digests)
    case DeleteCall => ValidGrant(g)
  }

  /** The checks that tie a signed request to its grant and body; signature and clock apart. */
  ghost predicate Matches(hash: Bytes -> Bytes, g: Grant, r: Request, call: Call) {
    && ValidRequest(r)
    && ValidCall(hash, g, call)
    && r.grantDigest == hash(GrantBytes(g))
    && r.operation == OperationOf(call)
    && r.bodyDigest == hash(BodyBytes(g, call))
    && OperationOf(call) in g.operations
  }

  // ----------------------------------------------------------------------- authorisation

  /** How digests and signatures are computed, and the storage operator's public key.  `verify` takes
      a key, a preimage and a signature. */
  datatype Trust = Trust(hash: Bytes -> Bytes, verify: (Bytes, Bytes, Bytes) -> bool, storageKey: Bytes)

  predicate SignedBy(t: Trust, key: Bytes, preimage: Bytes, signature: Bytes) {
    |signature| == SIGNATURE_BYTES && t.verify(key, preimage, signature)
  }

  predicate KeysApart(g: Grant, endpointKey: Bytes) {
    g.storageKey != g.capabilityKey && g.storageKey != endpointKey && g.capabilityKey != endpointKey
  }

  /** VerifyGrant. */
  ghost predicate GrantVerified(t: Trust, endpointKey: Bytes, g: Grant, now: int) {
    && ValidGrant(g)
    && Key(endpointKey) && Key(t.storageKey) && g.storageKey == t.storageKey && KeysApart(g, endpointKey)
    && 0 <= Unix(now) && g.issuedAt <= Unix(now) < g.expiresAt
    && SignedBy(t, endpointKey, GrantBytes(g), g.signature)
  }

  /** The request's own window, which may start a little ahead and must lie inside the grant's. */
  predicate RequestInWindow(g: Grant, r: Request, now: int) {
    && 0 <= Unix(now) < r.expiresAt && r.issuedAt <= Unix(now + MAX_FUTURE_SKEW)
    && g.issuedAt <= r.issuedAt && r.expiresAt <= g.expiresAt
  }

  /** VerifyAccessRequest, for an operation and the digest of its body. */
  ghost predicate RequestVerified(t: Trust, g: Grant, r: Request, expected: Bytes, bodyDigest: Bytes, now: int) {
    && ValidGrant(g) && ValidRequest(r)
    && r.grantDigest == t.hash(GrantBytes(g)) && r.operation == expected && r.bodyDigest == bodyDigest
    && expected in g.operations
    && RequestInWindow(g, r, now)
    && SignedBy(t, g.capabilityKey, RequestBytes(r), r.signature)
  }

  /** A call is admitted: its body is in form, its endpoint resolved, grant and request verified. */
  ghost predicate Admits(t: Trust, endpointKey: Option<Bytes>, g: Grant, r: Request, call: Call, now: int) {
    var holds :=
      && ValidCall(t.hash, g, call)
      && endpointKey.Some? && GrantVerified(t, endpointKey.value, g, now)
      && RequestVerified(t, g, r, OperationOf(call), t.hash(BodyBytes(g, call)), now);
    holds
  }

  lemma AdmitsMatches(t: Trust, endpointKey: Option<Bytes>, g: Grant, r: Request, call: Call, now: int)
    requires Admits(t, endpointKey, g, r, call, now)
    ensures Matches(t.hash, g, r, call) && RequestInWindow(g, r, now)
  {
  }

  /** Everything the endpoint signs. */
  function Signed(g: Grant): Grant {
    g.(signature := [])
  }

  function SignedRequest(r: Request): Request {
    r.(signature := [])
  }

  // ------------------------------------------------------------------ every field is in bounds

  lemma {:induction false} FitEach(vs: seq<Value>, ks: seq<Kind>)
    requires |vs| == |ks| && forall i :: 0 <= i < |vs| ==> Fits(vs[i], ks[i])
    ensures FitAll(vs, ks)
  {
    if ks != [] {
      FitEach(vs[1..], ks[1..]);
    }
  }

  lemma {:induction false} FitEachRow(rows: seq<Row>, row: seq<Kind>)
    requires forall i :: 0 <= i < |rows| ==> FitAll(rows[i].cells, row)
    ensures FitRows(rows, row)
  {
    if rows != [] {
      FitEachRow(rows[1..], row);
    }
  }

  lemma TextsFit(ts: seq<Bytes>)
    requires |ts| < UINT32_LIMIT && forall i :: 0 <= i < |ts| ==> |ts[i]| < UINT32_LIMIT
    ensures Fits(Rows(TextRows(ts)), TEXTS)
  {
    var rows := TextRows(ts);
    forall i | 0 <= i < |rows| ensures FitAll(rows[i].cells, [FIELD]) {
      FitEach(rows[i].cells, [FIELD]);
    }
    FitEachRow(rows, [FIELD]);
  }

  lemma ChunksFit(cs: seq<UploadChunk>)
    requires |cs| < UINT32_LIMIT && forall i :: 0 <= i < |cs| ==> |cs[i].digest| < UINT32_LIMIT
    ensures Fits(Rows(ChunkRows(cs)), CHUNKS)
  {
    var rows, row := ChunkRows(cs), [Number32, FIELD, Number64];
    forall i | 0 <= i < |rows| ensures FitAll(rows[i].cells, row) {
      FitEach(rows[i].cells, row);
    }
    FitEachRow(rows, row);
  }

  lemma TextsSame(a: seq<Bytes>, b: seq<Bytes>)
    requires TextRows(a) == TextRows(b)
    ensures a == b
  {
    forall i | 0 <= i < |a| ensures |a| == |b| && a[i] == b[i] {
      assert |TextRows(a)| == |TextRows(b)|;
      assert TextRows(a)[i].cells[0] == TextRows(b)[i].cells[0];
    }
    assert |TextRows(a)| == |TextRows(b)|;
  }

  lemma GrantFits(g: Grant)
    requires ValidGrant(g)
    ensures FitAll(GrantFields(g), GrantKinds())
  {
    TextsFit(g.chunkDigests);
    forall i | 0 <= i < |g.operations| ensures |g.operations[i]| < UINT32_LIMIT {
      assert OperationAt(g.operations, i);
    }
    TextsFit(g.operations);
    FitEach(GrantFields(g), GrantKinds());
  }

  lemma RequestFits(r: Request)
    requires ValidRequest(r)
    ensures FitAll(RequestFields(r), RequestKinds())
  {
    FitEach(RequestFields(r), RequestKinds());
  }

  // ----------------------------------------------------------------------- main results

  /** Valid grants with equal canonical bytes agree on every signed field. */
  lemma GrantInjective(g: Grant, h: Grant)
    requires ValidGrant(g) && ValidGrant(h) && GrantBytes(g) == GrantBytes(h)
    ensures Signed(g) == Signed(h)
  {
    GrantFits(g);
    GrantFits(h);
    WriteInjective(GRANT_DOMAIN, GrantFields(g), GrantFields(h), GrantKinds());
    var a, b := GrantFields(g), GrantFields(h);
    assert a[1] == b[1] && a[2] == b[2] && a[3] == b[3] && a[4] == b[4] && a[5] == b[5];
    assert a[6] == b[6] && a[7] == b[7] && a[8] == b[8] && a[9] == b[9] && a[10] == b[10];
    assert a[11] == b[11] && a[12] == b[12] && a[13] == b[13] && a[14] == b[14];
    TextsSame(g.chunkDigests, h.chunkDigests);
    TextsSame(g.operations, h.operations);
  }

  lemma RequestInjective(r: Request, q: Request)
    requires ValidRequest(r) && ValidRequest(q) && RequestBytes(r) == RequestBytes(q)
    ensures SignedRequest(r) == SignedRequest(q)
  {
    RequestFits(r);
    RequestFits(q);
    WriteInjective(REQUEST_DOMAIN, RequestFields(r), RequestFields(q), RequestKinds());
    var a, b := RequestFields(r), RequestFields(q);
    assert a[1] == b[1] && a[2] == b[2] && a[3] == b[3] && a[4] == b[4] && a[5] == b[5] && a[6] == b[6];
  }

  lemma OperationsDiffer()
    ensures UPLOAD != FETCH && UPLOAD != DELETE && FETCH != DELETE
  {
    assert UPLOAD[0] as int == 'u' as int && DELETE[0] as int == 'd' as int;
    assert |UPLOAD| == 6 && |FETCH| == 5;
  }

  /** Bodies of different operations never coincide, whatever grants and objects they name. */
  lemma BodiesNeverCoincide(g: Grant, c: Call, h: Grant, d: Call)
    requires BodyBytes(g, c) == BodyBytes(h, d)
    ensures OperationOf(c) == OperationOf(d)
  {
    var x, y := WriteAll(BodyFields(g, c)), WriteAll(BodyFields(h, d));
    var p, q := B(OperationOf(c)), B(OperationOf(d));
    assert ([p] + BodyFields(g, c))[1..] == BodyFields(g, c);
    assert ([q] + BodyFields(h, d))[1..] == BodyFields(h, d);
    assert BODY_DOMAIN + (Write(p) + x) == BODY_DOMAIN + (Write(q) + y);
    assert (BODY_DOMAIN + (Write(p) + x))[|BODY_DOMAIN|..] == Write(p) + x;
    assert (BODY_DOMAIN + (Write(q) + y))[|BODY_DOMAIN|..] == Write(q) + y;
    RoundTrip(p, FIELD, x);
    RoundTrip(q, FIELD, y);
  }

  /** Within one operation the body pins the manifest, the retention and the object list. */
  lemma BodyInjective(hash: Bytes -> Bytes, g: Grant, c: Call, h: Grant, d: Call)
    requires ValidCall(hash, g, c) && ValidCall(hash, h, d) && BodyBytes(g, c) == BodyBytes(h, d)
    ensures g.manifest == h.manifest
    ensures c.FetchCall? ==> c == d
    ensures c.DeleteCall? ==> c == d
    ensures c.UploadCall? ==> d.UploadCall? && g.retainUntil == h.retainUntil && ChunkRows(c.chunks) == ChunkRows(d.chunks)
  {
    BodiesNeverCoincide(g, c, h, d);
    OperationsDiffer();
    BodyFits(hash, g, c);
    BodyFits(hash, h, d);
    var a, b := [B(OperationOf(c))] + BodyFields(g, c), [B(OperationOf(d))] + BodyFields(h, d);
    WriteInjective(BODY_DOMAIN, a, b, [FIELD] + BodyKinds(c));
    assert a[1] == b[1];
    if c.FetchCall? {
      assert a[2] == b[2];
      TextsSame(c.digests, d.digests);
    } else if c.UploadCall? {
      assert a[2] == b[2] && a[3] == b[3];
    }
  }

  lemma BodyFits(hash: Bytes -> Bytes, g: Grant, c: Call)
    requires ValidCall(hash, g, c)
    ensures FitAll([B(OperationOf(c))] + BodyFields(g, c), [FIELD] + BodyKinds(c))
  {
    match c {
      case UploadCall(chunks) => ChunksFit(chunks);
      case FetchCall(digests) => TextsFit(digests);
      case DeleteCall =>
    }
    FitEach([B(OperationOf(c))] + BodyFields(g, c), [FIELD] + BodyKinds(c));
  }

  /** No two of the byte strings in `occurring` collide. */
  ghost predicate NoCollision(hash: Bytes -> Bytes, occurring: set<Bytes>) {
    forall x, y :: x in occurring && y in occurring && hash(x) == hash(y) ==> x == y
  }

  ghost predicate Occurs(g: Grant, call: Call, occurring: set<Bytes>) {
    && GrantBytes(g) in occurring
    && BodyBytes(g, call) in occurring
    && (call.UploadCall? ==> forall i :: 0 <= i < |call.chunks| ==> call.chunks[i].ciphertext in occurring)
  }

  lemma SameUpload(hash: Bytes -> Bytes, g: Grant, a: seq<UploadChunk>, h: Grant, b: seq<UploadChunk>, occurring: set<Bytes>)
    requires ValidUpload(hash, g, a) && ValidUpload(hash, h, b) && ChunkRows(a) == ChunkRows(b)
    requires NoCollision(hash, occurring)
    requires forall i :: 0 <= i < |a| ==> a[i].ciphertext in occurring
    requires forall i :: 0 <= i < |b| ==> b[i].ciphertext in occurring
    ensures a == b
  {
    assert |ChunkRows(a)| == |ChunkRows(b)|;
    forall i | 0 <= i < |a| ensures a[i] == b[i] {
      assert ChunkRows(a)[i].cells == ChunkRows(b)[i].cells;
      assert ChunkRow(a[i]).cells[0] == ChunkRow(b[i]).cells[0];
      assert ChunkRow(a[i]).cells[1] == ChunkRow(b[i]).cells[1];
      assert GrantedChunk(hash, g, a[i]) && GrantedChunk(hash, h, b[i]);
    }
  }

  /** One capability signature, hence one request preimage, authorises one operation on one
      object list under one grant, down to the ciphertext bytes of an upload. */
  lemma SignatureCannotCross(hash: Bytes -> Bytes, occurring: set<Bytes>,
                             g: Grant, r: Request, c: Call, h: Grant, q: Request, d: Call)
    requires NoCollision(hash, occurring) && Occurs(g, c, occurring) && Occurs(h, d, occurring)
    requires Matches(hash, g, r, c) && Matches(hash, h, q, d)
    requires RequestBytes(r) == RequestBytes(q)
    ensures Signed(g) == Signed(h) && c == d
  {
    RequestInjective(r, q);
    assert ValidGrant(g) && ValidGrant(h);
    GrantInjective(g, h);
    BodyInjective(hash, g, c, h, d);
    if c.UploadCall? {
      SameUpload(hash, g, c.chunks, h, d.chunks, occurring);
    }
  }
}
