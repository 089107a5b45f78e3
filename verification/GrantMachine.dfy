/** The validation and append loops of pkg/attachments/remote_auth.go, proved to compute the
    predicates and preimages of Grants. */
module GrantMachine {
  import opened Foundation
  import opened AttachmentLimits
  import opened Canon
  import opened Grants

  // ------------------------------------------------------------------------ validateGrant

  method ValidateChunks(digests: seq<Bytes>) returns (ok: bool)
    ensures ok <==> ValidChunks(digests)
  {
    for i := 0 to |digests|
      invariant forall j :: 0 <= j < i ==> ContentDigest(digests[j])
    {
      if !ContentDigest(digests[i]) {
        return false;
      }
    }
    ok := AllDistinct(digests);
  }

  method ValidateOperations(operations: seq<Bytes>) returns (ok: bool)
    ensures ok <==> ValidOperations(operations)
  {
    for i := 0 to |operations|
      invariant forall j :: 0 <= j < i ==> OperationAt(operations, j)
    {
      if !OperationAt(operations, i) {
        return false;
      }
    }
    ok := true;
  }

  method ValidateGrant(g: Grant) returns (ok: bool)
    ensures ok <==> ValidGrant(g)
  {
    if !ValidScalars(g) {
      return false;
    }
    var chunks := ValidateChunks(g.chunkDigests);
    var operations := ValidateOperations(g.operations);
    ok := chunks && operations && Key(g.storageKey) && Key(g.capabilityKey);
  }

  // ------------------------------------------------------------------------ append loops

  lemma {:induction false} WriteConcat(us: seq<Value>, vs: seq<Value>)
    ensures WriteAll(us + vs) == WriteAll(us) + WriteAll(vs)
  {
    if us == [] {
      assert us + vs == vs;
    } else {
      assert (us + vs)[1..] == us[1..] + vs;
      WriteConcat(us[1..], vs);
    }
  }

  lemma {:induction false} RowsSnoc(rows: seq<Row>, row: Row)
    ensures WriteRows(rows + [row]) == WriteRows(rows) + WriteAll(row.cells)
  {
    if rows == [] {
      assert rows + [row] == [row] && [row][1..] == [];
    } else {
      assert (rows + [row])[1..] == rows[1..] + [row];
      RowsSnoc(rows[1..], row);
    }
  }

  lemma WriteOne(v: Value)
    ensures WriteAll([v]) == Write(v)
  {
    assert [v][1..] == [];
  }

  lemma Regroup(a: Bytes, b: Bytes, c: Bytes)
    ensures (a + b) + c == a + (b + c)
  {
  }

  method AppendRows(b: Bytes, rows: seq<Row>) returns (r: Bytes)
    ensures r == b + WriteRows(rows)
  {
    r := b;
    for i := 0 to |rows|
      invariant r == b + WriteRows(rows[..i])
    {
      assert rows[..i + 1] == rows[..i] + [rows[i]];
      RowsSnoc(rows[..i], rows[i]);
      Regroup(b, WriteRows(rows[..i]), WriteAll(rows[i].cells));
      r := r + WriteAll(rows[i].cells);
    }
    assert rows[..|rows|] == rows;
  }

  /** A count followed by that many rows. */
  method AppendList(b: Bytes, rows: seq<Row>) returns (r: Bytes)
    ensures r == b + WriteAll([Rows(rows)])
  {
    var count := Size(|rows|, 4);
    r := AppendRows(b + count, rows);
    Regroup(b, count, WriteRows(rows));
    WriteOne(Rows(rows));
  }

  function GrantHead(g: Grant): seq<Value> {
    [B(GRANT_SCHEMA), B(g.network), H(g.genesisRoot), H(g.genesisFile), B(g.agent), B(g.endpoint),
     B(g.storageKey), B(g.capabilityKey), B(g.manifest)]
  }

  method GrantCanonicalBytes(g: Grant) returns (r: Option<Bytes>)
    ensures r == if ValidGrant(g) then Some(GrantBytes(g)) else None
  {
    var ok := ValidateGrant(g);
    if !ok {
      return None;
    }
    var b := GRANT_DOMAIN + WriteAll(GrantHead(g));
    b := AppendList(b, TextRows(g.chunkDigests));
    b := b + WriteAll([N64(g.ciphertextBytes), N64(g.retainUntil)]);
    b := AppendList(b, TextRows(g.operations));
    b := b + WriteAll([N64(g.issuedAt), N64(g.expiresAt)]);
    GrantParts(g);
    r := Some(b);
  }

  lemma GrantParts(g: Grant)
    ensures GrantBytes(g) == GRANT_DOMAIN + WriteAll(GrantHead(g)) + WriteAll([Rows(TextRows(g.chunkDigests))])
                             + WriteAll([N64(g.ciphertextBytes), N64(g.retainUntil)])
                             + WriteAll([Rows(TextRows(g.operations))]) + WriteAll([N64(g.issuedAt), N64(g.expiresAt)])
  {
    var chunks, operations := [Rows(TextRows(g.chunkDigests))], [Rows(TextRows(g.operations))];
    var middle, tail := [N64(g.ciphertextBytes), N64(g.retainUntil)], [N64(g.issuedAt), N64(g.expiresAt)];
    assert GrantFields(g) == GrantHead(g) + chunks + middle + operations + tail;
    FiveParts(GRANT_DOMAIN, GrantHead(g), chunks, middle, operations, tail);
  }

  lemma Extend(b: Bytes, us: seq<Value>, vs: seq<Value>)
    ensures b + WriteAll(us + vs) == b + WriteAll(us) + WriteAll(vs)
  {
    WriteConcat(us, vs);
    Regroup(b, WriteAll(us), WriteAll(vs));
  }

  lemma FiveParts(b: Bytes, p: seq<Value>, q: seq<Value>, r: seq<Value>, s: seq<Value>, t: seq<Value>)
    ensures b + WriteAll(p + q + r + s + t) == b + WriteAll(p) + WriteAll(q) + WriteAll(r) + WriteAll(s) + WriteAll(t)
  {
    Extend(b, p, q);
    Extend(b, p + q, r);
    Extend(b, p + q + r, s);
    Extend(b, p + q + r + s, t);
  }

  // -------------------------------------------------------------------- operation bodies

  /** `positions` says where each granted digest stands. */
  ghost predicate Locates(positions: map<Bytes, nat>, digests: seq<Bytes>) {
    && (forall d :: d in positions ==> positions[d] < |digests| && digests[positions[d]] == d)
    && (forall i :: 0 <= i < |digests| ==> digests[i] in positions && positions[digests[i]] == i)
  }

  method Positions(digests: seq<Bytes>) returns (positions: map<Bytes, nat>)
    requires Distinct(digests)
    ensures Locates(positions, digests)
  {
    positions := map[];
    for i := 0 to |digests|
      invariant Locates(positions, digests[..i])
    {
      positions := positions[digests[i] := i];
    }
    assert digests[..|digests|] == digests;
  }

  method AdmitChunk(hash: Bytes -> Bytes, g: Grant, c: UploadChunk, positions: map<Bytes, nat>) returns (ok: bool)
    requires Locates(positions, g.chunkDigests)
    ensures ok <==> GrantedChunk(hash, g, c)
  {
    ok := c.digest in positions && c.index == positions[c.digest]
          && TAG_BYTES < |c.ciphertext| <= MAX_CHUNK_BYTES + TAG_BYTES && hash(c.ciphertext) == c.digest;
  }

  function DigestsBefore(chunks: seq<UploadChunk>, n: nat): set<Bytes>
    requires n <= |chunks|
  {
    set j | 0 <= j < n :: chunks[j].digest
  }

  /** The chunks before position n are granted, and none repeats an earlier one. */
  ghost predicate AcceptedTo(hash: Bytes -> Bytes, g: Grant, chunks: seq<UploadChunk>, n: nat)
    requires n <= |chunks|
  {
    forall i :: 0 <= i < n ==> GrantedChunk(hash, g, chunks[i]) && chunks[i].digest !in DigestsBefore(chunks, i)
  }

  lemma AcceptedAll(hash: Bytes -> Bytes, g: Grant, chunks: seq<UploadChunk>)
    requires ValidGrant(g) && 0 < |chunks| <= |g.chunkDigests|
    ensures ValidUpload(hash, g, chunks) <==> AcceptedTo(hash, g, chunks, |chunks|) && SumBytes(chunks) <= g.ciphertextBytes
  {
    if AcceptedTo(hash, g, chunks, |chunks|) {
      forall i, j | 0 <= i < j < |chunks| ensures chunks[i].digest != chunks[j].digest {
        assert chunks[j].digest !in DigestsBefore(chunks, j);
      }
    }
  }

  /** The scan that walks the chunks with a set of digests met so far. */
  method ScanChunks(hash: Bytes -> Bytes, g: Grant, chunks: seq<UploadChunk>) returns (total: Option<nat>)
    requires Distinct(g.chunkDigests)
    ensures total == if AcceptedTo(hash, g, chunks, |chunks|) then Some(SumBytes(chunks)) else None
  {
    var positions := Positions(g.chunkDigests);
    var seen: set<Bytes> := {};
    var sum := 0;
    for i := 0 to |chunks|
      invariant AcceptedTo(hash, g, chunks, i)
      invariant seen == DigestsBefore(chunks, i)
      invariant sum == SumBytes(chunks[..i])
    {
      var granted := AdmitChunk(hash, g, chunks[i], positions);
      if !granted || chunks[i].digest in seen {
        return None;
      }
      seen := seen + {chunks[i].digest};
      assert chunks[..i + 1][..i] == chunks[..i];
      sum := sum + |chunks[i].ciphertext|;
    }
    assert chunks[..|chunks|] == chunks;
    total := Some(sum);
  }

  /** UploadBodyDigest's checks: each chunk in its granted position, none twice, within the total. */
  method AdmitUpload(hash: Bytes -> Bytes, g: Grant, chunks: seq<UploadChunk>) returns (ok: bool)
    ensures ok <==> ValidUpload(hash, g, chunks)
  {
    ok := ValidateGrant(g);
    if !ok || |chunks| == 0 || |chunks| > |g.chunkDigests| {
      return false;
    }
    var total := ScanChunks(hash, g, chunks);
    AcceptedAll(hash, g, chunks);
    ok := total.Some? && total.value <= g.ciphertextBytes;
  }

  method UploadBody(hash: Bytes -> Bytes, g: Grant, chunks: seq<UploadChunk>) returns (r: Option<Bytes>)
    ensures r == if ValidUpload(hash, g, chunks) then Some(BodyBytes(g, UploadCall(chunks))) else None
  {
    var ok := AdmitUpload(hash, g, chunks);
    if !ok {
      return None;
    }
    var b := AppendList(BODY_DOMAIN + WriteAll([B(UPLOAD), B(g.manifest), N64(g.retainUntil)]), ChunkRows(chunks));
    BodyParts(g, UploadCall(chunks), [B(UPLOAD), B(g.manifest), N64(g.retainUntil)], [Rows(ChunkRows(chunks))]);
    r := Some(b);
  }

  lemma BodyParts(g: Grant, c: Call, head: seq<Value>, list: seq<Value>)
    requires [B(OperationOf(c))] + BodyFields(g, c) == head + list
    ensures BodyBytes(g, c) == BODY_DOMAIN + WriteAll(head) + WriteAll(list)
  {
    WriteConcat(head, list);
    Regroup(BODY_DOMAIN, WriteAll(head), WriteAll(list));
  }

  method AdmitFetch(g: Grant, digests: seq<Bytes>) returns (ok: bool)
    ensures ok <==> ValidFetch(g, digests)
  {
    ok := ValidateGrant(g);
    if !ok || |digests| == 0 || |digests| > MAX_CHUNKS {
      return false;
    }
    for i := 0 to |digests|
      invariant forall j :: 0 <= j < i ==> digests[j] in g.chunkDigests
    {
      if digests[i] !in g.chunkDigests {
        return false;
      }
    }
    ok := AllDistinct(digests);
  }

  method FetchBody(g: Grant, digests: seq<Bytes>) returns (r: Option<Bytes>)
    ensures r == if ValidFetch(g, digests) then Some(BodyBytes(g, FetchCall(digests))) else None
  {
    var ok := AdmitFetch(g, digests);
    if !ok {
      return None;
    }
    var b := AppendList(BODY_DOMAIN + WriteAll([B(FETCH), B(g.manifest)]), TextRows(digests));
    BodyParts(g, FetchCall(digests), [B(FETCH), B(g.manifest)], [Rows(TextRows(digests))]);
    r := Some(b);
  }

  /** The body of any call, for admissible ones only. */
  method CallBody(hash: Bytes -> Bytes, g: Grant, call: Call) returns (r: Option<Bytes>)
    ensures r == if ValidCall(hash, g, call) then Some(BodyBytes(g, call)) else None
  {
    match call
    case UploadCall(chunks) => r := UploadBody(hash, g, chunks);
    case FetchCall(digests) => r := FetchBody(g, digests);
    case DeleteCall =>
      var ok := ValidateGrant(g);
      r := if ok then Some(BodyBytes(g, DeleteCall)) else None;
  }

  // ------------------------------------------------------------------------ authorisation

  method VerifyGrant(t: Trust, endpointKey: Bytes, g: Grant, now: int) returns (ok: bool)
    ensures ok <==> GrantVerified(t, endpointKey, g, now)
  {
    var preimage := GrantCanonicalBytes(g);
    if preimage.None? || !Key(endpointKey) || !Key(t.storageKey) || g.storageKey != t.storageKey || !KeysApart(g, endpointKey) {
      return false;
    }
    if Unix(now) < 0 || Unix(now) < g.issuedAt || Unix(now) >= g.expiresAt {
      return false;
    }
    ok := SignedBy(t, endpointKey, preimage.value, g.signature);
  }

  method VerifyAccessRequest(t: Trust, g: Grant, r: Request, expected: Bytes, bodyDigest: Bytes, now: int) returns (ok: bool)
    ensures ok <==> RequestVerified(t, g, r, expected, bodyDigest, now)
  {
    var preimage := GrantCanonicalBytes(g);
    if preimage.None? || !ValidRequest(r) {
      return false;
    }
    if r.grantDigest != t.hash(preimage.value) || r.operation != expected || r.bodyDigest != bodyDigest {
      return false;
    }
    if expected !in g.operations || !RequestInWindow(g, r, now) {
      return false;
    }
    ok := SignedBy(t, g.capabilityKey, RequestBytes(r), r.signature);
  }

  /** authorize, up to the claim: `endpointKey` is what the finalized authority resolved. */
  method Admit(t: Trust, endpointKey: Option<Bytes>, g: Grant, r: Request, call: Call, now: int) returns (ok: bool)
    ensures ok <==> Admits(t, endpointKey, g, r, call, now)
  {
    var body := CallBody(t.hash, g, call);
    if body.None? || endpointKey.None? {
      return false;
    }
    ok := VerifyGrant(t, endpointKey.value, g, now);
    if ok {
      ok := VerifyAccessRequest(t, g, r, OperationOf(call), t.hash(body.value), now);
    }
  }
}
