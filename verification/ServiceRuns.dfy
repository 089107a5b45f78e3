/** The authenticated store over whole runs: what a signed request can do, and what an acknowledged
    upload is worth. */
module ServiceRuns {
  import opened Foundation
  import opened AttachmentLimits
  import opened Digests
  import opened StoreModel
  import opened StoreInvariant
  import opened StoreRefinement
  import opened StoreRuns
  import opened StoreService
  import Grants

  // ------------------------------------------------------------ admitted calls are in form

  /** `name` reads digest texts as the digests of what occurs, and tells well-formed ones apart. */
  ghost predicate NamesWell(hash: Bytes -> Bytes, name: Bytes -> Digest, occurring: set<Bytes>) {
    && (forall b :: b in occurring ==> name(hash(b)) == Sha256(b))
    && (forall x :: Grants.ContentDigest(x) ==> ValidDigest(name(x)))
    && (forall x, y :: Grants.ContentDigest(x) && Grants.ContentDigest(y) && name(x) == name(y) ==> x == y)
  }

  /** The store never refuses an admitted call as out of form. */
  lemma AdmittedInForm(t: Grants.Trust, name: Bytes -> Digest, occurring: set<Bytes>, endpointKey: Option<Bytes>, g: Grants.Grant,
                       r: Grants.Request, call: Grants.Call, now: int)
    requires Grants.Admits(t, endpointKey, g, r, call, now) && NamesWell(t.hash, name, occurring)
    ensures InWindow(AccessOf(name, r), now)
    ensures var lease := LeaseOf(name, g);
            && ValidDigest(lease.manifest) && AllValid(lease.chunks) && Distinct(lease.chunks) && 1 <= |lease.chunks| <= MAX_CHUNKS
            && 0 < g.ciphertextBytes
  {
    var lease := LeaseOf(name, g);
    assert Grants.ValidGrant(g) && Grants.ValidRequest(r);
    forall i, j | 0 <= i < j < |lease.chunks| ensures lease.chunks[i] != lease.chunks[j] {
      assert Grants.ContentDigest(g.chunkDigests[i]) && Grants.ContentDigest(g.chunkDigests[j]);
    }
  }

  lemma {:induction false} SameBytes(name: Bytes -> Digest, chunks: seq<Grants.UploadChunk>)
    ensures BatchBytes(ChunksOf(name, chunks)) == Grants.SumBytes(chunks)
  {
    if chunks != [] {
      var n := |chunks| - 1;
      SameBytes(name, chunks[..n]);
      assert ChunksOf(name, chunks)[..n] == ChunksOf(name, chunks[..n]);
    }
  }

  /** An admitted upload is a batch the store accepts, quota and conflicts apart. */
  lemma AdmittedBatch(t: Grants.Trust, name: Bytes -> Digest, occurring: set<Bytes>, endpointKey: Option<Bytes>, g: Grants.Grant,
                      r: Grants.Request, chunks: seq<Grants.UploadChunk>, now: int)
    requires Grants.Admits(t, endpointKey, g, r, Grants.UploadCall(chunks), now) && NamesWell(t.hash, name, occurring)
    requires forall i :: 0 <= i < |chunks| ==> chunks[i].ciphertext in occurring
    ensures ValidBatch(ChunksOf(name, chunks))
  {
    assert Grants.ValidUpload(t.hash, g, chunks);
    var cs := ChunksOf(name, chunks);
    forall i | 0 <= i < |cs| ensures ValidChunk(cs[i]) {
      assert Grants.GrantedChunk(t.hash, g, chunks[i]);
    }
    forall i, j | 0 <= i < j < |cs| ensures DigestsOf(cs)[i] != DigestsOf(cs)[j] {
      assert Grants.GrantedChunk(t.hash, g, chunks[i]) && Grants.GrantedChunk(t.hash, g, chunks[j]);
      assert g.chunkDigests[chunks[i].index] == chunks[i].digest && g.chunkDigests[chunks[j].index] == chunks[j].digest;
    }
    SameBytes(name, chunks);
  }

  // -------------------------------------------------------------- one signature, one call

  /** A call whose request the ledger refuses changes no object and no lease. */
  lemma RefusedChangesNothing(d: Disk, q: Quota, r: AccessRequest, lease: Lease, bytes: nat, chunks: seq<Chunk>, ds: seq<Digest>,
                              stamp: int, now: int, names: seq<ClaimKey>)
    requires Lists(names, d.claims.Keys) && AuthorizeResult(d, r, now).Err?
    ensures var (out, e) := UploadOutcome(d, q, true, r, lease, bytes, chunks, stamp, now, names);
            out.Err? && e.objects == d.objects && e.leases == d.leases
    ensures var (out, e) := FetchOutcome(d, q, true, r, lease, ds, now, names);
            out.Err? && e.objects == d.objects && e.leases == d.leases
    ensures var (out, e) := DeleteOutcome(d, q, true, r, lease, now, names);
            out.Err? && e.objects == d.objects && e.leases == d.leases
  {
    AuthorizeScope(d, q, r, now, names);
  }

  lemma SameAccess(name: Bytes -> Digest, r: Grants.Request, s: Grants.Request)
    requires Grants.ValidRequest(r) && Grants.ValidRequest(s) && Grants.RequestBytes(r) == Grants.RequestBytes(s)
    ensures SameClaim(AccessOf(name, r), AccessOf(name, s))
  {
    Grants.RequestInjective(r, s);
    assert Grants.SignedRequest(r).grantDigest == Grants.SignedRequest(s).grantDigest;
  }

  /** One capability signature, hence one request preimage, drives at most one call in the whole life
      of the store: every call admitted under it is of one operation on one object list under one
      grant, and once one has been authorised all later ones are refused, at any clock reading,
      across restarts and purges. */
  lemma OneCallPerSignature(ds: seq<Disk>, moves: seq<Move>, q: Quota, i: nat, j: nat, t: Grants.Trust, name: Bytes -> Digest,
                            occurring: set<Bytes>, e: Option<Bytes>, g: Grants.Grant, r: Grants.Request, c: Grants.Call, now: int,
                            f: Option<Bytes>, h: Grants.Grant, s: Grants.Request, d: Grants.Call, later: int)
    requires Grants.NoCollision(t.hash, occurring) && Grants.Occurs(g, c, occurring) && Grants.Occurs(h, d, occurring)
    requires Grants.Admits(t, e, g, r, c, now) && Grants.Admits(t, f, h, s, d, later)
    requires Grants.RequestBytes(r) == Grants.RequestBytes(s)
    requires IsRun(ds, moves, q) && i < j < |ds| && Authorizes(ds[i], q, moves[i], AccessOf(name, r))
    ensures Grants.Signed(g) == Grants.Signed(h) && c == d
    ensures AuthorizeResult(ds[j], AccessOf(name, s), later).Err?
  {
    Grants.AdmitsMatches(t, e, g, r, c, now);
    Grants.AdmitsMatches(t, f, h, s, d, later);
    Grants.SignatureCannotCross(t.hash, occurring, g, r, c, h, s, d);
    SameAccess(name, r, s);
    AuthorizedOnce(ds, moves, q, i, j, AccessOf(name, r), AccessOf(name, s), later);
  }

  // ---------------------------------------------------------- acknowledged means fetchable

  /** The three store calls of an acknowledged upload, with other calls between them perhaps. */
  ghost predicate Acknowledged(ds: seq<Disk>, moves: seq<Move>, q: Quota, a: nat, b: nat, c: nat, r: AccessRequest, lease: Lease,
                               bytes: nat, chunks: seq<Chunk>, stamp: int, now: int)
    requires IsRun(ds, moves, q)
  {
    && a < b < c < |moves|
    && Authorizes(ds[a], q, moves[a], r)
    && moves[b] == Move(Put(chunks, stamp), |chunks|) && PutResult(ds[b], q, chunks).Ok?
    && moves[c].op == Commit(lease, bytes, now) && moves[c].cut == Steps(ds[c], q, moves[c].op)
    && CommitResult(ds[c], q, lease, bytes, now).Ok?
  }

  /** Undisturbed, those are the moves of the call itself. */
  lemma UploadMoves(ds: seq<Disk>, moves: seq<Move>, q: Quota, a: nat, r: AccessRequest, lease: Lease, bytes: nat, chunks: seq<Chunk>,
                    stamp: int, now: int, names: seq<ClaimKey>)
    requires IsRun(ds, moves, q) && a + 2 < |moves|
    requires moves[a].op == Authorize(r, now, names) && moves[a].cut == Steps(ds[a], q, moves[a].op)
    requires moves[a + 1].op == Put(chunks, stamp) && moves[a + 1].cut == Steps(ds[a + 1], q, moves[a + 1].op)
    requires moves[a + 2].op == Commit(lease, bytes, now) && moves[a + 2].cut == Steps(ds[a + 2], q, moves[a + 2].op)
    ensures var (out, e) := UploadOutcome(ds[a], q, true, r, lease, bytes, chunks, stamp, now, names);
            out.Ok? && out.value.Some? ==>
              e == ds[a + 3] && Acknowledged(ds, moves, q, a, a + 1, a + 2, r, lease, bytes, chunks, stamp, now)
  {
    RunTakes(ds, moves, q, a);
    RunTakes(ds, moves, q, a + 1);
    RunTakes(ds, moves, q, a + 2);
  }

  lemma FetchHeld(d: Disk, q: Quota, r: AccessRequest, lease: Lease, now: int, names: seq<ClaimKey>)
    requires Inv(d, q) && Stored(d, lease) && ValidFetch(lease.manifest, lease.chunks, now) && Unix(now) < lease.expires
    requires Lists(names, d.claims.Keys) && AuthorizeResult(d, r, now).Ok?
    ensures FetchOutcome(d, q, true, r, lease, lease.chunks, now, names).0 == Ok(WholeManifest(lease.chunks))
  {
    AuthorizeScope(d, q, r, now, names);
    AfterKeeps(d, q, Authorize(r, now, names), Steps(d, q, Authorize(r, now, names)));
    FetchWhole(Authorized(d, q, r, now, names), q, lease, now);
  }

  /** After an acknowledged upload, every later freshly authorised fetch of the manifest before its
      expiry returns exactly the granted ciphertexts, each in its place, unless a move deleted the
      lease or collected it after its expiry. */
  lemma UploadedThenFetched(ds: seq<Disk>, moves: seq<Move>, q: Quota, a: nat, b: nat, c: nat, r: AccessRequest, lease: Lease, bytes: nat,
                            chunks: seq<Chunk>, stamp: int, now: int, j: nat, s: AccessRequest, later: int, names: seq<ClaimKey>)
    requires IsRun(ds, moves, q) && Acknowledged(ds, moves, q, a, b, c, r, lease, bytes, chunks, stamp, now) && c < j < |ds|
    requires forall k :: c < k < j ==> !Loses(ds[k], moves[k], lease)
    requires 0 <= Unix(later) < lease.expires && Lists(names, ds[j].claims.Keys) && AuthorizeResult(ds[j], s, later).Ok?
    ensures |lease.chunks| <= MAX_CHUNKS
    ensures FetchOutcome(ds[j], q, true, s, lease, lease.chunks, later, names).0 == Ok(WholeManifest(lease.chunks))
    ensures forall i :: 0 <= i < |lease.chunks| ==>
              lease.chunks[i] == Sha256(WholeManifest(lease.chunks)[i].ciphertext) && WholeManifest(lease.chunks)[i].index == i
  {
    RunTakes(ds, moves, q, c);
    CommitStores(ds[c], q, moves[c], ds[c + 1]);
    StaysStored(ds, moves, q, c + 1, j, lease);
    RunInv(ds, moves, q, j);
    FetchHeld(ds[j], q, s, lease, later, names);
    WholeHashes(lease.chunks);
  }

  lemma WholeHashes(ds: seq<Digest>)
    requires |ds| <= MAX_CHUNKS && AllValid(ds)
    ensures forall i :: 0 <= i < |ds| ==> ds[i] == Sha256(WholeManifest(ds)[i].ciphertext) && WholeManifest(ds)[i].index == i
  {
    forall i | 0 <= i < |ds| ensures ds[i] == Sha256(WholeManifest(ds)[i].ciphertext) && WholeManifest(ds)[i].index == i {
      assert ds[i] in ds;
      assert Preimages(ds)[i] == ds[i].preimage;
    }
  }
}
