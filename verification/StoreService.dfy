/** AuthenticatedStore.Upload, Fetch and Delete (pkg/attachments/remote_auth.go): the calls a
    signed request drives on the mutable store, behind the verification of Grants.  `name` is the
    digest a digest text stands for in the store. */
module StoreService {
  import opened Foundation
  import opened AttachmentLimits
  import opened Digests
  import opened StoreModel
  import opened StoreInvariant
  import opened StoreRuns
  import opened StoreMachine
  import Grants
  import GrantMachine

  /** Every disk recorded after `was` is sound: so is the disk a crash at any point leaves. */
  ghost predicate SoundSince(h: seq<Disk>, was: seq<Disk>, q: Quota) {
    var holds := was <= h && forall k :: |was| <= k < |h| ==> Inv(h[k], q);
    holds
  }

  lemma SoundThen(h: seq<Disk>, mid: seq<Disk>, was: seq<Disk>, q: Quota)
    requires SoundSince(mid, was, q) && SoundSince(h, mid, q)
    ensures SoundSince(h, was, q)
  {
    forall k | |was| <= k < |h| ensures Inv(h[k], q) {
      if k < |mid| { assert h[k] == mid[k]; }
    }
  }

  /** The disk after each file operation of a call is sound. */
  ghost predicate EachSound(d: Disk, q: Quota, op: StoreModel.Operation) {
    var holds := forall n :: 1 <= n <= Steps(d, q, op) ==> Inv(After(d, q, op, n), q);
    holds
  }

  lemma CallEachSound(d: Disk, q: Quota, op: StoreModel.Operation)
    requires Inv(d, q) && Listed(d, op)
    ensures EachSound(d, q, op)
  {
    forall n | 1 <= n <= Steps(d, q, op) ensures Inv(After(d, q, op, n), q) {
      AfterKeeps(d, q, op, n);
    }
  }

  lemma TraceSound(h: seq<Disk>, was: seq<Disk>, d: Disk, q: Quota, op: StoreModel.Operation)
    requires TracedIn(h, was, d, q, op) && EachSound(d, q, op)
    ensures SoundSince(h, was, q)
  {
    assert h == h[..|was|] + h[|was|..];
    forall k | |was| <= k < |h| ensures Inv(h[k], q) {
      assert h[k] == After(d, q, op, k - |was| + 1);
    }
  }

  lemma CallSound(h: seq<Disk>, was: seq<Disk>, d: Disk, q: Quota, op: StoreModel.Operation)
    requires TracedIn(h, was, d, q, op) && Inv(d, q) && Listed(d, op)
    ensures SoundSince(h, was, q)
    ensures Inv(After(d, q, op, Steps(d, q, op)), q)
  {
    AfterKeeps(d, q, op, Steps(d, q, op));
    CallEachSound(d, q, op);
    TraceSound(h, was, d, q, op);
  }

  lemma CommitHeld(d: Disk, q: Quota, lease: Lease, bytes: nat, now: int)
    requires CommitResult(d, q, lease, bytes, now).Ok?
    ensures Stored(After(d, q, Commit(lease, bytes, now), Steps(d, q, Commit(lease, bytes, now))), lease)
    ensures ValidDigest(lease.manifest) && AllValid(lease.chunks) && Distinct(lease.chunks)
    ensures 1 <= |lease.chunks| <= MAX_CHUNKS
  {
  }

  /** Authorising touches no object and no lease. */
  lemma AuthorizeScope(d: Disk, q: Quota, r: AccessRequest, now: int, names: seq<ClaimKey>)
    requires Lists(names, d.claims.Keys)
    ensures var op := StoreModel.Operation.Authorize(r, now, names); var e := After(d, q, op, Steps(d, q, op));
            e.objects == d.objects && e.leases == d.leases
  {
  }

  lemma PutScope(d: Disk, q: Quota, chunks: seq<Chunk>, stamp: int)
    ensures var op := Put(chunks, stamp); After(d, q, op, Steps(d, q, op)).leases == d.leases
  {
    if PutResult(d, q, chunks).Ok? {
      PutsLeases(d, chunks, stamp);
      assert chunks[..|chunks|] == chunks;
    }
  }

  // --------------------------------------------------------------------- what is asked for

  /** Digest texts, each as the digest it stands for. */
  function NamesOf(name: Bytes -> Digest, texts: seq<Bytes>): (ds: seq<Digest>)
    ensures |ds| == |texts|
  {
    seq(|texts|, i requires 0 <= i < |texts| => name(texts[i]))
  }

  /** The lease a grant binds. */
  function LeaseOf(name: Bytes -> Digest, g: Grants.Grant): Lease {
    Lease(name(g.manifest), NamesOf(name, g.chunkDigests), g.retainUntil)
  }

  function ChunksOf(name: Bytes -> Digest, chunks: seq<Grants.UploadChunk>): (cs: seq<Chunk>)
    ensures |cs| == |chunks|
  {
    seq(|chunks|, i requires 0 <= i < |chunks| => Chunk(chunks[i].index, name(chunks[i].digest), chunks[i].ciphertext))
  }

  /** What the replay ledger sees of a request. */
  function AccessOf(name: Bytes -> Digest, r: Grants.Request): AccessRequest {
    AccessRequest(name(r.grantDigest), r.nonce, name(r.bodyDigest), r.issuedAt, r.expiresAt, r.signature)
  }

  // ------------------------------------------------------------------------ what is answered

  /** The disk after a whole call. */
  ghost function Done(d: Disk, q: Quota, op: StoreModel.Operation): Disk {
    After(d, q, op, Steps(d, q, op))
  }

  ghost function Authorized(d: Disk, q: Quota, r: AccessRequest, now: int, names: seq<ClaimKey>): Disk {
    Done(d, q, StoreModel.Operation.Authorize(r, now, names))
  }

  /** Commit's part of an upload: missing objects are no error. */
  function CommitAnswer(committed: Result<bool, Error>): Result<Option<bool>, Error> {
    match committed
    case Ok(created) => Ok(Some(created))
    case Err(NotFound) => Ok(None)
    case Err(e) => Err(e)
  }

  /** Upload's answer and the disk it leaves.  Ok(None) is an upload still lacking objects;
      Ok(Some(created)) is what a StoredAck reports. */
  ghost function UploadOutcome(d: Disk, q: Quota, admitted: bool, r: AccessRequest, lease: Lease, bytes: nat,
                               chunks: seq<Chunk>, stamp: int, now: int, names: seq<ClaimKey>)
    : (Result<Option<bool>, Error>, Disk)
  {
    if !admitted then (Err(Invalid), d)
    else
      var d1 := Authorized(d, q, r, now, names);
      match AuthorizeResult(d, r, now)
      case Err(e) => (Err(e), d1)
      case Ok(_) =>
        var d2 := Done(d1, q, Put(chunks, stamp));
        match PutResult(d1, q, chunks)
        case Err(e) => (Err(e), d2)
        case Ok(_) =>
          (CommitAnswer(CommitResult(d2, q, lease, bytes, now)), Done(d2, q, Commit(lease, bytes, now)))
  }

  ghost function FetchOutcome(d: Disk, q: Quota, admitted: bool, r: AccessRequest, lease: Lease,
                              ds: seq<Digest>, now: int, names: seq<ClaimKey>): (Result<seq<Chunk>, Error>, Disk)
  {
    if !admitted then (Err(Invalid), d)
    else
      var d1 := Authorized(d, q, r, now, names);
      match AuthorizeResult(d, r, now)
      case Err(e) => (Err(e), d1)
      case Ok(_) =>
        match Fetch(d1, lease.manifest, ds, now)
        case Err(e) => (Err(e), d1)
        case Ok((chunks, expires)) => (if expires == lease.expires then Ok(chunks) else Err(Conflict), d1)
  }

  ghost function DeleteOutcome(d: Disk, q: Quota, admitted: bool, r: AccessRequest, lease: Lease,
                               now: int, names: seq<ClaimKey>): (Result<bool, Error>, Disk)
  {
    if !admitted then (Err(Invalid), d)
    else
      var d1 := Authorized(d, q, r, now, names);
      match AuthorizeResult(d, r, now)
      case Err(e) => (Err(e), d1)
      case Ok(_) => (DeleteResult(d1, lease.manifest), Done(d1, q, Remove(lease.manifest)))
  }

  // ----------------------------------------------------------------------------- the calls

  /** One call of the store, with every disk on its way sound. */
  method AuthorizeCall(store: Store, r: AccessRequest, now: int, names: seq<ClaimKey>) returns (out: Result<(), Error>)
    requires Lists(names, store.claims.Keys) && Inv(store.Value(), store.quota)
    modifies store
    ensures out == AuthorizeResult(old(store.Value()), r, now)
    ensures store.Value() == Authorized(old(store.Value()), store.quota, r, now, names)
    ensures Inv(store.Value(), store.quota) && SoundSince(store.history, old(store.history), store.quota)
  {
    ghost var d := store.Value();
    out := store.Authorize(r, now, names);
    CallSound(store.history, old(store.history), d, store.quota, StoreModel.Operation.Authorize(r, now, names));
  }

  method PutCall(store: Store, chunks: seq<Chunk>, stamp: int) returns (out: Result<nat, Error>)
    requires Inv(store.Value(), store.quota)
    modifies store
    ensures out == PutResult(old(store.Value()), store.quota, chunks)
    ensures store.Value() == Done(old(store.Value()), store.quota, Put(chunks, stamp))
    ensures Inv(store.Value(), store.quota) && SoundSince(store.history, old(store.history), store.quota)
  {
    ghost var d := store.Value();
    out := store.PutObjects(chunks, stamp);
    CallSound(store.history, old(store.history), d, store.quota, Put(chunks, stamp));
  }

  method CommitCall(store: Store, lease: Lease, bytes: nat, now: int) returns (out: Result<bool, Error>)
    requires Inv(store.Value(), store.quota)
    modifies store
    ensures out == CommitResult(old(store.Value()), store.quota, lease, bytes, now)
    ensures store.Value() == Done(old(store.Value()), store.quota, Commit(lease, bytes, now))
    ensures Inv(store.Value(), store.quota) && SoundSince(store.history, old(store.history), store.quota)
  {
    ghost var d := store.Value();
    out := store.CommitOpaque(lease, bytes, now);
    CallSound(store.history, old(store.history), d, store.quota, Commit(lease, bytes, now));
  }

  method Upload(store: Store, t: Grants.Trust, name: Bytes -> Digest, endpointKey: Option<Bytes>, g: Grants.Grant, r: Grants.Request,
                chunks: seq<Grants.UploadChunk>, stamp: int, now: int, names: seq<ClaimKey>) returns (out: Result<Option<bool>, Error>)
    requires Lists(names, store.claims.Keys) && Inv(store.Value(), store.quota)
    modifies store
    ensures (out, store.Value()) == UploadOutcome(old(store.Value()), store.quota,
              Grants.Admits(t, endpointKey, g, r, Grants.UploadCall(chunks), now), AccessOf(name, r),
              LeaseOf(name, g), g.ciphertextBytes, ChunksOf(name, chunks), stamp, now, names)
    ensures Inv(store.Value(), store.quota) && SoundSince(store.history, old(store.history), store.quota)
  {
    var admitted := GrantMachine.Admit(t, endpointKey, g, r, Grants.UploadCall(chunks), now);
    if !admitted {
      SoundNow(store.history, store.quota);
      return Err(Invalid);
    }
    var authorized := AuthorizeCall(store, AccessOf(name, r), now, names);
    if authorized.Err? {
      return Err(authorized.error);
    }
    ghost var h1 := store.history;
    var put := PutCall(store, ChunksOf(name, chunks), stamp);
    SoundThen(store.history, h1, old(store.history), store.quota);
    if put.Err? {
      return Err(put.error);
    }
    ghost var h2 := store.history;
    var committed := CommitCall(store, LeaseOf(name, g), g.ciphertextBytes, now);
    SoundThen(store.history, h2, old(store.history), store.quota);
    out := CommitAnswer(committed);
  }

  method FetchLease(store: Store, t: Grants.Trust, name: Bytes -> Digest, endpointKey: Option<Bytes>, g: Grants.Grant, r: Grants.Request,
                    digests: seq<Bytes>, now: int, names: seq<ClaimKey>) returns (out: Result<seq<Chunk>, Error>)
    requires Lists(names, store.claims.Keys) && Inv(store.Value(), store.quota)
    modifies store
    ensures (out, store.Value()) == FetchOutcome(old(store.Value()), store.quota,
              Grants.Admits(t, endpointKey, g, r, Grants.FetchCall(digests), now), AccessOf(name, r),
              LeaseOf(name, g), NamesOf(name, digests), now, names)
    ensures Inv(store.Value(), store.quota) && SoundSince(store.history, old(store.history), store.quota)
  {
    var admitted := GrantMachine.Admit(t, endpointKey, g, r, Grants.FetchCall(digests), now);
    if !admitted {
      SoundNow(store.history, store.quota);
      return Err(Invalid);
    }
    var authorized := AuthorizeCall(store, AccessOf(name, r), now, names);
    if authorized.Err? {
      return Err(authorized.error);
    }
    var lease := LeaseOf(name, g);
    var got := store.FetchOpaque(lease.manifest, NamesOf(name, digests), now);
    if got.Err? {
      return Err(got.error);
    }
    out := if got.value.1 == lease.expires then Ok(got.value.0) else Err(Conflict);
  }

  method DeleteLease(store: Store, t: Grants.Trust, name: Bytes -> Digest, endpointKey: Option<Bytes>, g: Grants.Grant, r: Grants.Request,
                     now: int, names: seq<ClaimKey>) returns (out: Result<bool, Error>)
    requires Lists(names, store.claims.Keys) && Inv(store.Value(), store.quota)
    modifies store
    ensures (out, store.Value()) == DeleteOutcome(old(store.Value()), store.quota,
              Grants.Admits(t, endpointKey, g, r, Grants.DeleteCall, now), AccessOf(name, r), LeaseOf(name, g), now, names)
    ensures Inv(store.Value(), store.quota) && SoundSince(store.history, old(store.history), store.quota)
  {
    var admitted := GrantMachine.Admit(t, endpointKey, g, r, Grants.DeleteCall, now);
    if !admitted {
      SoundNow(store.history, store.quota);
      return Err(Invalid);
    }
    var authorized := AuthorizeCall(store, AccessOf(name, r), now, names);
    if authorized.Err? {
      return Err(authorized.error);
    }
    ghost var d, h, manifest := store.Value(), store.history, LeaseOf(name, g).manifest;
    out := store.Delete(LeaseOf(name, g).manifest);
    CallSound(store.history, h, d, store.quota, Remove(manifest));
    SoundThen(store.history, h, old(store.history), store.quota);
  }

  lemma SoundNow(h: seq<Disk>, q: Quota)
    ensures SoundSince(h, h, q)
  {
  }

  // ------------------------------------------------------------------- what the answers mean

  /** Until its expiry the whole manifest can be fetched, each chunk in place, byte for byte. */
  ghost predicate Fetchable(d: Disk, lease: Lease) {
    && |lease.chunks| <= MAX_CHUNKS
    && forall t :: 0 <= Unix(t) < lease.expires ==>
         Fetch(d, lease.manifest, lease.chunks, t) == Ok((WholeManifest(lease.chunks), lease.expires))
  }

  lemma HeldFetchable(d: Disk, q: Quota, lease: Lease)
    requires Inv(d, q) && Stored(d, lease)
    requires ValidDigest(lease.manifest) && AllValid(lease.chunks) && Distinct(lease.chunks)
    requires 1 <= |lease.chunks| <= MAX_CHUNKS
    ensures Fetchable(d, lease)
  {
    forall t | 0 <= Unix(t) < lease.expires
      ensures Fetch(d, lease.manifest, lease.chunks, t) == Ok((WholeManifest(lease.chunks), lease.expires))
    {
      FetchWhole(d, q, lease, t);
    }
  }

  lemma CommitStored(d: Disk, q: Quota, lease: Lease, bytes: nat, now: int)
    requires Inv(d, q)
    ensures var e := Done(d, q, Commit(lease, bytes, now));
            && (CommitResult(d, q, lease, bytes, now).Err? ==> e == d)
            && (CommitResult(d, q, lease, bytes, now).Ok? ==>
                  e.leases == d.leases[lease.manifest := lease] && Fetchable(e, lease)
                  && CommitResult(d, q, lease, bytes, now).value == (lease.manifest !in d.leases))
  {
    var e := Done(d, q, Commit(lease, bytes, now));
    AfterKeeps(d, q, Commit(lease, bytes, now), Steps(d, q, Commit(lease, bytes, now)));
    if CommitResult(d, q, lease, bytes, now).Ok? {
      CommitHeld(d, q, lease, bytes, now);
      HeldFetchable(e, q, lease);
      assert e.leases == d.leases[lease.manifest := lease];
    }
  }

  /** Upload reports a stored lease only when it is then whole and fetchable; otherwise no lease
      changed, and a request that is refused or out of form changed no object either. */
  lemma UploadMeans(d: Disk, q: Quota, admitted: bool, r: AccessRequest, lease: Lease, bytes: nat, chunks: seq<Chunk>, stamp: int,
                    now: int, names: seq<ClaimKey>)
    requires Inv(d, q) && Lists(names, d.claims.Keys)
    ensures var (out, e) := UploadOutcome(d, q, admitted, r, lease, bytes, chunks, stamp, now, names);
            && (out.Ok? && out.value.Some? ==>
                  e.leases == d.leases[lease.manifest := lease] && out.value.value == (lease.manifest !in d.leases) && Fetchable(e, lease))
            && (!(out.Ok? && out.value.Some?) ==> e.leases == d.leases)
            && (!admitted || AuthorizeResult(d, r, now).Err? ==> out.Err? && e.objects == d.objects)
  {
    AuthorizeScope(d, q, r, now, names);
    var d1 := Authorized(d, q, r, now, names);
    AfterKeeps(d, q, StoreModel.Operation.Authorize(r, now, names), Steps(d, q, StoreModel.Operation.Authorize(r, now, names)));
    PutScope(d1, q, chunks, stamp);
    AfterKeeps(d1, q, Put(chunks, stamp), Steps(d1, q, Put(chunks, stamp)));
    CommitStored(Done(d1, q, Put(chunks, stamp)), q, lease, bytes, now);
  }
}
