/** The ciphertext store of pkg/attachments: what is on disk, and which file operations each
    call performs, in order.  A crash leaves the disk after some prefix of them. */
module StoreModel {
  import opened Foundation
  import opened AttachmentLimits
  import opened Digests

  const MAX_ACCESS_CLAIMS: nat := 100000
  const MAX_GRACE: nat := 24 * 3600 * SECOND

  datatype Chunk = Chunk(index: Uint32, digest: Digest, ciphertext: Bytes)

  datatype Lease = Lease(manifest: Digest, chunks: seq<Digest>, expires: nat)

  datatype Object = Object(content: Bytes, modified: int)

  /** A claimed access request is filed under its grant and nonce. */
  datatype ClaimKey = ClaimKey(grant: Digest, nonce: Bytes)

  datatype Disk = Disk(
    objects: map<Digest, Object>,
    leases: map<Digest, Lease>,
    claims: map<ClaimKey, nat>,
    clock: Option<nat>)

  datatype Quota = Quota(maxLeases: nat, maxObjects: nat, maxBytes: nat, maxRetention: nat)

  datatype Error = Invalid | OverQuota | Conflict | NotFound | Outside | Corrupt | Replay | Rollback

  predicate HashOk(objects: map<Digest, Object>, d: Digest) {
    d in objects && d == Sha256(objects[d].content)
  }

  predicate AllHashOk(objects: map<Digest, Object>) {
    forall d :: d in objects ==> HashOk(objects, d)
  }

  /** Bytes held by a set of objects. */
  ghost function TotalBytes(objects: map<Digest, Object>): nat
    decreases |objects|
  {
    if objects == map[] then 0
    else
      var d :| d in objects;
      |objects[d].content| + TotalBytes(objects - {d})
  }

  function SumLengths(objects: map<Digest, Object>, ds: seq<Digest>): nat {
    if ds == [] then 0
    else (if ds[0] in objects then |objects[ds[0]].content| else 0) + SumLengths(objects, ds[1..])
  }

  lemma {:induction false} SumAppend(objects: map<Digest, Object>, ds: seq<Digest>, d: Digest)
    ensures SumLengths(objects, ds + [d]) ==
            SumLengths(objects, ds) + if d in objects then |objects[d].content| else 0
  {
    if ds == [] {
      assert [] + [d] == [d];
    } else {
      assert (ds + [d])[1..] == ds[1..] + [d];
      SumAppend(objects, ds[1..], d);
    }
  }

  // ------------------------------------------------------------------ PutObjects

  predicate ValidChunk(c: Chunk) {
    && c.index < MAX_CHUNKS
    && c.digest == Sha256(c.ciphertext)
    && TAG_BYTES < |c.ciphertext| <= MAX_CHUNK_BYTES + TAG_BYTES
  }

  function SizeOf(c: Chunk): nat {
    |c.ciphertext|
  }

  function BatchBytes(chunks: seq<Chunk>): nat {
    SumOf(SizeOf, chunks)
  }

  function DigestsOf(chunks: seq<Chunk>): (r: seq<Digest>)
    ensures |r| == |chunks|
  {
    seq(|chunks|, i requires 0 <= i < |chunks| => chunks[i].digest)
  }

  ghost predicate ValidBatch(chunks: seq<Chunk>) {
    && 1 <= |chunks| <= MAX_CHUNKS
    && (forall i :: 0 <= i < |chunks| ==> ValidChunk(chunks[i]))
    && Distinct(DigestsOf(chunks))
    && BatchBytes(chunks) <= MAX_PLAINTEXT_BYTES + MAX_CHUNKS * TAG_BYTES
  }

  /** How many objects of a batch are new, and their bytes; None when a stored object differs. */
  function NewCost(objects: map<Digest, Object>, chunks: seq<Chunk>): Option<(nat, nat)> {
    if chunks == [] then Some((0, 0))
    else
      var c := chunks[|chunks| - 1];
      match NewCost(objects, chunks[..|chunks| - 1])
      case None => None
      case Some((count, size)) =>
        if c.digest !in objects then Some((count + 1, size + |c.ciphertext|))
        else if objects[c.digest].content == c.ciphertext then Some((count, size))
        else None
  }

  /** The disk after storing, or refreshing the time stamp of, each chunk in turn. */
  function Puts(d: Disk, chunks: seq<Chunk>, stamp: int): Disk {
    if chunks == [] then d
    else
      var c := chunks[|chunks| - 1];
      var e := Puts(d, chunks[..|chunks| - 1], stamp);
      e.(objects := e.objects[c.digest := Object(c.ciphertext, stamp)])
  }

  ghost function PutResult(d: Disk, q: Quota, chunks: seq<Chunk>): Result<nat, Error> {
    if !ValidBatch(chunks) then Err(Invalid)
    else
      match NewCost(d.objects, chunks)
      case None => Err(Conflict)
      case Some((count, size)) =>
        if !AllHashOk(d.objects) then Err(Corrupt)
        else if |d.objects| + count > q.maxObjects || TotalBytes(d.objects) + size > q.maxBytes then Err(OverQuota)
        else Ok(count)
  }

  // ---------------------------------------------------------------- CommitOpaque

  ghost predicate ValidLeaseRequest(lease: Lease, now: int, q: Quota) {
    && ValidDigest(lease.manifest)
    && 1 <= |lease.chunks| <= MAX_CHUNKS
    && 0 <= Unix(now) < lease.expires <= Unix(now) + q.maxRetention
    && AllValid(lease.chunks) && Distinct(lease.chunks)
  }

  /** verifyLeaseObjects: every named object present and hash-correct, and the exact byte total. */
  function VerifyObjects(objects: map<Digest, Object>, ds: seq<Digest>, bytes: nat): Result<(), Error> {
    if exists i :: 0 <= i < |ds| && !HashOk(objects, ds[i]) then Err(NotFound)
    else if SumLengths(objects, ds) != bytes then Err(Conflict)
    else Ok(())
  }

  /** The value says whether the lease is fresh. */
  ghost function CommitResult(d: Disk, q: Quota, lease: Lease, bytes: nat, now: int): Result<bool, Error> {
    if !ValidLeaseRequest(lease, now, q) || bytes == 0 then Err(Invalid)
    else if lease.manifest in d.leases then
      if d.leases[lease.manifest] != lease then Err(Conflict)
      else
        match VerifyObjects(d.objects, lease.chunks, bytes)
        case Err(e) => Err(e)
        case Ok(_) => Ok(false)
    else if |d.leases| >= q.maxLeases then Err(OverQuota)
    else
      match VerifyObjects(d.objects, lease.chunks, bytes)
      case Err(e) => Err(e)
      case Ok(_) => Ok(true)
  }

  // ------------------------------------------------------------------ fetchOpaque

  /** Where a digest stands in a manifest; the last place, should it occur twice. */
  function PositionOf(chunks: seq<Digest>, d: Digest): (i: nat)
    requires d in chunks
    ensures i < |chunks| && chunks[i] == d
  {
    if chunks[|chunks| - 1] == d then |chunks| - 1 else PositionOf(chunks[..|chunks| - 1], d)
  }

  /** Request order is kept; each chunk carries its position in the manifest. */
  function Gather(objects: map<Digest, Object>, chunks: seq<Digest>, ds: seq<Digest>): Result<seq<Chunk>, Error>
    requires |chunks| <= MAX_CHUNKS
  {
    if ds == [] then Ok([])
    else
      match Gather(objects, chunks, ds[..|ds| - 1])
      case Err(e) => Err(e)
      case Ok(front) =>
        var d := ds[|ds| - 1];
        if d !in chunks then Err(Outside)
        else if !HashOk(objects, d) then Err(Corrupt)
        else Ok(front + [Chunk(PositionOf(chunks, d), d, objects[d].content)])
  }

  ghost predicate ValidFetch(manifest: Digest, ds: seq<Digest>, now: int) {
    ValidDigest(manifest) && 1 <= |ds| <= MAX_CHUNKS && Unix(now) >= 0 && AllValid(ds) && Distinct(ds)
  }

  ghost function Fetch(d: Disk, manifest: Digest, ds: seq<Digest>, now: int): Result<(seq<Chunk>, nat), Error> {
    if !ValidFetch(manifest, ds, now) then Err(Invalid)
    else if manifest !in d.leases || d.leases[manifest].expires <= Unix(now) then Err(NotFound)
    else if |d.leases[manifest].chunks| > MAX_CHUNKS then Err(Corrupt)
    else
      match Gather(d.objects, d.leases[manifest].chunks, ds)
      case Err(e) => Err(e)
      case Ok(chunks) => Ok((chunks, d.leases[manifest].expires))
  }

  /** Whether a lease was there to remove. */
  function DeleteResult(d: Disk, manifest: Digest): Result<bool, Error> {
    if !ValidDigest(manifest) then Err(Invalid) else Ok(manifest in d.leases)
  }

  // ------------------------------------------------------------- garbage collection

  predicate Expired(lease: Lease, now: int) {
    lease.expires <= Unix(now)
  }

  ghost predicate Referenced(d: Disk, now: int, digest: Digest) {
    exists m :: m in d.leases && !Expired(d.leases[m], now) && digest in d.leases[m].chunks
  }

  /** Unreferenced and past its staging grace. */
  ghost predicate Removable(d: Disk, now: int, grace: nat, digest: Digest) {
    && digest in d.objects
    && !Referenced(d, now, digest)
    && !(grace > 0 && now < d.objects[digest].modified + grace)
  }

  /** A directory listing: every name once. */
  ghost predicate Lists<K(!new)>(names: seq<K>, keys: set<K>) {
    Distinct(names) && forall k :: k in names <==> k in keys
  }

  /** The names a collection removes, in listing order. */
  ghost function ExpiredNames(d: Disk, now: int, names: seq<Digest>): (r: seq<Digest>)
    ensures forall m :: m in r <==> m in names && m in d.leases && Expired(d.leases[m], now)
  {
    if names == [] then []
    else
      var m := names[|names| - 1];
      ExpiredNames(d, now, names[..|names| - 1]) + if m in d.leases && Expired(d.leases[m], now) then [m] else []
  }

  ghost function RemovableNames(d: Disk, now: int, grace: nat, names: seq<Digest>): (r: seq<Digest>)
    ensures forall o :: o in r <==> o in names && Removable(d, now, grace, o)
  {
    if names == [] then []
    else
      var o := names[|names| - 1];
      RemovableNames(d, now, grace, names[..|names| - 1]) + if Removable(d, now, grace, o) then [o] else []
  }

  ghost predicate CollectAllowed(d: Disk, now: int, grace: nat) {
    Unix(now) >= 0 && grace <= MAX_GRACE && AllHashOk(d.objects)
  }

  /** What a finished collection reports. */
  datatype GcReport = GcReport(leases: nat, objects: nat, bytes: nat)

  function NameSet<K>(names: seq<K>): set<K> {
    set k | k in names
  }

  /** The disk without the leases and objects of these names. */
  function Collected(d: Disk, expired: seq<Digest>, removed: seq<Digest>): Disk {
    d.(leases := d.leases - NameSet(expired), objects := d.objects - NameSet(removed))
  }

  // ---------------------------------------------------------------- replay ledger

  /** What of a signed access request matters here.  `signature` makes two requests with equal
      fields one request. */
  datatype AccessRequest = AccessRequest(grant: Digest, nonce: Bytes, body: Digest, issued: nat, expires: nat,
                                         signature: Bytes)

  function KeyOf(r: AccessRequest): ClaimKey {
    ClaimKey(r.grant, r.nonce)
  }

  /** The well-formedness and time window VerifyAccessRequest enforces: two minutes at most, 30
      seconds of skew on the issue time, none on the expiry. */
  predicate InWindow(r: AccessRequest, now: int) {
    && ValidDigest(r.grant) && ValidDigest(r.body) && |r.nonce| == 32
    && 0 < r.issued < r.expires <= r.issued + 120
    && 0 <= Unix(now) < r.expires
    && r.issued <= Unix(now + 30 * SECOND)
  }

  /** advanceAccessClock: None when the clock file is already right. */
  function ClockStep(d: Disk, now: int): Result<Option<Disk>, Error>
    requires Unix(now) >= 0
  {
    match d.clock
    case Some(highest) =>
      if highest == 0 then Err(Corrupt)
      else if Unix(now) < highest then Err(Rollback)
      else if Unix(now) == highest then Ok(None)
      else Ok(Some(d.(clock := Some(Unix(now)))))
    case None => Ok(Some(d.(clock := Some(Unix(now)))))
  }

  predicate ClaimExpired(d: Disk, now: int, k: ClaimKey) {
    k in d.claims && d.claims[k] <= Unix(now)
  }

  ghost function LiveClaims(d: Disk, now: int): set<ClaimKey> {
    set k | k in d.claims && !ClaimExpired(d, now, k)
  }

  ghost function ExpiredClaims(d: Disk, now: int, names: seq<ClaimKey>): (r: seq<ClaimKey>)
    ensures forall k :: k in r <==> k in names && ClaimExpired(d, now, k)
  {
    if names == [] then []
    else
      var k := names[|names| - 1];
      ExpiredClaims(d, now, names[..|names| - 1]) + if ClaimExpired(d, now, k) then [k] else []
  }

  function Purged(d: Disk, names: seq<ClaimKey>): Disk {
    d.(claims := d.claims - NameSet(names))
  }

  /** claimAccess's verdict, given the claims still live. */
  ghost function ClaimResult(live: set<ClaimKey>, r: AccessRequest): Result<(), Error> {
    if |live| >= MAX_ACCESS_CLAIMS then Err(OverQuota) else if KeyOf(r) in live then Err(Replay) else Ok(())
  }

  ghost function AuthorizeResult(d: Disk, r: AccessRequest, now: int): Result<(), Error> {
    if !InWindow(r, now) then Err(Invalid)
    else
      match ClockStep(d, now)
      case Err(e) => Err(e)
      case Ok(_) => ClaimResult(LiveClaims(d, now), r)
  }

  // ------------------------------------------------------------------- operations

  datatype Operation =
    | Put(chunks: seq<Chunk>, stamp: int)
    | Commit(lease: Lease, bytes: nat, now: int)
    | Remove(manifest: Digest)
    | Collect(now: int, grace: nat, leaseNames: seq<Digest>, objectNames: seq<Digest>)
    | Authorize(request: AccessRequest, now: int, claimNames: seq<ClaimKey>)

  /** Directory listings report what is there. */
  ghost predicate Listed(d: Disk, op: Operation) {
    var holds :=
      match op
      case Collect(_, _, leaseNames, objectNames) =>
        Lists(leaseNames, d.leases.Keys) && Lists(objectNames, d.objects.Keys)
      case Authorize(_, _, claimNames) => Lists(claimNames, d.claims.Keys)
      case _ => true;
    holds
  }

  /** A collection removes all its leases before its first object. */
  function CollectAfter(d: Disk, expired: seq<Digest>, removed: seq<Digest>, cut: nat): Disk
    requires cut <= |expired| + |removed|
  {
    if cut <= |expired| then Collected(d, expired[..cut], [])
    else Collected(d, expired, removed[..cut - |expired|])
  }

  /** Purging the given claims and then filing the request, one file operation at a time. */
  function FileSteps(d: Disk, r: AccessRequest, expired: seq<ClaimKey>): nat {
    |expired| + if KeyOf(r) in Purged(d, expired).claims then 0 else 1
  }

  function FileAfter(d: Disk, r: AccessRequest, expired: seq<ClaimKey>, cut: nat): Disk
    requires cut <= FileSteps(d, r, expired)
  {
    if cut <= |expired| then Purged(d, expired[..cut])
    else
      var clean := Purged(d, expired);
      clean.(claims := clean.claims[KeyOf(r) := r.expires])
  }

  /** How many file operations claiming performs once the clock is right. */
  ghost function ClaimSteps(d: Disk, r: AccessRequest, now: int, names: seq<ClaimKey>): nat {
    if |LiveClaims(d, now)| >= MAX_ACCESS_CLAIMS then 0 else FileSteps(d, r, ExpiredClaims(d, now, names))
  }

  ghost function ClaimAfter(d: Disk, r: AccessRequest, now: int, names: seq<ClaimKey>, cut: nat): Disk
    requires cut <= ClaimSteps(d, r, now, names)
  {
    if cut == 0 then d else FileAfter(d, r, ExpiredClaims(d, now, names), cut)
  }

  ghost function AuthorizeSteps(d: Disk, r: AccessRequest, now: int, names: seq<ClaimKey>): nat {
    if !InWindow(r, now) then 0
    else
      match ClockStep(d, now)
      case Err(_) => 0
      case Ok(None) => ClaimSteps(d, r, now, names)
      case Ok(Some(e)) => 1 + ClaimSteps(e, r, now, names)
  }

  ghost function AuthorizeAfter(d: Disk, r: AccessRequest, now: int, names: seq<ClaimKey>, cut: nat): Disk
    requires cut <= AuthorizeSteps(d, r, now, names)
  {
    if cut == 0 then d
    else
      match ClockStep(d, now)
      case Ok(Some(e)) => ClaimAfter(e, r, now, names, cut - 1)
      case Ok(None) => ClaimAfter(d, r, now, names, cut)
      case Err(_) => d
  }

  /** The number of file operations (create, atomic replace, remove) a call performs. */
  ghost function Steps(d: Disk, q: Quota, op: Operation): nat {
    match op
    case Put(chunks, _) => if PutResult(d, q, chunks).Ok? then |chunks| else 0
    case Commit(lease, bytes, now) => if CommitResult(d, q, lease, bytes, now) == Ok(true) then 1 else 0
    case Remove(m) => if ValidDigest(m) && m in d.leases then 1 else 0
    case Collect(now, grace, leaseNames, objectNames) =>
      if CollectAllowed(d, now, grace)
      then |ExpiredNames(d, now, leaseNames)| + |RemovableNames(d, now, grace, objectNames)| else 0
    case Authorize(r, now, names) => AuthorizeSteps(d, r, now, names)
  }

  /** The disk when the process stops after `cut` of them. */
  ghost function After(d: Disk, q: Quota, op: Operation, cut: nat): Disk
    requires cut <= Steps(d, q, op)
  {
    if cut == 0 then d
    else
      match op
      case Put(chunks, stamp) => Puts(d, chunks[..cut], stamp)
      case Commit(lease, _, _) => d.(leases := d.leases[lease.manifest := lease])
      case Remove(m) => d.(leases := d.leases - {m})
      case Collect(now, grace, leaseNames, objectNames) =>
        CollectAfter(d, ExpiredNames(d, now, leaseNames), RemovableNames(d, now, grace, objectNames), cut)
      case Authorize(r, now, names) => AuthorizeAfter(d, r, now, names, cut)
  }
}
