/** Runs of the store: calls in any order with any clock, each finished or cut short by a crash,
    restarting from what is on disk. */
module StoreRuns {
  import opened Foundation
  import opened AttachmentLimits
  import opened Digests
  import opened StoreModel
  import opened StoreInvariant
  import opened StoreRefinement

  datatype Move = Move(op: Operation, cut: nat)

  const EMPTY: Disk := Disk(map[], map[], map[], None)

  ghost predicate Takes(d: Disk, q: Quota, m: Move, e: Disk) {
    var holds := Listed(d, m.op) && m.cut <= Steps(d, q, m.op) && e == After(d, q, m.op, m.cut);
    holds
  }

  ghost predicate IsRun(ds: seq<Disk>, moves: seq<Move>, q: Quota) {
    var holds :=
      && |ds| == |moves| + 1
      && ds[0] == EMPTY
      && forall i :: 0 <= i < |moves| ==> Takes(ds[i], q, moves[i], ds[i + 1]);
    holds
  }

  lemma EmptyInv(q: Quota)
    ensures Inv(EMPTY, q)
  {
    assert TotalBytes(map[]) == 0;
  }

  lemma StepInv(d: Disk, q: Quota, m: Move, e: Disk)
    requires Inv(d, q) && Takes(d, q, m, e)
    ensures Inv(e, q)
  {
    AfterKeeps(d, q, m.op, m.cut);
  }

  lemma StepView(d: Disk, q: Quota, m: Move, e: Disk)
    requires Inv(d, q) && Takes(d, q, m, e)
    ensures View(e) == ShelfStep(View(d), LabelOf(d, q, m.op, m.cut))
  {
    AfterRefines(d, q, m.op, m.cut);
  }

  lemma RunTakes(ds: seq<Disk>, moves: seq<Move>, q: Quota, i: nat)
    requires IsRun(ds, moves, q) && i < |moves|
    ensures |ds| == |moves| + 1 && Takes(ds[i], q, moves[i], ds[i + 1])
  {
  }

  /** Safety over whole runs: leases are whole and quotas hold at every point, crashes included. */
  lemma {:induction false} RunInv(ds: seq<Disk>, moves: seq<Move>, q: Quota, j: nat)
    requires IsRun(ds, moves, q) && j < |ds|
    ensures Inv(ds[j], q)
  {
    if j == 0 {
      EmptyInv(q);
    } else {
      var i := j - 1;
      RunInv(ds, moves, q, i);
      RunTakes(ds, moves, q, i);
      StepInv(ds[i], q, moves[i], ds[i + 1]);
    }
  }

  /** The abstract run beside a run: one private-copy shelf, stepped by labels alone. */
  function ShelfAfter(labels: seq<Label>): Shelf {
    if labels == [] then map[] else ShelfStep(ShelfAfter(labels[..|labels| - 1]), labels[|labels| - 1])
  }

  ghost predicate Labels(ds: seq<Disk>, moves: seq<Move>, q: Quota, labels: seq<Label>) {
    var holds := |labels| == |moves| < |ds| && forall i :: 0 <= i < |moves| ==>
         moves[i].cut <= Steps(ds[i], q, moves[i].op) && labels[i] == LabelOf(ds[i], q, moves[i].op, moves[i].cut);
    holds
  }

  lemma {:induction false} RunViews(ds: seq<Disk>, moves: seq<Move>, q: Quota, labels: seq<Label>, j: nat)
    requires IsRun(ds, moves, q) && Labels(ds, moves, q, labels) && j < |ds|
    ensures View(ds[j]) == ShelfAfter(labels[..j])
  {
    if j == 0 {
      assert labels[..0] == [];
    } else {
      RunViews(ds, moves, q, labels, j - 1);
      RunInv(ds, moves, q, j - 1);
      StepView(ds[j - 1], q, moves[j - 1], ds[j]);
      assert labels[..j][..j - 1] == labels[..j - 1];
    }
  }

  /** The deduplicated, lease-counted store is indistinguishable from the shelf: at every point of
      every run every fetch has the same answer. */
  lemma RunRefines(ds: seq<Disk>, moves: seq<Move>, q: Quota, labels: seq<Label>, j: nat,
                   m: Digest, names: seq<Digest>, now: int)
    requires IsRun(ds, moves, q) && Labels(ds, moves, q, labels) && j < |ds|
    ensures Fetch(ds[j], m, names, now) == ShelfFetch(ShelfAfter(labels[..j]), m, names, now)
  {
    RunViews(ds, moves, q, labels, j);
    RunInv(ds, moves, q, j);
    FetchRefines(ds[j], q, m, names, now);
  }

  // ------------------------------------------------------------------- durability

  ghost predicate Stored(d: Disk, lease: Lease) {
    lease.manifest in d.leases && d.leases[lease.manifest] == lease
  }

  /** This move takes the lease away: it deletes it, or collects it at or after its expiry. */
  ghost predicate Loses(d: Disk, m: Move, lease: Lease) {
    match m.op
    case Remove(manifest) => m.cut > 0 && manifest == lease.manifest
    case Collect(now, _, leaseNames, _) =>
      m.cut > 0 && lease.expires <= Unix(now) && lease.manifest in FirstNames(ExpiredNames(d, now, leaseNames), m.cut)
    case _ => false
  }

  /** A stored lease outlives a move if and only if the move does not take it away. */
  lemma KeepsLease(d: Disk, q: Quota, m: Move, e: Disk, lease: Lease)
    requires Takes(d, q, m, e) && Stored(d, lease)
    ensures Stored(e, lease) <==> !Loses(d, m, lease)
  {
    if m.cut > 0 {
      match m.op
      case Put(chunks, stamp) => PutsLeases(d, chunks[..m.cut], stamp);
      case Commit(_, _, _) =>
      case Remove(_) =>
      case Collect(now, _, leaseNames, _) =>
        assert lease.manifest in ExpiredNames(d, now, leaseNames) ==> Expired(lease, now);
      case Authorize(_, _, _) =>
    }
  }

  lemma {:induction false} PutsLeases(d: Disk, chunks: seq<Chunk>, stamp: int)
    ensures Puts(d, chunks, stamp).leases == d.leases
  {
    if chunks != [] { PutsLeases(d, chunks[..|chunks| - 1], stamp); }
  }

  /** Every chunk of a manifest, each in its position. */
  function WholeManifest(ds: seq<Digest>): (r: seq<Chunk>)
    requires |ds| <= MAX_CHUNKS
    ensures |r| == |ds|
  {
    seq(|ds|, i requires 0 <= i < |ds| => Chunk(i, ds[i], Preimages(ds)[i]))
  }

  lemma {:induction false} DistinctPosition(ds: seq<Digest>, i: nat)
    requires Distinct(ds) && i < |ds|
    ensures PositionOf(ds, ds[i]) == i
  {
    if i < |ds| - 1 {
      var front := ds[..|ds| - 1];
      assert front[i] == ds[i];
      DistinctPosition(front, i);
    }
  }

  lemma {:induction false} GatherWhole(objects: map<Digest, Object>, ds: seq<Digest>, k: nat)
    requires |ds| <= MAX_CHUNKS && Distinct(ds) && k <= |ds|
    requires forall i :: 0 <= i < |ds| ==> HashOk(objects, ds[i])
    ensures Gather(objects, ds, ds[..k]) == Ok(WholeManifest(ds)[..k])
  {
    if k > 0 {
      GatherWhole(objects, ds, k - 1);
      assert ds[..k][..k - 1] == ds[..k - 1];
      assert ds[..k][k - 1] == ds[k - 1] && ds[k - 1] in ds;
      DistinctPosition(ds, k - 1);
      assert HashOk(objects, ds[k - 1]);
      assert Preimages(ds)[k - 1] == ds[k - 1].preimage == objects[ds[k - 1]].content;
      assert WholeManifest(ds)[k - 1] == Chunk(k - 1, ds[k - 1], objects[ds[k - 1]].content);
      assert WholeManifest(ds)[..k] == WholeManifest(ds)[..k - 1] + [WholeManifest(ds)[k - 1]];
    } else {
      assert ds[..0] == [] && WholeManifest(ds)[..0] == [];
    }
  }

  lemma FetchWhole(d: Disk, q: Quota, lease: Lease, now: int)
    requires Inv(d, q) && Stored(d, lease) && ValidFetch(lease.manifest, lease.chunks, now) && Unix(now) < lease.expires
    ensures Fetch(d, lease.manifest, lease.chunks, now) == Ok((WholeManifest(lease.chunks), lease.expires))
  {
    LeaseHashOk(d, q, lease.manifest);
    var ds := lease.chunks;
    GatherWhole(d.objects, ds, |ds|);
    assert ds[..|ds|] == ds && WholeManifest(ds)[..|ds|] == WholeManifest(ds);
  }

  lemma {:induction false} StaysStored(ds: seq<Disk>, moves: seq<Move>, q: Quota, i: nat, j: nat, lease: Lease)
    requires IsRun(ds, moves, q) && i <= j < |ds| && Stored(ds[i], lease)
    requires forall k :: i <= k < j ==> !Loses(ds[k], moves[k], lease)
    ensures Stored(ds[j], lease)
  {
    if i < j {
      StaysStored(ds, moves, q, i, j - 1, lease);
      assert Takes(ds[j - 1], q, moves[j - 1], ds[j]);
      KeepsLease(ds[j - 1], q, moves[j - 1], ds[j], lease);
    }
  }

  lemma CommitStores(d: Disk, q: Quota, m: Move, e: Disk)
    requires Takes(d, q, m, e) && m.op.Commit? && m.cut == Steps(d, q, m.op)
    requires CommitResult(d, q, m.op.lease, m.op.bytes, m.op.now).Ok?
    ensures Stored(e, m.op.lease)
    ensures ValidDigest(m.op.lease.manifest) && AllValid(m.op.lease.chunks)
    ensures 1 <= |m.op.lease.chunks| <= MAX_CHUNKS && Distinct(m.op.lease.chunks)
  {
  }

  /** StoredAck durability.  Once a commit has succeeded, fetching the whole manifest returns the
      exact ciphertexts in their positions at every later point of the run and every time before
      the expiry, unless a move deleted the lease or collected it after its expiry. */
  lemma Durable(ds: seq<Disk>, moves: seq<Move>, q: Quota, i: nat, j: nat, now: int)
    requires IsRun(ds, moves, q) && i < j < |ds| && moves[i].op.Commit? && moves[i].cut == Steps(ds[i], q, moves[i].op)
    requires CommitResult(ds[i], q, moves[i].op.lease, moves[i].op.bytes, moves[i].op.now).Ok?
    requires forall k :: i < k < j ==> !Loses(ds[k], moves[k], moves[i].op.lease)
    requires 0 <= Unix(now) < moves[i].op.lease.expires
    ensures |moves[i].op.lease.chunks| <= MAX_CHUNKS
    ensures var lease := moves[i].op.lease;
            Fetch(ds[j], lease.manifest, lease.chunks, now) == Ok((WholeManifest(lease.chunks), lease.expires))
  {
    assert Takes(ds[i], q, moves[i], ds[i + 1]);
    CommitStores(ds[i], q, moves[i], ds[i + 1]);
    StaysStored(ds, moves, q, i + 1, j, moves[i].op.lease);
    RunInv(ds, moves, q, j);
    FetchWhole(ds[j], q, moves[i].op.lease, now);
  }

  // ---------------------------------------------------------------- replay safety

  /** The request is on file, or the persisted clock has passed its expiry. */
  ghost predicate Claimed(d: Disk, r: AccessRequest) {
    || (KeyOf(r) in d.claims && d.claims[KeyOf(r)] == r.expires)
    || (d.clock.Some? && d.clock.value >= r.expires)
  }

  /** The expiry check has no skew, so a claimed request is refused at any clock reading. */
  lemma ClaimedRefused(d: Disk, r: AccessRequest, now: int)
    requires Claimed(d, r)
    ensures AuthorizeResult(d, r, now).Err?
  {
  }

  lemma ClaimAfterClaimed(d: Disk, s: AccessRequest, now: int, names: seq<ClaimKey>, cut: nat, r: AccessRequest)
    requires Claimed(d, r) && d.clock.Some? && d.clock.value == Unix(now) && cut <= ClaimSteps(d, s, now, names)
    ensures Claimed(ClaimAfter(d, s, now, names, cut), r)
  {
    var expired := ExpiredClaims(d, now, names);
    if cut > 0 && KeyOf(r) in expired {
      assert ClaimExpired(d, now, KeyOf(r));
    }
  }

  lemma AuthorizeAfterClaimed(d: Disk, s: AccessRequest, now: int, names: seq<ClaimKey>, cut: nat, r: AccessRequest)
    requires Claimed(d, r) && cut <= AuthorizeSteps(d, s, now, names)
    ensures Claimed(AuthorizeAfter(d, s, now, names, cut), r)
  {
    if cut > 0 {
      match ClockStep(d, now)
      case Ok(None) => ClaimAfterClaimed(d, s, now, names, cut, r);
      case Ok(Some(e)) => ClaimAfterClaimed(e, s, now, names, cut - 1, r);
    }
  }

  /** The watermark is persisted before any purge: no crash point forgets a claim. */
  lemma StaysClaimed(d: Disk, q: Quota, m: Move, e: Disk, r: AccessRequest)
    requires Takes(d, q, m, e) && Claimed(d, r)
    ensures Claimed(e, r)
  {
    match m.op
    case Put(chunks, stamp) => if m.cut > 0 { PutsLedger(d, chunks[..m.cut], stamp); }
    case Authorize(s, now, names) => AuthorizeAfterClaimed(d, s, now, names, m.cut, r);
    case _ =>
  }

  lemma {:induction false} PutsLedger(d: Disk, chunks: seq<Chunk>, stamp: int)
    ensures Puts(d, chunks, stamp).claims == d.claims && Puts(d, chunks, stamp).clock == d.clock
  {
    if chunks != [] { PutsLedger(d, chunks[..|chunks| - 1], stamp); }
  }

  ghost predicate Authorizes(d: Disk, q: Quota, m: Move, r: AccessRequest) {
    m.op.Authorize? && m.op.request == r && m.cut == Steps(d, q, m.op) && AuthorizeResult(d, r, m.op.now).Ok?
  }

  lemma AuthorizeClaims(d: Disk, q: Quota, m: Move, e: Disk, r: AccessRequest)
    requires Takes(d, q, m, e) && Authorizes(d, q, m, r)
    ensures Claimed(e, r)
  {
    match ClockStep(d, m.op.now)
    case Ok(None) => CreatesClaim(d, r, m.op.now, m.op.claimNames);
    case Ok(Some(f)) =>
      assert LiveClaims(f, m.op.now) == LiveClaims(d, m.op.now);
      CreatesClaim(f, r, m.op.now, m.op.claimNames);
  }

  lemma CreatesClaim(d: Disk, r: AccessRequest, now: int, names: seq<ClaimKey>)
    requires Lists(names, d.claims.Keys)
    requires |LiveClaims(d, now)| < MAX_ACCESS_CLAIMS && KeyOf(r) !in LiveClaims(d, now)
    ensures var n := ClaimSteps(d, r, now, names);
            n > 0 && Claimed(ClaimAfter(d, r, now, names, n), r)
  {
    PurgedLive(d, now, names);
  }

  lemma {:induction false} ClaimedForever(ds: seq<Disk>, moves: seq<Move>, q: Quota, i: nat, j: nat, r: AccessRequest)
    requires IsRun(ds, moves, q) && i <= j < |ds| && Claimed(ds[i], r)
    ensures Claimed(ds[j], r)
  {
    if i < j {
      ClaimedForever(ds, moves, q, i, j - 1, r);
      assert Takes(ds[j - 1], q, moves[j - 1], ds[j]);
      StaysClaimed(ds[j - 1], q, moves[j - 1], ds[j], r);
    }
  }

  /** The ledger files a request under its grant, nonce and expiry, whatever else it carries. */
  predicate SameClaim(r: AccessRequest, s: AccessRequest) {
    KeyOf(r) == KeyOf(s) && r.expires == s.expires
  }

  /** Replay safety with a purging ledger: a request that was authorised once is refused at every
      later point of the run, whatever the clock then reads, and although expired claims are
      deleted; so is any other under its grant, nonce and expiry.  The ledger stays within its
      bound. */
  lemma AuthorizedOnce(ds: seq<Disk>, moves: seq<Move>, q: Quota, i: nat, j: nat, r: AccessRequest, s: AccessRequest, now: int)
    requires IsRun(ds, moves, q) && i < j < |ds| && Authorizes(ds[i], q, moves[i], r) && SameClaim(r, s)
    ensures AuthorizeResult(ds[j], s, now).Err?
    ensures |ds[j].claims| <= MAX_ACCESS_CLAIMS
  {
    assert Takes(ds[i], q, moves[i], ds[i + 1]);
    AuthorizeClaims(ds[i], q, moves[i], ds[i + 1], r);
    ClaimedForever(ds, moves, q, i + 1, j, r);
    ClaimedRefused(ds[j], s, now);
    RunInv(ds, moves, q, j);
  }
}
