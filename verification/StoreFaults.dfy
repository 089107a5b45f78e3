/** What the store does not recover from by itself: a paused upload whose staged objects were
    collected, and an object that a crash cut short. */
module StoreFaults {
  import opened Foundation
  import opened AttachmentLimits
  import opened Digests
  import opened StoreModel
  import opened StoreInvariant
  import opened StoreRefinement
  import opened StoreRuns

  // -------------------------------------------------------------------- paused uploads

  /** A finished collection has removed everything removable. */
  lemma RemovableRemoved(d: Disk, q: Quota, now: int, grace: nat, leaseNames: seq<Digest>, objectNames: seq<Digest>, x: Digest)
    requires CollectAllowed(d, now, grace) && Lists(objectNames, d.objects.Keys) && Removable(d, now, grace, x)
    ensures var op := Collect(now, grace, leaseNames, objectNames); x !in After(d, q, op, Steps(d, q, op)).objects
  {
    var removed := RemovableNames(d, now, grace, objectNames);
    assert x in removed;
    TakeAll(removed);
  }

  /** The move stores this object. */
  predicate PutsObject(m: Move, x: Digest) {
    m.op.Put? && x in DigestsOf(m.op.chunks)
  }

  lemma {:induction false} PutsOthers(d: Disk, chunks: seq<Chunk>, stamp: int, x: Digest)
    requires x !in d.objects && x !in DigestsOf(chunks)
    ensures x !in Puts(d, chunks, stamp).objects
  {
    if chunks != [] {
      var n := |chunks| - 1;
      assert DigestsOf(chunks)[n] == chunks[n].digest && DigestsOf(chunks[..n]) == DigestsOf(chunks)[..n];
      PutsOthers(d, chunks[..n], stamp, x);
    }
  }

  lemma AbsentStep(d: Disk, q: Quota, m: Move, e: Disk, x: Digest)
    requires Takes(d, q, m, e) && x !in d.objects && !PutsObject(m, x)
    ensures x !in e.objects
  {
    if m.op.Put? && m.cut > 0 {
      assert DigestsOf(m.op.chunks[..m.cut]) == DigestsOf(m.op.chunks)[..m.cut];
      PutsOthers(d, m.op.chunks[..m.cut], m.op.stamp, x);
    }
  }

  lemma {:induction false} AbsentUntilPut(ds: seq<Disk>, moves: seq<Move>, q: Quota, i: nat, j: nat, x: Digest)
    requires IsRun(ds, moves, q) && i <= j < |ds| && x !in ds[i].objects
    requires forall k :: i <= k < j ==> !PutsObject(moves[k], x)
    ensures x !in ds[j].objects
    decreases j
  {
    if i < j {
      AbsentUntilPut(ds, moves, q, i, j - 1, x);
      RunTakes(ds, moves, q, j - 1);
      AbsentStep(ds[j - 1], q, moves[j - 1], ds[j], x);
    }
  }

  /** No lease that names an absent object can be committed, fresh or again. */
  lemma AbsentRefused(d: Disk, q: Quota, lease: Lease, bytes: nat, now: int, x: Digest)
    requires Inv(d, q) && x in lease.chunks && x !in d.objects
    ensures CommitResult(d, q, lease, bytes, now).Err?
    ensures ValidLeaseRequest(lease, now, q) && bytes > 0 && lease.manifest !in d.leases && |d.leases| < q.maxLeases ==>
              CommitResult(d, q, lease, bytes, now) == Err(NotFound)
  {
    var i :| 0 <= i < |lease.chunks| && lease.chunks[i] == x;
    assert !HashOk(d.objects, lease.chunks[i]);
  }

  /** An object staged for longer than the grace is gone after a collection, and every later commit
      of a lease that names it is refused, until some call stores that object again. */
  lemma PausedUpload(ds: seq<Disk>, moves: seq<Move>, q: Quota, i: nat, j: nat, x: Digest, lease: Lease, bytes: nat, now: int)
    requires IsRun(ds, moves, q) && i < j < |ds| && moves[i].op.Collect? && moves[i].cut == Steps(ds[i], q, moves[i].op)
    requires CollectAllowed(ds[i], moves[i].op.now, moves[i].op.grace) && Removable(ds[i], moves[i].op.now, moves[i].op.grace, x)
    requires forall k :: i < k < j ==> !PutsObject(moves[k], x)
    requires x in lease.chunks
    ensures x !in ds[j].objects && CommitResult(ds[j], q, lease, bytes, now).Err?
  {
    RunTakes(ds, moves, q, i);
    var op := moves[i].op;
    RemovableRemoved(ds[i], q, op.now, op.grace, op.leaseNames, op.objectNames, x);
    AbsentUntilPut(ds, moves, q, i + 1, j, x);
    RunInv(ds, moves, q, j);
    AbsentRefused(ds[j], q, lease, bytes, now, x);
  }

  // ------------------------------------------------------------------------ cut objects

  /** The object's content does not hash to its name. */
  predicate Cut(d: Disk, x: Digest) {
    x in d.objects && !HashOk(d.objects, x)
  }

  /** While there is one, nothing is stored and nothing collected. */
  lemma CutRefuses(d: Disk, q: Quota, x: Digest, chunks: seq<Chunk>, now: int, grace: nat)
    requires Cut(d, x)
    ensures PutResult(d, q, chunks).Err? && !CollectAllowed(d, now, grace)
  {
    assert !AllHashOk(d.objects);
  }

  lemma CutStep(d: Disk, q: Quota, m: Move, e: Disk, x: Digest)
    requires Takes(d, q, m, e) && Cut(d, x)
    ensures e.objects == d.objects
  {
    match m.op
    case Put(chunks, _) => CutRefuses(d, q, x, chunks, 0, 0);
    case Collect(now, grace, _, _) => CutRefuses(d, q, x, [], now, grace);
    case _ =>
  }

  /** Calls one after the other, finished or cut short, from any disk. */
  ghost predicate IsPath(ds: seq<Disk>, moves: seq<Move>, q: Quota) {
    var holds := |ds| == |moves| + 1 && forall i :: 0 <= i < |moves| ==> Takes(ds[i], q, moves[i], ds[i + 1]);
    holds
  }

  lemma PathTakes(ds: seq<Disk>, moves: seq<Move>, q: Quota, i: nat)
    requires IsPath(ds, moves, q) && i < |moves|
    ensures |ds| == |moves| + 1 && Takes(ds[i], q, moves[i], ds[i + 1])
  {
  }

  /** So it stays: the objects are what they are for ever after. */
  lemma {:induction false} CutForever(ds: seq<Disk>, moves: seq<Move>, q: Quota, j: nat, x: Digest)
    requires IsPath(ds, moves, q) && j < |ds| && Cut(ds[0], x)
    ensures ds[j].objects == ds[0].objects
  {
    if j > 0 {
      CutForever(ds, moves, q, j - 1, x);
      PathTakes(ds, moves, q, j - 1);
      CutStep(ds[j - 1], q, moves[j - 1], ds[j], x);
    }
  }

  /** The disk when putting a new object was cut after n of its bytes. */
  function CutPut(d: Disk, c: Chunk, n: nat, stamp: int): Disk
    requires n < |c.ciphertext|
  {
    d.(objects := d.objects[c.digest := Object(c.ciphertext[..n], stamp)])
  }

  lemma {:induction false} GatherSame(a: map<Digest, Object>, b: map<Digest, Object>, chunks: seq<Digest>, names: seq<Digest>)
    requires |chunks| <= MAX_CHUNKS && forall x :: x in chunks ==> x in a && x in b && a[x] == b[x]
    ensures Gather(a, chunks, names) == Gather(b, chunks, names)
  {
    if names != [] {
      GatherSame(a, b, chunks, names[..|names| - 1]);
    }
  }

  /** A put cut short by a crash leaves such an object.  Every fetch still answers as before. */
  lemma CutPutServes(d: Disk, q: Quota, c: Chunk, n: nat, stamp: int, m: Digest, names: seq<Digest>, now: int)
    requires Inv(d, q) && ValidChunk(c) && c.digest !in d.objects && n < |c.ciphertext|
    ensures Cut(CutPut(d, c, n, stamp), c.digest)
    ensures Fetch(CutPut(d, c, n, stamp), m, names, now) == Fetch(d, m, names, now)
  {
    assert |c.ciphertext[..n]| != |c.ciphertext|;
    if m in d.leases {
      assert LeaseOk(d.objects, m, d.leases[m]);
      GatherSame(d.objects, CutPut(d, c, n, stamp).objects, d.leases[m].chunks, names);
    }
  }

  lemma {:induction false} PathStored(ds: seq<Disk>, moves: seq<Move>, q: Quota, j: nat, lease: Lease)
    requires IsPath(ds, moves, q) && j < |ds| && Stored(ds[0], lease)
    requires forall k :: 0 <= k < j ==> !Loses(ds[k], moves[k], lease)
    ensures Stored(ds[j], lease)
  {
    if j > 0 {
      PathStored(ds, moves, q, j - 1, lease);
      PathTakes(ds, moves, q, j - 1);
      KeepsLease(ds[j - 1], q, moves[j - 1], ds[j], lease);
    }
  }

  /** After such a crash, in every continuation: no object is ever stored or collected again, and yet
      every lease that was there is served whole until it is deleted or expires. */
  lemma CutPutForever(d: Disk, c: Chunk, n: nat, stamp: int, ds: seq<Disk>, moves: seq<Move>, q: Quota, j: nat, lease: Lease,
                      chunks: seq<Chunk>, now: int, grace: nat)
    requires Inv(d, q) && ValidChunk(c) && c.digest !in d.objects && n < |c.ciphertext|
    requires IsPath(ds, moves, q) && ds[0] == CutPut(d, c, n, stamp) && j < |ds|
    requires Stored(d, lease) && forall k :: 0 <= k < j ==> !Loses(ds[k], moves[k], lease)
    ensures ds[j].objects == ds[0].objects && PutResult(ds[j], q, chunks).Err? && !CollectAllowed(ds[j], now, grace)
    ensures Fetch(ds[j], lease.manifest, lease.chunks, now) == Fetch(d, lease.manifest, lease.chunks, now)
  {
    CutPutServes(d, q, c, n, stamp, lease.manifest, lease.chunks, now);
    CutForever(ds, moves, q, j, c.digest);
    CutRefuses(ds[j], q, c.digest, chunks, now, grace);
    PathStored(ds, moves, q, j, lease);
  }
}
