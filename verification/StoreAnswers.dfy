/** What CommitOpaque, Delete and a collection answer, in terms of the private copies: the rest of
    what a caller of the store can observe. */
module StoreAnswers {
  import opened Foundation
  import opened AttachmentLimits
  import opened Digests
  import opened StoreModel
  import opened StoreInvariant
  import opened StoreRefinement
  import opened StoreRuns

  function CopySize(copy: Bytes): nat {
    |copy|
  }

  function CopyBytes(copies: seq<Bytes>): nat {
    SumOf(CopySize, copies)
  }

  /** A commit of a manifest that is on the shelf already. */
  ghost function ShelfRepeat(v: Shelf, q: Quota, lease: Lease, bytes: nat, now: int): Result<bool, Error>
    requires lease.manifest in v
  {
    if !ValidLeaseRequest(lease, now, q) || bytes == 0 then Err(Invalid)
    else if v[lease.manifest] != Private(Preimages(lease.chunks), lease.expires) then Err(Conflict)
    else if CopyBytes(v[lease.manifest].copies) != bytes then Err(Conflict)
    else Ok(false)
  }

  /** A commit of a new manifest; `staged` holds the contents uploaded so far. */
  ghost function ShelfFresh(v: Shelf, q: Quota, staged: set<Digest>, lease: Lease, bytes: nat, now: int): Result<bool, Error> {
    if !ValidLeaseRequest(lease, now, q) || bytes == 0 then Err(Invalid)
    else if |v| >= q.maxLeases then Err(OverQuota)
    else if exists x :: x in lease.chunks && x !in staged then Err(NotFound)
    else if CopyBytes(Preimages(lease.chunks)) != bytes then Err(Conflict)
    else Ok(true)
  }

  ghost function ShelfCommit(v: Shelf, q: Quota, staged: set<Digest>, lease: Lease, bytes: nat, now: int): Result<bool, Error> {
    if lease.manifest in v then ShelfRepeat(v, q, lease, bytes, now) else ShelfFresh(v, q, staged, lease, bytes, now)
  }

  function ShelfDelete(v: Shelf, manifest: Digest): Result<bool, Error> {
    if !ValidDigest(manifest) then Err(Invalid) else Ok(manifest in v)
  }

  lemma PreimagesSame(a: seq<Digest>, b: seq<Digest>)
    requires AllValid(a) && AllValid(b) && Preimages(a) == Preimages(b)
    ensures a == b
  {
    assert |Preimages(a)| == |Preimages(b)|;
    forall i | 0 <= i < |a| ensures a[i] == b[i] {
      assert a[i] in a && b[i] in b;
      assert Preimages(a)[i] == Preimages(b)[i];
    }
  }

  lemma {:induction false} SumIsCopyBytes(objects: map<Digest, Object>, ds: seq<Digest>)
    requires forall i :: 0 <= i < |ds| ==> HashOk(objects, ds[i])
    ensures SumLengths(objects, ds) == CopyBytes(Preimages(ds))
  {
    if ds != [] {
      var n := |ds| - 1;
      SumIsCopyBytes(objects, ds[..n]);
      assert Preimages(ds)[..n] == Preimages(ds[..n]);
      SumAppend(objects, ds[..n], ds[n]);
      assert ds == ds[..n] + [ds[n]] && HashOk(objects, ds[n]);
    }
  }

  lemma ViewCount(d: Disk)
    ensures |View(d)| == |d.leases|
  {
    assert View(d).Keys == d.leases.Keys;
    assert |View(d)| == |View(d).Keys| && |d.leases| == |d.leases.Keys|;
  }

  lemma HeldView(d: Disk, q: Quota, m: Digest)
    requires Inv(d, q) && m in d.leases
    ensures View(d)[m] == Private(Preimages(d.leases[m].chunks), d.leases[m].expires)
    ensures AllValid(d.leases[m].chunks) && d.leases[m].manifest == m
    ensures SumLengths(d.objects, d.leases[m].chunks) == CopyBytes(View(d)[m].copies)
  {
    LeaseHashOk(d, q, m);
    assert LeaseOk(d.objects, m, d.leases[m]);
    CopiesArePreimages(d.objects, d.leases[m].chunks);
    SumIsCopyBytes(d.objects, d.leases[m].chunks);
  }

  lemma RepeatAnswers(d: Disk, q: Quota, lease: Lease, bytes: nat, now: int)
    requires Inv(d, q) && lease.manifest in d.leases
    ensures CommitResult(d, q, lease, bytes, now) == ShelfRepeat(View(d), q, lease, bytes, now)
  {
    var held := d.leases[lease.manifest];
    HeldView(d, q, lease.manifest);
    LeaseHashOk(d, q, lease.manifest);
    if ValidLeaseRequest(lease, now, q) && Preimages(held.chunks) == Preimages(lease.chunks) {
      PreimagesSame(held.chunks, lease.chunks);
    }
  }

  lemma FreshAnswers(d: Disk, q: Quota, lease: Lease, bytes: nat, now: int)
    requires Inv(d, q) && lease.manifest !in d.leases
    ensures CommitResult(d, q, lease, bytes, now) == ShelfFresh(View(d), q, d.objects.Keys, lease, bytes, now)
  {
    ViewCount(d);
    if forall x :: x in lease.chunks ==> x in d.objects {
      forall i | 0 <= i < |lease.chunks| ensures HashOk(d.objects, lease.chunks[i]) {
        assert lease.chunks[i] in lease.chunks;
      }
      SumIsCopyBytes(d.objects, lease.chunks);
    } else {
      var x :| x in lease.chunks && x !in d.objects;
      var i :| 0 <= i < |lease.chunks| && lease.chunks[i] == x;
      assert !HashOk(d.objects, lease.chunks[i]);
    }
  }

  /** Commit and delete are answered from the private copies and the uploaded contents alone. */
  lemma AnswersRefine(d: Disk, q: Quota, lease: Lease, bytes: nat, now: int, manifest: Digest)
    requires Inv(d, q)
    ensures CommitResult(d, q, lease, bytes, now) == ShelfCommit(View(d), q, d.objects.Keys, lease, bytes, now)
    ensures DeleteResult(d, manifest) == ShelfDelete(View(d), manifest)
  {
    if lease.manifest in d.leases {
      RepeatAnswers(d, q, lease, bytes, now);
    } else {
      FreshAnswers(d, q, lease, bytes, now);
    }
  }

  /** So at every point of every run, against the shelf stepped by labels alone. */
  lemma RunAnswers(ds: seq<Disk>, moves: seq<Move>, q: Quota, labels: seq<Label>, j: nat,
                   lease: Lease, bytes: nat, now: int, manifest: Digest)
    requires IsRun(ds, moves, q) && Labels(ds, moves, q, labels) && j < |ds|
    ensures var v := ShelfAfter(labels[..j]);
            && CommitResult(ds[j], q, lease, bytes, now) == ShelfCommit(v, q, ds[j].objects.Keys, lease, bytes, now)
            && DeleteResult(ds[j], manifest) == ShelfDelete(v, manifest)
  {
    RunViews(ds, moves, q, labels, j);
    RunInv(ds, moves, q, j);
    AnswersRefine(ds[j], q, lease, bytes, now, manifest);
  }

  // ------------------------------------------------------------------ what is collected

  lemma {:induction false} RemovableDistinct(d: Disk, now: int, grace: nat, names: seq<Digest>)
    requires Distinct(names)
    ensures Distinct(RemovableNames(d, now, grace, names))
  {
    if names != [] {
      RemovableDistinct(d, now, grace, names[..|names| - 1]);
    }
  }

  lemma {:induction false} RemoveAll(objects: map<Digest, Object>, names: seq<Digest>)
    requires Distinct(names) && forall x :: x in names ==> x in objects
    ensures TotalBytes(objects) == TotalBytes(objects - NameSet(names)) + SumLengths(objects, names)
    decreases |names|
  {
    if names == [] {
      assert objects - NameSet(names) == objects;
    } else {
      var front, last := names[..|names| - 1], names[|names| - 1];
      assert names == front + [last];
      RemoveAll(objects, front);
      SumAppend(objects, front, last);
      var rest := objects - NameSet(front);
      assert last in names && last !in NameSet(front) && last in rest;
      TotalRemove(rest, last);
      assert rest - {last} == objects - NameSet(names);
    }
  }

  /** The bytes a collection reports are exactly the bytes it frees. */
  lemma CollectionConserves(d: Disk, q: Quota, now: int, grace: nat, leaseNames: seq<Digest>, objectNames: seq<Digest>)
    requires CollectAllowed(d, now, grace) && Lists(objectNames, d.objects.Keys)
    ensures var op := Collect(now, grace, leaseNames, objectNames);
            TotalBytes(d.objects) == TotalBytes(After(d, q, op, Steps(d, q, op)).objects)
                                     + SumLengths(d.objects, RemovableNames(d, now, grace, objectNames))
  {
    var removed := RemovableNames(d, now, grace, objectNames);
    RemovableDistinct(d, now, grace, objectNames);
    RemoveAll(d.objects, removed);
    WholeCollection(d, q, now, grace, leaseNames, objectNames);
  }

  lemma WholeCollection(d: Disk, q: Quota, now: int, grace: nat, leaseNames: seq<Digest>, objectNames: seq<Digest>)
    requires CollectAllowed(d, now, grace)
    ensures var op := Collect(now, grace, leaseNames, objectNames);
            After(d, q, op, Steps(d, q, op)).objects == d.objects - NameSet(RemovableNames(d, now, grace, objectNames))
  {
    var removed := RemovableNames(d, now, grace, objectNames);
    TakeAll(removed);
    assert NameSet<Digest>([]) == {} && d.objects - {} == d.objects;
    if |removed| == 0 {
      assert removed == [];
    }
  }
}
