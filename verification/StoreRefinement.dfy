/** The deduplicated store behaves like a map that gives every manifest its own copies of its
    chunks and an expiry. */
module StoreRefinement {
  import opened Foundation
  import opened AttachmentLimits
  import opened Digests
  import opened StoreModel
  import opened StoreInvariant

  // ------------------------------------------------------------- the abstract store

  datatype Private = Private(copies: seq<Bytes>, expires: nat)

  type Shelf = map<Digest, Private>

  function CopyPosition(copies: seq<Bytes>, d: Digest): Option<nat> {
    if copies == [] then None
    else if Sha256(copies[|copies| - 1]) == d then Some(|copies| - 1)
    else CopyPosition(copies[..|copies| - 1], d)
  }

  lemma {:induction false} CopyPositionBounds(copies: seq<Bytes>, d: Digest)
    ensures var i := CopyPosition(copies, d);
            i.Some? ==> i.value < |copies| && Sha256(copies[i.value]) == d
  {
    if copies != [] { CopyPositionBounds(copies[..|copies| - 1], d); }
  }

  function GatherCopies(copies: seq<Bytes>, ds: seq<Digest>): Result<seq<Chunk>, Error>
    requires |copies| <= MAX_CHUNKS
  {
    if ds == [] then Ok([])
    else
      match GatherCopies(copies, ds[..|ds| - 1])
      case Err(e) => Err(e)
      case Ok(front) =>
        var d := ds[|ds| - 1];
        CopyPositionBounds(copies, d);
        match CopyPosition(copies, d)
        case None => Err(Outside)
        case Some(i) => Ok(front + [Chunk(i, d, copies[i])])
  }

  /** Fetch from private copies alone: no shared objects, no lease records. */
  ghost function ShelfFetch(v: Shelf, manifest: Digest, ds: seq<Digest>, now: int): Result<(seq<Chunk>, nat), Error> {
    if !ValidFetch(manifest, ds, now) then Err(Invalid)
    else if manifest !in v || v[manifest].expires <= Unix(now) then Err(NotFound)
    else if |v[manifest].copies| > MAX_CHUNKS then Err(Corrupt)
    else
      match GatherCopies(v[manifest].copies, ds)
      case Err(e) => Err(e)
      case Ok(chunks) => Ok((chunks, v[manifest].expires))
  }

  // --------------------------------------------------------------------- the view

  function Copies(objects: map<Digest, Object>, ds: seq<Digest>): (r: seq<Bytes>)
    ensures |r| == |ds|
    ensures forall i :: 0 <= i < |ds| && ds[i] in objects ==> r[i] == objects[ds[i]].content
  {
    seq(|ds|, i requires 0 <= i < |ds| => if ds[i] in objects then objects[ds[i]].content else [])
  }

  function View(d: Disk): Shelf {
    map m | m in d.leases :: Private(Copies(d.objects, d.leases[m].chunks), d.leases[m].expires)
  }

  /** The contents a list of digests commits to. */
  function Preimages(ds: seq<Digest>): (r: seq<Bytes>)
    ensures |r| == |ds|
  {
    seq(|ds|, i requires 0 <= i < |ds| => if ds[i].Sha256? then ds[i].preimage else [])
  }

  lemma CopiesArePreimages(objects: map<Digest, Object>, ds: seq<Digest>)
    requires forall i :: 0 <= i < |ds| ==> HashOk(objects, ds[i])
    ensures Copies(objects, ds) == Preimages(ds)
  {
  }

  lemma {:induction false} PositionsAgree(objects: map<Digest, Object>, chunks: seq<Digest>, d: Digest)
    requires forall i :: 0 <= i < |chunks| ==> HashOk(objects, chunks[i])
    ensures CopyPosition(Copies(objects, chunks), d) == if d in chunks then Some(PositionOf(chunks, d)) else None
  {
    if chunks != [] {
      var front := chunks[..|chunks| - 1];
      assert Copies(objects, chunks)[..|chunks| - 1] == Copies(objects, front);
      PositionsAgree(objects, front, d);
      assert HashOk(objects, chunks[|chunks| - 1]);
      assert chunks == front + [chunks[|chunks| - 1]];
    }
  }

  lemma {:induction false} GathersAgree(objects: map<Digest, Object>, chunks: seq<Digest>, ds: seq<Digest>)
    requires |chunks| <= MAX_CHUNKS && forall i :: 0 <= i < |chunks| ==> HashOk(objects, chunks[i])
    ensures Gather(objects, chunks, ds) == GatherCopies(Copies(objects, chunks), ds)
  {
    if ds != [] {
      GathersAgree(objects, chunks, ds[..|ds| - 1]);
      PositionsAgree(objects, chunks, ds[|ds| - 1]);
    }
  }

  lemma LeaseHashOk(d: Disk, q: Quota, m: Digest)
    requires Inv(d, q) && m in d.leases
    ensures |d.leases[m].chunks| <= MAX_CHUNKS
    ensures forall i :: 0 <= i < |d.leases[m].chunks| ==> HashOk(d.objects, d.leases[m].chunks[i])
  {
    assert LeaseOk(d.objects, m, d.leases[m]);
    forall i | 0 <= i < |d.leases[m].chunks| ensures HashOk(d.objects, d.leases[m].chunks[i]) {
      assert d.leases[m].chunks[i] in d.leases[m].chunks;
    }
  }

  /** Every fetch is answered as the private copies would answer it. */
  lemma FetchRefines(d: Disk, q: Quota, manifest: Digest, ds: seq<Digest>, now: int)
    requires Inv(d, q)
    ensures Fetch(d, manifest, ds, now) == ShelfFetch(View(d), manifest, ds, now)
  {
    if manifest in d.leases {
      LeaseHashOk(d, q, manifest);
      GathersAgree(d.objects, d.leases[manifest].chunks, ds);
    }
  }

  // ------------------------------------------------------------------ simulation

  /** What a call means for the abstract store. */
  datatype Label = Silent | Publishes(manifest: Digest, copies: seq<Bytes>, expires: nat) | Drops(names: set<Digest>)

  function ShelfStep(v: Shelf, effect: Label): Shelf {
    match effect
    case Silent => v
    case Publishes(m, copies, expires) => v[m := Private(copies, expires)]
    case Drops(names) => v - names
  }

  ghost function LabelOf(d: Disk, q: Quota, op: Operation, cut: nat): Label
    requires cut <= Steps(d, q, op)
  {
    match op
    case Commit(lease, _, _) =>
      if cut == 1 then Publishes(lease.manifest, Preimages(lease.chunks), lease.expires) else Silent
    case Remove(m) => if cut == 1 then Drops({m}) else Silent
    case Collect(now, _, leaseNames, _) =>
      var expired := ExpiredNames(d, now, leaseNames);
      Drops(FirstNames(expired, cut))
    case _ => Silent
  }

  /** The first `cut` names, or all of them. */
  function FirstNames(names: seq<Digest>, cut: nat): (r: set<Digest>)
    ensures forall m :: m in r ==> m in names
  {
    NameSet(if cut <= |names| then names[..cut] else names)
  }

  lemma SameCopies(a: map<Digest, Object>, b: map<Digest, Object>, ds: seq<Digest>)
    requires forall x :: x in ds ==> x in a && x in b && b[x].content == a[x].content
    ensures Copies(b, ds) == Copies(a, ds)
  {
    forall i | 0 <= i < |ds| ensures Copies(b, ds)[i] == Copies(a, ds)[i] {
      assert ds[i] in ds;
    }
  }

  /** Two object directories that agree on everything a set of leases names show the same view. */
  lemma SameView(a: Disk, b: Disk, names: set<Digest>)
    requires LeasesOk(a) && b.leases == a.leases - names
    requires forall m, x :: m in b.leases && x in b.leases[m].chunks && x in a.objects ==>
               x in b.objects && b.objects[x].content == a.objects[x].content
    ensures View(b) == View(a) - names
  {
    forall m | m in b.leases ensures Copies(b.objects, b.leases[m].chunks) == Copies(a.objects, a.leases[m].chunks) {
      assert LeaseOk(a.objects, m, a.leases[m]);
      SameCopies(a.objects, b.objects, b.leases[m].chunks);
    }
  }

  /** New objects are no lease's business. */
  lemma SameLeases(d: Disk, e: Disk)
    requires LeasesOk(d) && e.leases == d.leases
    requires forall x :: x in d.objects ==> x in e.objects && e.objects[x].content == d.objects[x].content
    ensures View(e) == View(d)
  {
    forall m | m in d.leases ensures Copies(e.objects, d.leases[m].chunks) == Copies(d.objects, d.leases[m].chunks) {
      assert LeaseOk(d.objects, m, d.leases[m]);
      SameCopies(d.objects, e.objects, d.leases[m].chunks);
    }
  }

  lemma PutView(d: Disk, q: Quota, chunks: seq<Chunk>, stamp: int, k: nat)
    requires Inv(d, q) && PutResult(d, q, chunks).Ok? && k <= |chunks|
    ensures View(Puts(d, chunks[..k], stamp)) == View(d)
  {
    CostMonotone(d.objects, chunks, k);
    PutsContent(d, chunks[..k], stamp);
    SameLeases(d, Puts(d, chunks[..k], stamp));
  }

  lemma CommitView(d: Disk, q: Quota, lease: Lease, bytes: nat, now: int)
    requires CommitResult(d, q, lease, bytes, now) == Ok(true)
    ensures View(d.(leases := d.leases[lease.manifest := lease]))
         == View(d)[lease.manifest := Private(Preimages(lease.chunks), lease.expires)]
  {
    CommitChecked(d, q, lease, bytes, now);
    CopiesArePreimages(d.objects, lease.chunks);
  }

  lemma CollectView(d: Disk, expired: seq<Digest>, removed: seq<Digest>)
    requires LeasesOk(d) && Unused(d, expired, removed)
    ensures View(Collected(d, expired, removed)) == View(d) - NameSet(expired)
  {
    SameView(d, Collected(d, expired, removed), NameSet(expired));
  }

  lemma ClaimAfterView(d: Disk, r: AccessRequest, now: int, names: seq<ClaimKey>, cut: nat)
    requires cut <= ClaimSteps(d, r, now, names)
    ensures View(ClaimAfter(d, r, now, names, cut)) == View(d)
  {
  }

  lemma CollectAfterView(d: Disk, q: Quota, expired: seq<Digest>, removed: seq<Digest>, cut: nat)
    requires Inv(d, q) && cut <= |expired| + |removed|
    requires Unused(d, expired, removed)
    ensures View(CollectAfter(d, expired, removed, cut)) == View(d) - FirstNames(expired, cut)
  {
    if cut <= |expired| {
      CollectView(d, expired[..cut], []);
    } else {
      UnusedPrefix(d, expired, removed, cut - |expired|);
      CollectView(d, expired, removed[..cut - |expired|]);
    }
  }

  lemma CollectionView(d: Disk, q: Quota, now: int, grace: nat, leaseNames: seq<Digest>, objectNames: seq<Digest>, cut: nat)
    requires Inv(d, q) && Lists(leaseNames, d.leases.Keys)
    requires cut <= |ExpiredNames(d, now, leaseNames)| + |RemovableNames(d, now, grace, objectNames)|
    ensures View(CollectAfter(d, ExpiredNames(d, now, leaseNames), RemovableNames(d, now, grace, objectNames), cut))
         == View(d) - FirstNames(ExpiredNames(d, now, leaseNames), cut)
  {
    RemovableUnused(d, now, grace, leaseNames, objectNames);
    CollectAfterView(d, q, ExpiredNames(d, now, leaseNames), RemovableNames(d, now, grace, objectNames), cut);
  }

  lemma NoneRemoved(shelf: Shelf, names: seq<Digest>)
    ensures shelf - FirstNames(names, 0) == shelf
  {
    assert FirstNames(names, 0) == {};
  }

  lemma CollectRefines(d: Disk, q: Quota, op: Operation, cut: nat)
    requires Inv(d, q) && op.Collect? && Listed(d, op) && cut <= Steps(d, q, op)
    ensures View(After(d, q, op, cut)) == View(d) - FirstNames(ExpiredNames(d, op.now, op.leaseNames), cut)
  {
    match op
    case Collect(now, grace, leaseNames, objectNames) =>
      if cut == 0 {
        NoneRemoved(View(d), ExpiredNames(d, now, leaseNames));
      } else {
        CollectionView(d, q, now, grace, leaseNames, objectNames, cut);
      }
  }

  lemma AuthorizeView(d: Disk, r: AccessRequest, now: int, names: seq<ClaimKey>, cut: nat)
    requires cut <= AuthorizeSteps(d, r, now, names)
    ensures View(AuthorizeAfter(d, r, now, names, cut)) == View(d)
  {
    if cut > 0 {
      match ClockStep(d, now)
      case Ok(None) => ClaimAfterView(d, r, now, names, cut);
      case Ok(Some(e)) => ClaimAfterView(e, r, now, names, cut - 1);
    }
  }

  ghost predicate Refines(d: Disk, q: Quota, op: Operation, cut: nat)
    requires cut <= Steps(d, q, op)
  {
    View(After(d, q, op, cut)) == ShelfStep(View(d), LabelOf(d, q, op, cut))
  }

  lemma PutRefines(d: Disk, q: Quota, op: Operation, cut: nat)
    requires Inv(d, q) && op.Put? && cut <= Steps(d, q, op)
    ensures Refines(d, q, op, cut)
  {
    if cut > 0 { PutView(d, q, op.chunks, op.stamp, cut); }
  }

  lemma CommitRefines(d: Disk, q: Quota, op: Operation, cut: nat)
    requires op.Commit? && cut <= Steps(d, q, op)
    ensures Refines(d, q, op, cut)
  {
    if cut > 0 { CommitView(d, q, op.lease, op.bytes, op.now); }
  }

  lemma RemoveRefines(d: Disk, q: Quota, op: Operation, cut: nat)
    requires op.Remove? && cut <= Steps(d, q, op)
    ensures Refines(d, q, op, cut)
  {
    assert cut > 0 ==> View(d.(leases := d.leases - {op.manifest})) == View(d) - {op.manifest};
  }

  /** Store refinement: every call, complete or cut short by a crash, takes the view through the
      one abstract step its label names. */
  lemma AfterRefines(d: Disk, q: Quota, op: Operation, cut: nat)
    requires Inv(d, q) && Listed(d, op) && cut <= Steps(d, q, op)
    ensures View(After(d, q, op, cut)) == ShelfStep(View(d), LabelOf(d, q, op, cut))
  {
    assert Refines(d, q, op, cut) by {
      match op
      case Put(_, _) => PutRefines(d, q, op, cut);
      case Commit(_, _, _) => CommitRefines(d, q, op, cut);
      case Remove(_) => RemoveRefines(d, q, op, cut);
      case Collect(_, _, _, _) => CollectRefines(d, q, op, cut);
      case Authorize(r, now, names) => AuthorizeView(d, r, now, names, cut);
    }
  }

  /** Entries that have expired answer like entries that are gone. */
  lemma DropsInvisible(v: Shelf, names: set<Digest>, manifest: Digest, ds: seq<Digest>, later: int)
    requires forall m :: m in names && m in v ==> v[m].expires <= Unix(later)
    ensures ShelfFetch(v - names, manifest, ds, later) == ShelfFetch(v, manifest, ds, later)
  {
  }

  /** A collection at `now`, finished or interrupted, changes no fetch answer from `now` on, even
      when manifests share chunks. */
  lemma CollectInvisible(d: Disk, q: Quota, op: Operation, cut: nat, manifest: Digest, ds: seq<Digest>, later: int)
    requires Inv(d, q) && op.Collect? && Listed(d, op) && cut <= Steps(d, q, op) && op.now <= later
    ensures Fetch(After(d, q, op, cut), manifest, ds, later) == Fetch(d, manifest, ds, later)
  {
    AfterKeeps(d, q, op, cut);
    CollectRefines(d, q, op, cut);
    FetchRefines(d, q, manifest, ds, later);
    FetchRefines(After(d, q, op, cut), q, manifest, ds, later);
    var names := FirstNames(ExpiredNames(d, op.now, op.leaseNames), cut);
    forall m | m in names && m in View(d) ensures View(d)[m].expires <= Unix(later) {
      assert Expired(d.leases[m], op.now);
    }
    DropsInvisible(View(d), names, manifest, ds, later);
  }
}
