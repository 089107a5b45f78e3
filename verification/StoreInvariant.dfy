/** After every single file operation each stored lease names only present, hash-correct objects
    and every quota holds. */
module StoreInvariant {
  import opened Foundation
  import opened AttachmentLimits
  import opened Digests
  import opened StoreModel

  ghost predicate ObjectsOk(objects: map<Digest, Object>) {
    forall d :: d in objects ==>
      HashOk(objects, d) && TAG_BYTES < |objects[d].content| <= MAX_CHUNK_BYTES + TAG_BYTES
  }

  ghost predicate LeaseOk(objects: map<Digest, Object>, m: Digest, lease: Lease) {
    && lease.manifest == m && 1 <= |lease.chunks| <= MAX_CHUNKS && Distinct(lease.chunks)
    && forall d :: d in lease.chunks ==> d in objects
  }

  ghost predicate LeasesOk(d: Disk) {
    forall m :: m in d.leases ==> LeaseOk(d.objects, m, d.leases[m])
  }

  ghost predicate Inv(d: Disk, q: Quota) {
    var holds :=
      && ObjectsOk(d.objects) && LeasesOk(d)
      && |d.objects| <= q.maxObjects && TotalBytes(d.objects) <= q.maxBytes
      && |d.leases| <= q.maxLeases
      && |d.claims| <= MAX_ACCESS_CLAIMS;
    holds
  }

  // ------------------------------------------------------------------ byte totals

  lemma {:induction false} TotalRemove(objects: map<Digest, Object>, d: Digest)
    requires d in objects
    ensures TotalBytes(objects) == |objects[d].content| + TotalBytes(objects - {d})
    decreases |objects|
  {
    var e :| e in objects && TotalBytes(objects) == |objects[e].content| + TotalBytes(objects - {e});
    if e != d {
      TotalRemove(objects - {e}, d);
      TotalRemove(objects - {d}, e);
      assert objects - {e} - {d} == objects - {d} - {e};
    }
  }

  lemma TotalUpdate(objects: map<Digest, Object>, d: Digest, o: Object)
    ensures TotalBytes(objects[d := o]) == |o.content| + TotalBytes(objects - {d})
  {
    TotalRemove(objects[d := o], d);
    assert objects[d := o] - {d} == objects - {d};
  }

  lemma {:induction false} TotalSubset(objects: map<Digest, Object>, names: set<Digest>)
    ensures TotalBytes(objects - names) <= TotalBytes(objects)
    decreases names
  {
    if names == {} {
      assert objects - names == objects;
    } else {
      var d :| d in names;
      var fewer := names - {d};
      TotalSubset(objects, fewer);
      TotalDropOne(objects - fewer, d);
      assert objects - names == objects - fewer - {d};
    }
  }

  lemma TotalDropOne(objects: map<Digest, Object>, d: Digest)
    ensures TotalBytes(objects - {d}) <= TotalBytes(objects)
  {
    if d in objects { TotalRemove(objects, d); } else { assert objects - {d} == objects; }
  }

  // ------------------------------------------------------------------ PutObjects

  /** Storing a batch adds exactly its objects and alters no content already there. */
  lemma {:induction false} PutsContent(d: Disk, chunks: seq<Chunk>, stamp: int)
    requires NewCost(d.objects, chunks).Some? && forall i :: 0 <= i < |chunks| ==> ValidChunk(chunks[i])
    ensures var e := Puts(d, chunks, stamp);
            && e == d.(objects := e.objects)
            && (forall x :: x in e.objects <==> x in d.objects || x in DigestsOf(chunks))
            && (forall x :: x in d.objects ==> e.objects[x].content == d.objects[x].content)
            && (forall x :: x in e.objects && x !in d.objects ==>
                  x == Sha256(e.objects[x].content)
                  && TAG_BYTES < |e.objects[x].content| <= MAX_CHUNK_BYTES + TAG_BYTES)
  {
    if chunks != [] {
      var front, c := chunks[..|chunks| - 1], chunks[|chunks| - 1];
      assert DigestsOf(chunks) == DigestsOf(front) + [c.digest];
      PutsContent(d, front, stamp);
      assert ValidChunk(c);
    }
  }

  /** Its count and bytes are what newObjectCost announced. */
  lemma {:induction false} PutsTotals(d: Disk, chunks: seq<Chunk>, stamp: int)
    requires NewCost(d.objects, chunks).Some? && forall i :: 0 <= i < |chunks| ==> ValidChunk(chunks[i])
    requires Distinct(DigestsOf(chunks))
    ensures var e, cost := Puts(d, chunks, stamp), NewCost(d.objects, chunks).value;
            |e.objects| == |d.objects| + cost.0 && TotalBytes(e.objects) == TotalBytes(d.objects) + cost.1
  {
    if chunks != [] {
      var front, c := chunks[..|chunks| - 1], chunks[|chunks| - 1];
      assert DigestsOf(front) == DigestsOf(chunks)[..|front|];
      PutsTotals(d, front, stamp);
      PutsContent(d, front, stamp);
      NewOne(DigestsOf(chunks), DigestsOf(front), c.digest);
      var before, o := Puts(d, front, stamp).objects, Object(c.ciphertext, stamp);
      if c.digest in before { PutSame(before, c.digest, o); } else { PutNew(before, c.digest, o); }
    }
  }

  lemma NewOne(names: seq<Digest>, front: seq<Digest>, last: Digest)
    requires Distinct(names) && |names| > 0 && names[|names| - 1] == last && front == names[..|names| - 1]
    ensures last !in front
  {
  }

  lemma PutNew(objects: map<Digest, Object>, d: Digest, o: Object)
    requires d !in objects
    ensures |objects[d := o]| == |objects| + 1 && TotalBytes(objects[d := o]) == TotalBytes(objects) + |o.content|
  {
    TotalUpdate(objects, d, o);
    assert objects[d := o].Keys == objects.Keys + {d};
    assert objects - {d} == objects;
  }

  lemma PutSame(objects: map<Digest, Object>, d: Digest, o: Object)
    requires d in objects && objects[d].content == o.content
    ensures |objects[d := o]| == |objects| && TotalBytes(objects[d := o]) == TotalBytes(objects)
  {
    TotalUpdate(objects, d, o);
    assert objects[d := o].Keys == objects.Keys;
    TotalRemove(objects, d);
  }

  lemma {:induction false} CostMonotone(objects: map<Digest, Object>, chunks: seq<Chunk>, k: nat)
    requires NewCost(objects, chunks).Some? && k <= |chunks|
    ensures NewCost(objects, chunks[..k]).Some?
    ensures NewCost(objects, chunks[..k]).value.0 <= NewCost(objects, chunks).value.0
    ensures NewCost(objects, chunks[..k]).value.1 <= NewCost(objects, chunks).value.1
  {
    if k < |chunks| {
      var front := chunks[..|chunks| - 1];
      CostMonotone(objects, front, k);
      assert front[..k] == chunks[..k];
    } else {
      assert chunks[..k] == chunks;
    }
  }

  lemma PutKeeps(d: Disk, q: Quota, chunks: seq<Chunk>, stamp: int, k: nat)
    requires Inv(d, q) && PutResult(d, q, chunks).Ok? && k <= |chunks|
    ensures Inv(Puts(d, chunks[..k], stamp), q)
  {
    CostMonotone(d.objects, chunks, k);
    assert DigestsOf(chunks[..k]) == DigestsOf(chunks)[..k];
    PutsContent(d, chunks[..k], stamp);
    PutsTotals(d, chunks[..k], stamp);
  }

  // ---------------------------------------------------------------- other operations

  /** What a successful commit has checked. */
  lemma CommitChecked(d: Disk, q: Quota, lease: Lease, bytes: nat, now: int)
    requires CommitResult(d, q, lease, bytes, now).Ok?
    ensures LeaseOk(d.objects, lease.manifest, lease) && SumLengths(d.objects, lease.chunks) == bytes
    ensures forall i :: 0 <= i < |lease.chunks| ==> HashOk(d.objects, lease.chunks[i])
    ensures CommitResult(d, q, lease, bytes, now).value ==> |d.leases| < q.maxLeases
  {
    assert VerifyObjects(d.objects, lease.chunks, bytes).Ok?;
    forall x | x in lease.chunks ensures x in d.objects {
      var i :| 0 <= i < |lease.chunks| && lease.chunks[i] == x;
      assert HashOk(d.objects, lease.chunks[i]);
    }
  }

  lemma CommitKeeps(d: Disk, q: Quota, lease: Lease)
    requires Inv(d, q) && LeaseOk(d.objects, lease.manifest, lease) && |d.leases| < q.maxLeases
    ensures Inv(d.(leases := d.leases[lease.manifest := lease]), q)
  {
    assert d.leases[lease.manifest := lease].Keys == d.leases.Keys + {lease.manifest};
  }

  lemma RemoveKeeps(d: Disk, q: Quota, names: set<Digest>)
    requires Inv(d, q)
    ensures Inv(d.(leases := d.leases - names), q)
  {
    MapShrinks(d.leases, names);
  }

  lemma MapShrinks<K, V>(m: map<K, V>, names: set<K>)
    ensures |m - names| <= |m|
  {
    assert (m - names).Keys <= m.Keys;
    SubsetSize((m - names).Keys, m.Keys);
  }

  lemma {:induction false} SubsetSize<K>(a: set<K>, b: set<K>)
    requires a <= b
    ensures |a| <= |b|
    decreases a
  {
    if x :| x in a {
      SubsetSize(a - {x}, b - {x});
    }
  }

  /** No lease outside `expired` names an object of `removed`. */
  ghost predicate Unused(d: Disk, expired: seq<Digest>, removed: seq<Digest>) {
    forall m, x :: m in d.leases && m !in expired && x in d.leases[m].chunks ==> x !in removed
  }

  lemma UnusedPrefix(d: Disk, expired: seq<Digest>, removed: seq<Digest>, k: nat)
    requires Unused(d, expired, removed) && k <= |removed|
    ensures Unused(d, expired, removed[..k])
  {
    forall x | x in removed[..k] ensures x in removed {}
  }

  lemma CollectedLeases(d: Disk, expired: seq<Digest>, removed: seq<Digest>)
    requires LeasesOk(d) && Unused(d, expired, removed)
    ensures LeasesOk(Collected(d, expired, removed))
  {
    var e := Collected(d, expired, removed);
    forall m | m in e.leases ensures LeaseOk(e.objects, m, e.leases[m]) {
      assert LeaseOk(d.objects, m, d.leases[m]);
    }
  }

  lemma CollectedObjects(objects: map<Digest, Object>, names: set<Digest>)
    requires ObjectsOk(objects)
    ensures ObjectsOk(objects - names)
  {
    forall x | x in objects - names
      ensures HashOk(objects - names, x) && TAG_BYTES < |objects[x].content| <= MAX_CHUNK_BYTES + TAG_BYTES
    {
      assert HashOk(objects, x);
    }
  }

  /** Objects that no stored lease names may go. */
  lemma CollectKeeps(d: Disk, q: Quota, expired: seq<Digest>, removed: seq<Digest>)
    requires Inv(d, q) && Unused(d, expired, removed)
    ensures Inv(Collected(d, expired, removed), q)
  {
    CollectedLeases(d, expired, removed);
    CollectedObjects(d.objects, NameSet(removed));
    TotalSubset(d.objects, NameSet(removed));
    MapShrinks(d.objects, NameSet(removed));
    MapShrinks(d.leases, NameSet(expired));
  }

  /** Nothing a surviving lease names is removable. */
  lemma RemovableUnused(d: Disk, now: int, grace: nat, leaseNames: seq<Digest>, objectNames: seq<Digest>)
    requires Lists(leaseNames, d.leases.Keys)
    ensures Unused(d, ExpiredNames(d, now, leaseNames), RemovableNames(d, now, grace, objectNames))
  {
    forall m, x | m in d.leases && m !in ExpiredNames(d, now, leaseNames) && x in d.leases[m].chunks
      ensures x !in RemovableNames(d, now, grace, objectNames)
    {
      assert m in leaseNames;
      assert Referenced(d, now, x);
    }
  }

  lemma PurgeKeeps(d: Disk, q: Quota, names: seq<ClaimKey>)
    requires Inv(d, q)
    ensures Inv(Purged(d, names), q)
  {
    MapShrinks(d.claims, NameSet(names));
  }

  lemma ClaimKeeps(d: Disk, q: Quota, k: ClaimKey, expires: nat)
    requires Inv(d, q) && |d.claims| < MAX_ACCESS_CLAIMS
    ensures Inv(d.(claims := d.claims[k := expires]), q)
  {
    assert d.claims[k := expires].Keys == d.claims.Keys + {k};
  }

  /** Purging leaves exactly the live claims. */
  lemma PurgedLive(d: Disk, now: int, names: seq<ClaimKey>)
    requires Lists(names, d.claims.Keys)
    ensures Purged(d, ExpiredClaims(d, now, names)).claims.Keys == LiveClaims(d, now)
  {
  }

  lemma FileAfterKeeps(d: Disk, q: Quota, r: AccessRequest, expired: seq<ClaimKey>, cut: nat)
    requires Inv(d, q) && |Purged(d, expired).claims| < MAX_ACCESS_CLAIMS && cut <= FileSteps(d, r, expired)
    ensures Inv(FileAfter(d, r, expired, cut), q)
  {
    if cut <= |expired| {
      PurgeKeeps(d, q, expired[..cut]);
    } else {
      PurgeKeeps(d, q, expired);
      ClaimKeeps(Purged(d, expired), q, KeyOf(r), r.expires);
    }
  }

  lemma ClaimAfterKeeps(d: Disk, q: Quota, r: AccessRequest, now: int, names: seq<ClaimKey>, cut: nat)
    requires Inv(d, q) && Lists(names, d.claims.Keys) && cut <= ClaimSteps(d, r, now, names)
    ensures Inv(ClaimAfter(d, r, now, names, cut), q)
  {
    if cut > 0 {
      var clean := Purged(d, ExpiredClaims(d, now, names));
      PurgedLive(d, now, names);
      assert |clean.claims| == |clean.claims.Keys|;
      FileAfterKeeps(d, q, r, ExpiredClaims(d, now, names), cut);
    }
  }

  lemma CollectAfterKeeps(d: Disk, q: Quota, expired: seq<Digest>, removed: seq<Digest>, cut: nat)
    requires Inv(d, q) && cut <= |expired| + |removed|
    requires Unused(d, expired, removed)
    ensures Inv(CollectAfter(d, expired, removed, cut), q)
  {
    if cut <= |expired| {
      CollectKeeps(d, q, expired[..cut], []);
    } else {
      UnusedPrefix(d, expired, removed, cut - |expired|);
      CollectKeeps(d, q, expired, removed[..cut - |expired|]);
    }
  }

  lemma ClockKeeps(d: Disk, q: Quota, clock: Option<nat>)
    requires Inv(d, q)
    ensures Inv(d.(clock := clock), q)
  {
  }

  lemma AdvancedKeeps(d: Disk, clock: Option<nat>, q: Quota, r: AccessRequest, now: int, names: seq<ClaimKey>, cut: nat)
    requires Inv(d, q) && Lists(names, d.claims.Keys) && cut <= ClaimSteps(d.(clock := clock), r, now, names)
    ensures Inv(ClaimAfter(d.(clock := clock), r, now, names, cut), q)
  {
    ClockKeeps(d, q, clock);
    ClaimAfterKeeps(d.(clock := clock), q, r, now, names, cut);
  }

  lemma AuthorizeAfterKeeps(d: Disk, q: Quota, r: AccessRequest, now: int, names: seq<ClaimKey>, cut: nat)
    requires Inv(d, q) && Lists(names, d.claims.Keys) && 0 < cut <= AuthorizeSteps(d, r, now, names)
    ensures Inv(AuthorizeAfter(d, r, now, names, cut), q)
  {
    match ClockStep(d, now)
    case Ok(None) =>
      assert AuthorizeAfter(d, r, now, names, cut) == ClaimAfter(d, r, now, names, cut);
      ClaimAfterKeeps(d, q, r, now, names, cut);
    case Ok(Some(e)) =>
      assert AuthorizeAfter(d, r, now, names, cut) == ClaimAfter(d.(clock := e.clock), r, now, names, cut - 1);
      AdvancedKeeps(d, e.clock, q, r, now, names, cut - 1);
  }

  /** The step-wise store invariant: it holds after every file operation of every call. */
  lemma AfterKeeps(d: Disk, q: Quota, op: Operation, cut: nat)
    requires Inv(d, q) && Listed(d, op) && cut <= Steps(d, q, op)
    ensures Inv(After(d, q, op, cut), q)
  {
    match op
    case Put(chunks, stamp) => if cut > 0 { PutKeeps(d, q, chunks, stamp, cut); }
    case Commit(lease, bytes, now) =>
      if cut > 0 {
        CommitChecked(d, q, lease, bytes, now);
        CommitKeeps(d, q, lease);
      }
    case Remove(m) => if cut > 0 { RemoveKeeps(d, q, {m}); }
    case Collect(now, grace, leaseNames, objectNames) =>
      if cut > 0 {
        RemovableUnused(d, now, grace, leaseNames, objectNames);
        CollectAfterKeeps(d, q, ExpiredNames(d, now, leaseNames), RemovableNames(d, now, grace, objectNames), cut);
      }
    case Authorize(r, now, names) => if cut > 0 { AuthorizeAfterKeeps(d, q, r, now, names, cut); }
  }
}
