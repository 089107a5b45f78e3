/** The store as the source runs it: directories changed one file at a time, inside loops.

    `history` records the disk after each file operation, so what a method says about it holds
    at every point where the process may stop. */
module StoreMachine {
  import opened Foundation
  import opened AttachmentLimits
  import opened Digests
  import opened StoreModel
  import opened StoreInvariant

  // ------------------------------------------------------------------- read-only scans

  lemma {:induction false} BatchMonotone(chunks: seq<Chunk>, k: nat)
    requires k <= |chunks|
    ensures BatchBytes(chunks[..k]) <= BatchBytes(chunks)
  {
    if k < |chunks| {
      BatchMonotone(chunks[..|chunks| - 1], k);
      assert chunks[..|chunks| - 1][..k] == chunks[..k];
    } else {
      assert chunks[..k] == chunks;
    }
  }

  method ValidateBatch(chunks: seq<Chunk>) returns (ok: bool)
    ensures ok <==> ValidBatch(chunks)
  {
    if |chunks| == 0 || |chunks| > MAX_CHUNKS { return false; }
    var distinct := AllDistinct(DigestsOf(chunks));
    if !distinct { return false; }
    var total := 0;
    for i := 0 to |chunks|
      invariant forall j :: 0 <= j < i ==> ValidChunk(chunks[j])
      invariant total == BatchBytes(chunks[..i]) <= MAX_PLAINTEXT_BYTES + MAX_CHUNKS * TAG_BYTES
    {
      if !ValidChunk(chunks[i]) { return false; }
      assert chunks[..i + 1][..i] == chunks[..i];
      total := total + |chunks[i].ciphertext|;
      if total > MAX_PLAINTEXT_BYTES + MAX_CHUNKS * TAG_BYTES {
        BatchMonotone(chunks, i + 1);
        return false;
      }
    }
    assert chunks[..|chunks|] == chunks;
    ok := true;
  }

  lemma {:induction false} CostFails(objects: map<Digest, Object>, chunks: seq<Chunk>, k: nat)
    requires k <= |chunks| && NewCost(objects, chunks[..k]).None?
    ensures NewCost(objects, chunks).None?
  {
    if k < |chunks| {
      assert chunks[..|chunks| - 1][..k] == chunks[..k];
      CostFails(objects, chunks[..|chunks| - 1], k);
    } else {
      assert chunks[..k] == chunks;
    }
  }

  method NewObjectCost(objects: map<Digest, Object>, chunks: seq<Chunk>) returns (r: Option<(nat, nat)>)
    ensures r == NewCost(objects, chunks)
  {
    var count, size := 0, 0;
    for i := 0 to |chunks|
      invariant NewCost(objects, chunks[..i]) == Some((count, size))
    {
      assert chunks[..i + 1][..i] == chunks[..i];
      var c := chunks[i];
      if c.digest !in objects {
        count, size := count + 1, size + |c.ciphertext|;
      } else if objects[c.digest].content != c.ciphertext {
        CostFails(objects, chunks, i + 1);
        return None;
      }
    }
    assert chunks[..|chunks|] == chunks;
    r := Some((count, size));
  }

  /** usage: every entry must be hash-correct; count and bytes of all of them. */
  method Usage(objects: map<Digest, Object>) returns (r: Option<nat>)
    ensures r == if AllHashOk(objects) then Some(TotalBytes(objects)) else None
  {
    var rest, size := objects, 0;
    while rest != map[]
      invariant forall d :: d in rest ==> d in objects && rest[d] == objects[d]
      invariant forall d :: d in objects && d !in rest ==> HashOk(objects, d)
      invariant size + TotalBytes(rest) == TotalBytes(objects)
      decreases rest.Keys
    {
      var d :| d in rest;
      if d != Sha256(rest[d].content) {
        assert !HashOk(objects, d);
        return None;
      }
      TotalRemove(rest, d);
      size := size + |rest[d].content|;
      rest := rest - {d};
    }
    r := Some(size);
  }

  /** The bytes a list of names stands for. */
  method AddLengths(objects: map<Digest, Object>, ds: seq<Digest>) returns (total: nat)
    ensures total == SumLengths(objects, ds)
  {
    total := 0;
    for i := 0 to |ds|
      invariant total == SumLengths(objects, ds[..i])
    {
      SumAppend(objects, ds[..i], ds[i]);
      assert ds[..i + 1] == ds[..i] + [ds[i]];
      if ds[i] in objects {
        total := total + |objects[ds[i]].content|;
      }
    }
    assert ds[..|ds|] == ds;
  }

  method VerifyLeaseObjects(objects: map<Digest, Object>, ds: seq<Digest>, bytes: nat) returns (r: Result<(), Error>)
    ensures r == VerifyObjects(objects, ds, bytes)
  {
    var total := 0;
    for i := 0 to |ds|
      invariant forall j :: 0 <= j < i ==> HashOk(objects, ds[j])
      invariant total == SumLengths(objects, ds[..i])
    {
      if !HashOk(objects, ds[i]) { return Err(NotFound); }
      assert ds[..i + 1] == ds[..i] + [ds[i]];
      SumAppend(objects, ds[..i], ds[i]);
      total := total + |objects[ds[i]].content|;
    }
    assert ds[..|ds|] == ds;
    r := if total != bytes then Err(Conflict) else Ok(());
  }

  method ValidateDigests(ds: seq<Digest>) returns (ok: bool)
    ensures ok <==> AllValid(ds) && Distinct(ds)
  {
    for i := 0 to |ds|
      invariant forall j :: 0 <= j < i ==> ValidDigest(ds[j])
    {
      if !ValidDigest(ds[i]) { return false; }
    }
    ok := AllDistinct(ds);
  }

  lemma {:induction false} GatherFails(objects: map<Digest, Object>, chunks: seq<Digest>, ds: seq<Digest>, k: nat)
    requires |chunks| <= MAX_CHUNKS && k <= |ds| && Gather(objects, chunks, ds[..k]).Err?
    ensures Gather(objects, chunks, ds) == Gather(objects, chunks, ds[..k])
  {
    if k < |ds| {
      assert ds[..|ds| - 1][..k] == ds[..k];
      GatherFails(objects, chunks, ds[..|ds| - 1], k);
    } else {
      assert ds[..k] == ds;
    }
  }

  method GatherChunks(objects: map<Digest, Object>, chunks: seq<Digest>, ds: seq<Digest>)
    returns (r: Result<seq<Chunk>, Error>)
    requires |chunks| <= MAX_CHUNKS
    ensures r == Gather(objects, chunks, ds)
  {
    var found: seq<Chunk> := [];
    for i := 0 to |ds|
      invariant Gather(objects, chunks, ds[..i]) == Ok(found)
    {
      assert ds[..i + 1][..i] == ds[..i];
      if ds[i] !in chunks {
        GatherFails(objects, chunks, ds, i + 1);
        return Err(Outside);
      }
      if !HashOk(objects, ds[i]) {
        GatherFails(objects, chunks, ds, i + 1);
        return Err(Corrupt);
      }
      found := found + [Chunk(PositionOf(chunks, ds[i]), ds[i], objects[ds[i]].content)];
    }
    assert ds[..|ds|] == ds;
    r := Ok(found);
  }

  /** The first half of a collection: what live leases name, and which leases have expired. */
  method ScanLeases(d: Disk, now: int, names: seq<Digest>) returns (referenced: set<Digest>, expired: seq<Digest>)
    requires Lists(names, d.leases.Keys)
    ensures forall x :: x in referenced <==> Referenced(d, now, x)
    ensures expired == ExpiredNames(d, now, names)
  {
    referenced, expired := {}, [];
    for i := 0 to |names|
      invariant forall x :: x in referenced <==>
                  exists j :: 0 <= j < i && !Expired(d.leases[names[j]], now) && x in d.leases[names[j]].chunks
      invariant expired == ExpiredNames(d, now, names[..i])
    {
      assert names[i] in names;
      assert names[..i + 1][..i] == names[..i];
      if Expired(d.leases[names[i]], now) {
        expired := expired + [names[i]];
      } else {
        referenced := referenced + set x | x in d.leases[names[i]].chunks;
      }
    }
    assert names[..|names|] == names;
    forall x ensures x in referenced <==> Referenced(d, now, x) {
      if Referenced(d, now, x) {
        var m :| m in d.leases && !Expired(d.leases[m], now) && x in d.leases[m].chunks;
        var j :| 0 <= j < |names| && names[j] == m;
      }
    }
  }

  /** The second half: every object is checked before the first is removed. */
  method ScanObjects(d: Disk, now: int, grace: nat, names: seq<Digest>, referenced: set<Digest>)
    returns (r: Option<seq<Digest>>)
    requires Lists(names, d.objects.Keys) && forall x :: x in referenced <==> Referenced(d, now, x)
    ensures r == if AllHashOk(d.objects) then Some(RemovableNames(d, now, grace, names)) else None
  {
    var removed: seq<Digest> := [];
    for i := 0 to |names|
      invariant forall j :: 0 <= j < i ==> HashOk(d.objects, names[j])
      invariant removed == RemovableNames(d, now, grace, names[..i])
    {
      assert names[i] in names;
      assert names[..i + 1][..i] == names[..i];
      if names[i] != Sha256(d.objects[names[i]].content) {
        assert !HashOk(d.objects, names[i]);
        return None;
      }
      if names[i] !in referenced && !(grace > 0 && now < d.objects[names[i]].modified + grace) {
        removed := removed + [names[i]];
      }
    }
    assert names[..|names|] == names;
    r := Some(removed);
  }

  lemma PutSteps(d: Disk, q: Quota, chunks: seq<Chunk>, stamp: int)
    requires PutResult(d, q, chunks).Ok?
    ensures Steps(d, q, Put(chunks, stamp)) == |chunks| && chunks[..|chunks|] == chunks
    ensures forall k :: 0 <= k <= |chunks| ==> After(d, q, Put(chunks, stamp), k) == Puts(d, chunks[..k], stamp)
  {
  }

  lemma CollectSteps(d: Disk, q: Quota, now: int, grace: nat, leaseNames: seq<Digest>, objectNames: seq<Digest>)
    requires CollectAllowed(d, now, grace)
    ensures var op := Collect(now, grace, leaseNames, objectNames);
            var expired, removed := ExpiredNames(d, now, leaseNames), RemovableNames(d, now, grace, objectNames);
            && Steps(d, q, op) == |expired| + |removed|
            && forall k :: 0 <= k <= |expired| + |removed| ==> After(d, q, op, k) == CollectAfter(d, expired, removed, k)
  {
    assert d.leases - NameSet<Digest>([]) == d.leases && d.objects - NameSet<Digest>([]) == d.objects;
  }

  lemma NamesGrow<K>(names: seq<K>, i: nat)
    requires i < |names|
    ensures NameSet(names[..i + 1]) == NameSet(names[..i]) + {names[i]}
  {
    assert names[..i + 1] == names[..i] + [names[i]];
  }

  method CountLive(d: Disk, now: int, names: seq<ClaimKey>) returns (live: nat)
    requires Lists(names, d.claims.Keys)
    ensures live == |LiveClaims(d, now)|
  {
    ghost var counted: set<ClaimKey> := {};
    live := 0;
    for i := 0 to |names|
      invariant live == |counted|
      invariant forall k :: k in counted <==> k in names[..i] && k in LiveClaims(d, now)
    {
      assert names[i] in names;
      assert names[..i + 1] == names[..i] + [names[i]];
      if d.claims[names[i]] > Unix(now) {
        assert names[i] !in names[..i];
        counted := counted + {names[i]};
        live := live + 1;
      }
    }
    assert names[..|names|] == names;
    assert counted == LiveClaims(d, now);
  }

  method ListExpired(d: Disk, now: int, names: seq<ClaimKey>) returns (expired: seq<ClaimKey>)
    requires Lists(names, d.claims.Keys)
    ensures expired == ExpiredClaims(d, now, names)
  {
    expired := [];
    for i := 0 to |names|
      invariant expired == ExpiredClaims(d, now, names[..i])
    {
      assert names[i] in names;
      assert names[..i + 1][..i] == names[..i];
      if d.claims[names[i]] <= Unix(now) {
        expired := expired + [names[i]];
      }
    }
    assert names[..|names|] == names;
  }

  // ------------------------------------------------------------------------ the store

  class Store {
    const quota: Quota
    var objects: map<Digest, Object>
    var leases: map<Digest, Lease>
    var claims: map<ClaimKey, nat>
    var clock: Option<nat>
    ghost var history: seq<Disk>

    function Value(): Disk
      reads this
    {
      Disk(objects, leases, claims, clock)
    }

    constructor (quota: Quota, d: Disk)
      ensures Value() == d && this.quota == quota && history == [d]
    {
      this.quota := quota;
      objects, leases, claims, clock := d.objects, d.leases, d.claims, d.clock;
      history := [d];
    }

    /** The calls since `was` left exactly these disks behind, one per file operation. */
    ghost predicate Recorded(was: seq<Disk>, d: Disk, op: Operation)
      reads this
    {
      Value() == After(d, quota, op, Steps(d, quota, op)) && TracedIn(history, was, d, quota, op)
    }

    // One file operation each.

    method WriteObject(d: Digest, o: Object)
      modifies this
      ensures Value() == old(Value()).(objects := old(objects)[d := o]) && history == old(history) + [Value()]
    {
      objects := objects[d := o];
      history := history + [Value()];
    }

    method RemoveObject(d: Digest)
      modifies this
      ensures Value() == old(Value()).(objects := old(objects) - {d}) && history == old(history) + [Value()]
    {
      objects := objects - {d};
      history := history + [Value()];
    }

    method WriteLease(lease: Lease)
      modifies this
      ensures Value() == old(Value()).(leases := old(leases)[lease.manifest := lease])
      ensures history == old(history) + [Value()]
    {
      leases := leases[lease.manifest := lease];
      history := history + [Value()];
    }

    method RemoveLease(m: Digest)
      modifies this
      ensures Value() == old(Value()).(leases := old(leases) - {m}) && history == old(history) + [Value()]
    {
      leases := leases - {m};
      history := history + [Value()];
    }

    method WriteClaim(k: ClaimKey, expires: nat)
      modifies this
      ensures Value() == old(Value()).(claims := old(claims)[k := expires]) && history == old(history) + [Value()]
    {
      claims := claims[k := expires];
      history := history + [Value()];
    }

    method RemoveClaim(k: ClaimKey)
      modifies this
      ensures Value() == old(Value()).(claims := old(claims) - {k}) && history == old(history) + [Value()]
    {
      claims := claims - {k};
      history := history + [Value()];
    }

    method WriteClock(highest: nat)
      modifies this
      ensures Value() == old(Value()).(clock := Some(highest)) && history == old(history) + [Value()]
    {
      clock := Some(highest);
      history := history + [Value()];
    }

    // The calls.

    /** The checks PutObjects makes before its first write. */
    method AdmitBatch(chunks: seq<Chunk>) returns (r: Result<nat, Error>)
      ensures r == PutResult(Value(), quota, chunks)
    {
      var valid := ValidateBatch(chunks);
      if !valid { return Err(Invalid); }
      var cost := NewObjectCost(objects, chunks);
      if cost.None? { return Err(Conflict); }
      var held := Usage(objects);
      if held.None? { return Err(Corrupt); }
      if |objects| + cost.value.0 > quota.maxObjects || held.value + cost.value.1 > quota.maxBytes {
        return Err(OverQuota);
      }
      r := Ok(cost.value.0);
    }

    method PutObjects(chunks: seq<Chunk>, stamp: int) returns (r: Result<nat, Error>)
      modifies this
      ensures r == PutResult(old(Value()), quota, chunks)
      ensures Recorded(old(history), old(Value()), Put(chunks, stamp))
    {
      r := AdmitBatch(chunks);
      if r.Ok? {
        StoreAll(chunks, stamp);
        PutSteps(old(Value()), quota, chunks, stamp);
      }
    }

    method StoreAll(chunks: seq<Chunk>, stamp: int)
      modifies this
      ensures Putting(old(Value()), old(history), chunks, stamp, |chunks|)
    {
      ghost var d := Value();
      for i := 0 to |chunks|
        invariant Putting(d, old(history), chunks, stamp, i)
      {
        assert chunks[..i + 1][..i] == chunks[..i];
        WriteObject(chunks[i].digest, Object(chunks[i].ciphertext, stamp));
      }
    }

    /** n objects of a batch have been written and recorded. */
    ghost predicate Putting(d: Disk, was: seq<Disk>, chunks: seq<Chunk>, stamp: int, n: nat)
      requires n <= |chunks|
      reads this
    {
      var holds :=
        && Value() == Puts(d, chunks[..n], stamp)
        && |history| == |was| + n && history[..|was|] == was
        && forall k :: 1 <= k <= n ==> history[|was| + k - 1] == Puts(d, chunks[..k], stamp);
      holds
    }

    method CommitOpaque(lease: Lease, bytes: nat, now: int) returns (r: Result<bool, Error>)
      modifies this
      ensures r == CommitResult(old(Value()), quota, lease, bytes, now)
      ensures Recorded(old(history), old(Value()), Commit(lease, bytes, now))
    {
      var valid := ValidateDigests(lease.chunks);
      if !valid || !ValidDigest(lease.manifest) || |lease.chunks| == 0 || |lease.chunks| > MAX_CHUNKS
         || Unix(now) < 0 || lease.expires <= Unix(now) || lease.expires - Unix(now) > quota.maxRetention || bytes == 0 {
        return Err(Invalid);
      }
      if lease.manifest in leases {
        if leases[lease.manifest] != lease { return Err(Conflict); }
        var same := VerifyLeaseObjects(objects, lease.chunks, bytes);
        return match same case Ok(_) => Ok(false) case Err(e) => Err(e);
      }
      if |leases| >= quota.maxLeases { return Err(OverQuota); }
      var present := VerifyLeaseObjects(objects, lease.chunks, bytes);
      if present.Err? { return Err(present.error); }
      WriteLease(lease);
      r := Ok(true);
    }

    method FetchOpaque(manifest: Digest, ds: seq<Digest>, now: int) returns (r: Result<(seq<Chunk>, nat), Error>)
      ensures r == Fetch(Value(), manifest, ds, now)
    {
      var valid := ValidateDigests(ds);
      if !valid || !ValidDigest(manifest) || |ds| == 0 || |ds| > MAX_CHUNKS || Unix(now) < 0 { return Err(Invalid); }
      if manifest !in leases || leases[manifest].expires <= Unix(now) { return Err(NotFound); }
      if |leases[manifest].chunks| > MAX_CHUNKS { return Err(Corrupt); }
      var chunks := GatherChunks(objects, leases[manifest].chunks, ds);
      r := match chunks case Ok(found) => Ok((found, leases[manifest].expires)) case Err(e) => Err(e);
    }

    method Delete(manifest: Digest) returns (r: Result<bool, Error>)
      modifies this
      ensures r == DeleteResult(old(Value()), manifest)
      ensures Recorded(old(history), old(Value()), Remove(manifest))
    {
      if !ValidDigest(manifest) { return Err(Invalid); }
      if manifest !in leases { return Ok(false); }
      RemoveLease(manifest);
      r := Ok(true);
    }

    /** Everything a collection reads and checks before its first removal. */
    method PlanCollection(now: int, grace: nat, leaseNames: seq<Digest>, objectNames: seq<Digest>)
      returns (r: Result<(seq<Digest>, seq<Digest>), Error>)
      requires Lists(leaseNames, leases.Keys) && Lists(objectNames, objects.Keys)
      ensures r.Ok? <==> CollectAllowed(Value(), now, grace)
      ensures r.Ok? ==> r.value == (ExpiredNames(Value(), now, leaseNames),
                                    RemovableNames(Value(), now, grace, objectNames))
    {
      if Unix(now) < 0 || grace > MAX_GRACE { return Err(Invalid); }
      var referenced, expired := ScanLeases(Value(), now, leaseNames);
      var removed := ScanObjects(Value(), now, grace, objectNames, referenced);
      r := if removed.None? then Err(Corrupt) else Ok((expired, removed.value));
    }

    /** GCWithStagingGrace.  The listings are what the directory reads report. */
    method Collect(now: int, grace: nat, leaseNames: seq<Digest>, objectNames: seq<Digest>)
      returns (r: Result<GcReport, Error>)
      requires Lists(leaseNames, leases.Keys) && Lists(objectNames, objects.Keys)
      modifies this
      ensures r.Ok? <==> CollectAllowed(old(Value()), now, grace)
      ensures r.Ok? ==>
                var expired := ExpiredNames(old(Value()), now, leaseNames);
                var removed := RemovableNames(old(Value()), now, grace, objectNames);
                r.value == GcReport(|expired|, |removed|, SumLengths(old(objects), removed))
      ensures Recorded(old(history), old(Value()), StoreModel.Collect(now, grace, leaseNames, objectNames))
    {
      var plan := PlanCollection(now, grace, leaseNames, objectNames);
      if plan.Err? { return Err(plan.error); }
      var bytes := AddLengths(objects, plan.value.1);
      RemoveLeases(plan.value.0, plan.value.1);
      RemoveObjects(old(Value()), old(history), plan.value.0, plan.value.1);
      CollectSteps(old(Value()), quota, now, grace, leaseNames, objectNames);
      r := Ok(GcReport(|plan.value.0|, |plan.value.1|, bytes));
    }

    /** n removals of a collection have been made and recorded. */
    ghost predicate Collecting(d: Disk, was: seq<Disk>, expired: seq<Digest>, removed: seq<Digest>, n: nat)
      requires n <= |expired| + |removed|
      reads this
    {
      var holds :=
        && Value() == CollectAfter(d, expired, removed, n)
        && |history| == |was| + n && history[..|was|] == was
        && forall k :: 1 <= k <= n ==> history[|was| + k - 1] == CollectAfter(d, expired, removed, k);
      holds
    }

    method RemoveLeaseAt(ghost d: Disk, ghost was: seq<Disk>, expired: seq<Digest>, ghost removed: seq<Digest>, i: nat)
      requires i < |expired| && Collecting(d, was, expired, removed, i)
      modifies this
      ensures Collecting(d, was, expired, removed, i + 1)
    {
      NamesGrow(expired, i);
      RemoveLease(expired[i]);
      assert leases == d.leases - NameSet(expired[..i + 1]);
    }

    method RemoveLeases(expired: seq<Digest>, ghost removed: seq<Digest>)
      modifies this
      ensures Collecting(old(Value()), old(history), expired, removed, |expired|)
    {
      ghost var d := Value();
      assert CollectAfter(d, expired, removed, 0) == d;
      for i := 0 to |expired|
        invariant Collecting(d, old(history), expired, removed, i)
      {
        RemoveLeaseAt(d, old(history), expired, removed, i);
      }
    }

    method RemoveObjects(ghost d: Disk, ghost was: seq<Disk>, ghost expired: seq<Digest>, removed: seq<Digest>)
      requires Collecting(d, was, expired, removed, |expired|)
      modifies this
      ensures Collecting(d, was, expired, removed, |expired| + |removed|)
    {
      assert expired[..|expired|] == expired;
      assert d.objects - NameSet<Digest>([]) == d.objects;
      for i := 0 to |removed|
        invariant Collecting(d, was, expired, removed, |expired| + i)
        invariant Value() == Collected(d, expired, removed[..i])
      {
        NamesGrow(removed, i);
        RemoveObject(removed[i]);
        assert objects == d.objects - NameSet(removed[..i + 1]);
      }
    }

    /** claimAccess behind VerifyAccessRequest's window check: advance the persisted clock, purge,
        then file the claim. */
    method Authorize(r: AccessRequest, now: int, names: seq<ClaimKey>) returns (out: Result<(), Error>)
      requires Lists(names, claims.Keys)
      modifies this
      ensures out == AuthorizeResult(old(Value()), r, now)
      ensures Recorded(old(history), old(Value()), StoreModel.Authorize(r, now, names))
    {
      ghost var d := Value();
      if !InWindow(r, now) { return Err(Invalid); }
      var advanced := AdvanceClock(now);
      if advanced.Err? { return Err(advanced.error); }
      ghost var e, was := Value(), history;
      out := ClaimAccess(r, now, names);
      AuthorizeOutcome(d, e, old(history), was, r, now);
      AuthorizeTraced(history, old(history), was, d, e, Value(), quota, r, now, names);
    }

    method AdvanceClock(now: int) returns (out: Result<(), Error>)
      requires Unix(now) >= 0
      modifies this
      ensures match ClockStep(old(Value()), now)
              case Err(e) => out == Err(e) && Value() == old(Value()) && history == old(history)
              case Ok(_) => out == Ok(()) && ClockMoved(old(Value()), Value(), old(history), history, now)
      ensures claims == old(claims)
    {
      if clock.Some? {
        if clock.value == 0 { return Err(Corrupt); }
        if Unix(now) < clock.value { return Err(Rollback); }
        if Unix(now) == clock.value { return Ok(()); }
      }
      WriteClock(Unix(now));
      out := Ok(());
    }

    /** n steps of purging and filing a claim have been made and recorded. */
    ghost predicate Filing(d: Disk, was: seq<Disk>, r: AccessRequest, expired: seq<ClaimKey>, n: nat)
      requires n <= FileSteps(d, r, expired)
      reads this
    {
      Value() == FileAfter(d, r, expired, n) && FiledIn(history, was, d, r, expired, n)
    }

    method FileClaim(r: AccessRequest, expired: seq<ClaimKey>) returns (created: bool)
      modifies this
      ensures Filing(old(Value()), old(history), r, expired, FileSteps(old(Value()), r, expired))
      ensures created <==> KeyOf(r) !in Purged(old(Value()), expired).claims
    {
      ghost var d := Value();
      assert Purged(d, []) == d;
      for i := 0 to |expired|
        invariant Filing(d, old(history), r, expired, i)
      {
        NamesGrow(expired, i);
        RemoveClaim(expired[i]);
        assert claims == d.claims - NameSet(expired[..i + 1]);
      }
      assert expired[..|expired|] == expired;
      if KeyOf(r) in claims { return false; }
      WriteClaim(KeyOf(r), r.expires);
      created := true;
    }

    method ClaimAccess(r: AccessRequest, now: int, names: seq<ClaimKey>) returns (out: Result<(), Error>)
      requires Lists(names, claims.Keys)
      modifies this
      ensures ClaimMoved(old(Value()), Value(), old(history), history, r, now, names)
      ensures out == ClaimResult(LiveClaims(old(Value()), now), r)
    {
      PurgedLive(Value(), now, names);
      var live := CountLive(Value(), now, names);
      if live >= MAX_ACCESS_CLAIMS { return Err(OverQuota); }
      var expired := ListExpired(Value(), now, names);
      var created := FileClaim(r, expired);
      out := if created then Ok(()) else Err(Replay);
    }
  }

  /** The history went on from `was` with every step of the call. */
  ghost predicate TracedIn(h: seq<Disk>, was: seq<Disk>, d: Disk, q: Quota, op: Operation) {
    var n := Steps(d, q, op);
    var holds :=
      && |h| == |was| + n && h[..|was|] == was
      && forall k :: 1 <= k <= n ==> h[|was| + k - 1] == After(d, q, op, k);
    holds
  }

  /** The history went on from `was` with the first n steps of purging and filing. */
  ghost predicate FiledIn(h: seq<Disk>, was: seq<Disk>, d: Disk, r: AccessRequest, expired: seq<ClaimKey>, n: nat)
    requires n <= FileSteps(d, r, expired)
  {
    var holds :=
      && |h| == |was| + n && h[..|was|] == was
      && forall k :: 1 <= k <= n ==> h[|was| + k - 1] == FileAfter(d, r, expired, k);
    holds
  }

  /** The clock is right, and at most one step was recorded for it. */
  ghost predicate ClockMoved(d: Disk, e: Disk, was: seq<Disk>, mid: seq<Disk>, now: int)
    requires Unix(now) >= 0
  {
    var holds :=
      match ClockStep(d, now)
      case Err(_) => false
      case Ok(None) => e == d && mid == was
      case Ok(Some(f)) => e == f && mid == was + [e];
    holds
  }

  /** The claim was filed and recorded, unless the ledger is full. */
  ghost predicate ClaimMoved(e: Disk, f: Disk, mid: seq<Disk>, h: seq<Disk>, r: AccessRequest, now: int, names: seq<ClaimKey>) {
    var expired := ExpiredClaims(e, now, names);
    var holds :=
      if |LiveClaims(e, now)| >= MAX_ACCESS_CLAIMS then f == e && h == mid
      else f == FileAfter(e, r, expired, FileSteps(e, r, expired)) && FiledIn(h, mid, e, r, expired, FileSteps(e, r, expired));
    holds
  }

  /** Advancing the clock does not touch the claims, so the verdict is the one at the start. */
  lemma AuthorizeOutcome(d: Disk, e: Disk, was: seq<Disk>, mid: seq<Disk>, r: AccessRequest, now: int)
    requires InWindow(r, now) && ClockMoved(d, e, was, mid, now)
    ensures AuthorizeResult(d, r, now) == ClaimResult(LiveClaims(e, now), r)
  {
    assert LiveClaims(e, now) == LiveClaims(d, now);
  }

  /** The filing steps, seen as the steps of claiming. */
  lemma ClaimTraced(e: Disk, f: Disk, mid: seq<Disk>, h: seq<Disk>, r: AccessRequest, now: int, names: seq<ClaimKey>)
    requires ClaimMoved(e, f, mid, h, r, now, names)
    ensures |h| == |mid| + ClaimSteps(e, r, now, names) && h[..|mid|] == mid
    ensures f == ClaimAfter(e, r, now, names, ClaimSteps(e, r, now, names))
    ensures forall k :: 1 <= k <= ClaimSteps(e, r, now, names) ==> h[|mid| + k - 1] == ClaimAfter(e, r, now, names, k)
  {
  }

  lemma AdvancedTraced(h: seq<Disk>, was: seq<Disk>, mid: seq<Disk>, d: Disk, e: Disk, f: Disk, q: Quota,
                       r: AccessRequest, now: int, names: seq<ClaimKey>)
    requires InWindow(r, now) && ClockStep(d, now) == Ok(Some(e)) && mid == was + [e] && ClaimMoved(e, f, mid, h, r, now, names)
    ensures TracedIn(h, was, d, q, Authorize(r, now, names))
    ensures f == After(d, q, Authorize(r, now, names), Steps(d, q, Authorize(r, now, names)))
  {
    var op := Authorize(r, now, names);
    ClaimTraced(e, f, mid, h, r, now, names);
    assert h[..|was|] == h[..|mid|][..|was|];
    assert h[|was|] == h[..|mid|][|was|] == e;
    forall k | 1 <= k <= Steps(d, q, op) ensures h[|was| + k - 1] == After(d, q, op, k) {
      if k > 1 { assert h[|was| + k - 1] == h[|mid| + (k - 1) - 1]; }
    }
  }

  /** The clock step and the filing steps together are the steps of the whole call. */
  lemma AuthorizeTraced(h: seq<Disk>, was: seq<Disk>, mid: seq<Disk>, d: Disk, e: Disk, f: Disk, q: Quota,
                        r: AccessRequest, now: int, names: seq<ClaimKey>)
    requires InWindow(r, now) && ClockMoved(d, e, was, mid, now) && ClaimMoved(e, f, mid, h, r, now, names)
    ensures TracedIn(h, was, d, q, Authorize(r, now, names))
    ensures f == After(d, q, Authorize(r, now, names), Steps(d, q, Authorize(r, now, names)))
  {
    if ClockStep(d, now).value.Some? {
      AdvancedTraced(h, was, mid, d, e, f, q, r, now, names);
    } else {
      ClaimTraced(e, f, mid, h, r, now, names);
    }
  }
}
