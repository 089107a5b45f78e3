/** The client side of a stored attachment: batched fetching from a service that may answer
    anything (pkg/attachmentapi/client.go), and what a sealed attachment is worth once stored. */
module AttachmentClient {
  import opened Foundation
  import opened AttachmentLimits
  import opened Digests
  import opened StoreModel
  import opened StoreInvariant
  import opened StoreRefinement
  import opened StoreRuns
  import opened Sealing
  import opened SealingLaws

  const MAX_BATCH: nat := 16

  /** What the service answers to its n-th call, for this batch; None is an error. */
  type Service = (nat, seq<Digest>) -> Option<seq<Chunk>>

  // ---------------------------------------------------------------------- the client's loop

  /** FetchBodyDigest accepts the batch under the grant. */
  ghost predicate BatchAsked(granted: seq<Digest>, batch: seq<Digest>) {
    1 <= |batch| <= MAX_CHUNKS && (forall i :: 0 <= i < |batch| ==> batch[i] in granted) && Distinct(batch)
  }

  /** Every chunk of a reply is the one asked for, at its granted position. */
  predicate ReplyOk(granted: seq<Digest>, batch: seq<Digest>, found: seq<Chunk>) {
    && |found| == |batch|
    && forall i :: 0 <= i < |found| ==>
         found[i].digest == batch[i] && batch[i] in granted && found[i].index == PositionOf(granted, batch[i])
  }

  function Cut(ds: seq<Digest>): (n: nat)
    ensures n <= |ds| && n <= MAX_BATCH && (ds != [] ==> n > 0)
  {
    if |ds| < MAX_BATCH then |ds| else MAX_BATCH
  }

  /** One batch: asked, answered and checked. */
  ghost function FetchOne(service: Service, call: nat, granted: seq<Digest>, batch: seq<Digest>): Option<seq<Chunk>> {
    if !BatchAsked(granted, batch) then None
    else
      match service(call, batch)
      case None => None
      case Some(found) => if ReplyOk(granted, batch, found) then Some(found) else None
  }

  ghost function Joined(before: seq<Chunk>, after: Option<seq<Chunk>>): Option<seq<Chunk>> {
    if after.None? then None else Some(before + after.value)
  }

  ghost function Batches(service: Service, call: nat, granted: seq<Digest>, ds: seq<Digest>): Option<seq<Chunk>>
    decreases |ds|
  {
    if ds == [] then Some([])
    else
      match FetchOne(service, call, granted, ds[..Cut(ds)])
      case None => None
      case Some(found) => Joined(found, Batches(service, call + 1, granted, ds[Cut(ds)..]))
  }

  /** GrantClient.Fetch. */
  ghost function ClientFetch(service: Service, granted: seq<Digest>, ds: seq<Digest>): Option<seq<Chunk>> {
    if ds == [] || |ds| > |granted| then None else Batches(service, 0, granted, ds)
  }

  method CheckReply(granted: seq<Digest>, batch: seq<Digest>, found: seq<Chunk>) returns (ok: bool)
    ensures ok <==> ReplyOk(granted, batch, found)
  {
    if |found| != |batch| {
      return false;
    }
    for i := 0 to |found|
      invariant forall j :: 0 <= j < i ==>
                  found[j].digest == batch[j] && batch[j] in granted && found[j].index == PositionOf(granted, batch[j])
    {
      if found[i].digest != batch[i] || batch[i] !in granted || found[i].index != PositionOf(granted, batch[i]) {
        return false;
      }
    }
    ok := true;
  }

  method CheckBatch(granted: seq<Digest>, batch: seq<Digest>) returns (ok: bool)
    ensures ok <==> BatchAsked(granted, batch)
  {
    if |batch| == 0 || |batch| > MAX_CHUNKS {
      return false;
    }
    for i := 0 to |batch|
      invariant forall j :: 0 <= j < i ==> batch[j] in granted
    {
      if batch[i] !in granted {
        return false;
      }
    }
    ok := AllDistinct(batch);
  }

  method FetchBatch(service: Service, call: nat, granted: seq<Digest>, batch: seq<Digest>) returns (r: Option<seq<Chunk>>)
    ensures r == FetchOne(service, call, granted, batch)
  {
    var asked := CheckBatch(granted, batch);
    if !asked {
      return None;
    }
    r := service(call, batch);
    if r.Some? {
      var ok := CheckReply(granted, batch, r.value);
      if !ok {
        return None;
      }
    }
  }

  lemma JoinedAgain(a: seq<Chunk>, b: seq<Chunk>, rest: Option<seq<Chunk>>)
    ensures Joined(a, Joined(b, rest)) == Joined(a + b, rest)
  {
    if rest.Some? {
      assert a + (b + rest.value) == (a + b) + rest.value;
    }
  }

  /** The batch loop, against any service. */
  method FetchBatched(service: Service, granted: seq<Digest>, ds: seq<Digest>) returns (r: Option<seq<Chunk>>)
    ensures r == ClientFetch(service, granted, ds)
  {
    if ds == [] || |ds| > |granted| {
      return None;
    }
    var start, result: seq<Chunk> := 0, [];
    ghost var call, all := 0, Batches(service, 0, granted, ds);
    assert ds[0..] == ds;
    assert all.Some? ==> [] + all.value == all.value;
    while start < |ds|
      invariant 0 <= start <= |ds| && call == (start + MAX_BATCH - 1) / MAX_BATCH
      invariant start < |ds| ==> start == call * MAX_BATCH
      invariant all == Joined(result, Batches(service, call, granted, ds[start..]))
    {
      var end := if start + MAX_BATCH > |ds| then |ds| else start + MAX_BATCH;
      ghost var rest := ds[start..];
      assert rest[..Cut(rest)] == ds[start..end] && rest[Cut(rest)..] == ds[end..];
      var got := FetchBatch(service, start / MAX_BATCH, granted, ds[start..end]);
      if got.None? {
        return None;
      }
      JoinedAgain(result, got.value, Batches(service, call + 1, granted, ds[end..]));
      result := result + got.value;
      start, call := end, call + 1;
    }
    assert ds[start..] == [] && result + [] == result;
    r := Some(result);
  }

  /** Whatever the service is: a fetch that succeeds has a chunk for every digest asked, naming
      that digest and its granted position.  Its bytes are not yet checked. */
  lemma {:induction false} FetchedNames(service: Service, call: nat, granted: seq<Digest>, ds: seq<Digest>)
    requires Batches(service, call, granted, ds).Some?
    ensures ReplyOk(granted, ds, Batches(service, call, granted, ds).value)
    decreases |ds|
  {
    if ds != [] {
      var n := Cut(ds);
      FetchedNames(service, call + 1, granted, ds[n..]);
      var found, rest := FetchOne(service, call, granted, ds[..n]).value, Batches(service, call + 1, granted, ds[n..]).value;
      forall i | 0 <= i < |ds|
        ensures var c: Chunk := (found + rest)[i]; c.digest == ds[i] && ds[i] in granted && c.index == PositionOf(granted, ds[i])
      {
        if i >= n {
          assert ds[n..][i - n] == ds[i] && (found + rest)[i] == rest[i - n];
        }
      }
    }
  }

  // ------------------------------------------------------------------------ an honest service

  lemma {:induction false} GatherAt(objects: map<Digest, Object>, chunks: seq<Digest>, ds: seq<Digest>, i: nat)
    requires |chunks| <= MAX_CHUNKS && Gather(objects, chunks, ds).Ok?
    ensures |Gather(objects, chunks, ds).value| == |ds|
    ensures i < |ds| ==> ds[i] in chunks && HashOk(objects, ds[i]) && Gather(objects, chunks, ds).value[i] == Chunk(PositionOf(chunks, ds[i]), ds[i], objects[ds[i]].content)
  {
    if ds != [] {
      GatherAt(objects, chunks, ds[..|ds| - 1], if i < |ds| - 1 then i else 0);
    }
  }

  /** One fetch of the store, under the grant's retention. */
  ghost function StoreReply(d: Disk, manifest: Digest, retainUntil: nat, now: int, ds: seq<Digest>): Option<seq<Chunk>> {
    match Fetch(d, manifest, ds, now)
    case Ok((chunks, expires)) => if expires == retainUntil then Some(chunks) else None
    case Err(_) => None
  }

  /** The disk and the clock a call finds: both move on between calls. */
  datatype Moment = Moment(disk: Disk, now: int)

  ghost predicate Serves(service: Service, moments: seq<Moment>, manifest: Digest, retainUntil: nat) {
    forall k, batch :: 0 <= k < |moments| ==>
      service(k, batch) == StoreReply(moments[k].disk, manifest, retainUntil, moments[k].now, batch)
  }

  /** No digest twice in one batch of sixteen. */
  ghost predicate BatchesDistinct(ds: seq<Digest>) {
    forall i, j :: 0 <= i < j < |ds| && i / MAX_BATCH == j / MAX_BATCH ==> ds[i] != ds[j]
  }

  /** The lease is live, with the granted retention. */
  ghost predicate LeaseLive(m: Moment, manifest: Digest, retainUntil: nat) {
    && ValidDigest(manifest) && Unix(m.now) >= 0 && manifest in m.disk.leases
    && m.disk.leases[manifest].expires == retainUntil > Unix(m.now) && |m.disk.leases[manifest].chunks| <= MAX_CHUNKS
  }

  /** A digest the store holds, at one position in the live lease and the grant. */
  ghost predicate Available(m: Moment, manifest: Digest, granted: seq<Digest>, retainUntil: nat, x: Digest) {
    && LeaseLive(m, manifest, retainUntil)
    && var chunks := m.disk.leases[manifest].chunks;
       && ValidDigest(x) && x in granted && x in chunks && HashOk(m.disk.objects, x)
       && PositionOf(granted, x) == PositionOf(chunks, x)
  }

  ghost predicate AllAvailable(m: Moment, manifest: Digest, granted: seq<Digest>, retainUntil: nat, ds: seq<Digest>) {
    forall i :: 0 <= i < |ds| ==> Available(m, manifest, granted, retainUntil, ds[i])
  }

  /** How many calls a list takes. */
  function Calls(n: nat): nat {
    (n + MAX_BATCH - 1) / MAX_BATCH
  }

  /** Every digest is available at the moment its batch is asked for, from call number `call` on. */
  ghost predicate Served(moments: seq<Moment>, call: nat, manifest: Digest, granted: seq<Digest>, retainUntil: nat, ds: seq<Digest>)
    requires call + Calls(|ds|) <= |moments|
  {
    BatchesDistinct(ds) && AvailableFrom(moments, call, manifest, granted, retainUntil, ds)
  }

  ghost predicate AvailableFrom(moments: seq<Moment>, call: nat, manifest: Digest, granted: seq<Digest>, retainUntil: nat, ds: seq<Digest>)
    requires call + Calls(|ds|) <= |moments|
  {
    forall i :: 0 <= i < |ds| ==> Available(moments[call + i / MAX_BATCH], manifest, granted, retainUntil, ds[i])
  }

  /** The chunks a list of digests names, each at its granted position. */
  function Named(granted: seq<Digest>, ds: seq<Digest>): (r: seq<Chunk>)
    requires |granted| <= MAX_CHUNKS && forall i :: 0 <= i < |ds| ==> ds[i] in granted && ValidDigest(ds[i])
    ensures |r| == |ds|
  {
    seq(|ds|, i requires 0 <= i < |ds| && ds[i] in granted && ValidDigest(ds[i]) => Chunk(PositionOf(granted, ds[i]), ds[i], ds[i].preimage))
  }

  /** Gathering succeeds exactly when every digest is listed and held. */
  lemma {:induction false} GatherExactly(objects: map<Digest, Object>, chunks: seq<Digest>, ds: seq<Digest>)
    requires |chunks| <= MAX_CHUNKS
    ensures Gather(objects, chunks, ds).Ok? <==> forall i :: 0 <= i < |ds| ==> ds[i] in chunks && HashOk(objects, ds[i])
  {
    if ds != [] {
      var n := |ds| - 1;
      GatherExactly(objects, chunks, ds[..n]);
      assert forall i :: 0 <= i < n ==> ds[..n][i] == ds[i];
    }
  }

  /** What a live store gathers is what the digests name, at the positions of its lease. */
  lemma GatherNames(m: Moment, manifest: Digest, granted: seq<Digest>, retainUntil: nat, ds: seq<Digest>)
    requires LeaseLive(m, manifest, retainUntil) && |granted| <= MAX_CHUNKS
    requires Gather(m.disk.objects, m.disk.leases[manifest].chunks, ds).Ok?
    ensures var found := Gather(m.disk.objects, m.disk.leases[manifest].chunks, ds).value;
            && |found| == |ds|
            && (AllAvailable(m, manifest, granted, retainUntil, ds) ==> found == Named(granted, ds))
            && (ReplyOk(granted, ds, found) && AllValid(ds) ==> AllAvailable(m, manifest, granted, retainUntil, ds))
  {
    var chunks := m.disk.leases[manifest].chunks;
    var found := Gather(m.disk.objects, chunks, ds).value;
    GatherAt(m.disk.objects, chunks, ds, 0);
    forall i | 0 <= i < |ds|
      ensures ds[i] in chunks && HashOk(m.disk.objects, ds[i])
      ensures found[i] == Chunk(PositionOf(chunks, ds[i]), ds[i], m.disk.objects[ds[i]].content)
    {
      GatherAt(m.disk.objects, chunks, ds, i);
    }
    if AllAvailable(m, manifest, granted, retainUntil, ds) {
      forall i | 0 <= i < |ds| ensures found[i] == Named(granted, ds)[i] {
        assert Available(m, manifest, granted, retainUntil, ds[i]);
      }
    }
  }

  /** One batch from an honest store, in closed form. */
  lemma OneExactly(service: Service, call: nat, m: Moment, manifest: Digest, granted: seq<Digest>, retainUntil: nat, batch: seq<Digest>)
    requires service(call, batch) == StoreReply(m.disk, manifest, retainUntil, m.now, batch)
    requires |granted| <= MAX_CHUNKS && 1 <= |batch| <= MAX_BATCH
    ensures FetchOne(service, call, granted, batch) ==
            if Distinct(batch) && AllAvailable(m, manifest, granted, retainUntil, batch) then Some(Named(granted, batch)) else None
  {
    if LeaseLive(m, manifest, retainUntil) {
      GatherExactly(m.disk.objects, m.disk.leases[manifest].chunks, batch);
      assert AllValid(batch) <==> forall i :: 0 <= i < |batch| ==> ValidDigest(batch[i]);
      if Gather(m.disk.objects, m.disk.leases[manifest].chunks, batch).Ok? {
        GatherNames(m, manifest, granted, retainUntil, batch);
      }
    } else {
      assert !Available(m, manifest, granted, retainUntil, batch[0]);
    }
  }

  lemma BatchSplit(ds: seq<Digest>)
    requires ds != []
    ensures BatchesDistinct(ds) <==> Distinct(ds[..Cut(ds)]) && BatchesDistinct(ds[Cut(ds)..])
  {
    var n := Cut(ds);
    var rest := ds[n..];
    if BatchesDistinct(ds) {
      forall i, j | 0 <= i < j < |rest| && i / MAX_BATCH == j / MAX_BATCH ensures rest[i] != rest[j] {
        assert (i + n) / MAX_BATCH == (j + n) / MAX_BATCH;
      }
    }
    if Distinct(ds[..n]) && BatchesDistinct(rest) {
      forall i, j | 0 <= i < j < |ds| && i / MAX_BATCH == j / MAX_BATCH ensures ds[i] != ds[j] {
        if j < n {
          assert ds[..n][i] != ds[..n][j];
        } else {
          assert rest[i - n] != rest[j - n];
        }
      }
    }
  }

  /** The calls of a list are one for its first batch and those of the rest. */
  lemma CallOf(i: nat)
    ensures (i + MAX_BATCH) / MAX_BATCH == 1 + i / MAX_BATCH
  {
  }

  lemma CallsSplit(ds: seq<Digest>)
    requires ds != []
    ensures Calls(|ds|) == 1 + Calls(|ds[Cut(ds)..]|)
    ensures forall i :: 0 <= i < Cut(ds) ==> i / MAX_BATCH == 0
    ensures forall i :: 0 <= i < |ds| - Cut(ds) ==> (i + Cut(ds)) / MAX_BATCH == 1 + i / MAX_BATCH
  {
    forall i | 0 <= i < |ds| - Cut(ds) ensures (i + Cut(ds)) / MAX_BATCH == 1 + i / MAX_BATCH {
      CallOf(i);
    }
  }

  lemma AvailableRest(moments: seq<Moment>, call: nat, manifest: Digest, granted: seq<Digest>, retainUntil: nat, ds: seq<Digest>)
    requires ds != [] && call + Calls(|ds|) <= |moments| && call + 1 + Calls(|ds[Cut(ds)..]|) <= |moments|
    requires AvailableFrom(moments, call, manifest, granted, retainUntil, ds)
    ensures AllAvailable(moments[call], manifest, granted, retainUntil, ds[..Cut(ds)])
    ensures AvailableFrom(moments, call + 1, manifest, granted, retainUntil, ds[Cut(ds)..])
  {
    CallsSplit(ds);
    var n := Cut(ds);
    var rest := ds[n..];
    forall i | 0 <= i < |rest| ensures Available(moments[call + 1 + i / MAX_BATCH], manifest, granted, retainUntil, rest[i]) {
      assert rest[i] == ds[i + n];
    }
  }

  lemma AvailableJoin(moments: seq<Moment>, call: nat, manifest: Digest, granted: seq<Digest>, retainUntil: nat, ds: seq<Digest>)
    requires ds != [] && call + Calls(|ds|) <= |moments| && call + 1 + Calls(|ds[Cut(ds)..]|) <= |moments|
    requires AllAvailable(moments[call], manifest, granted, retainUntil, ds[..Cut(ds)])
    requires AvailableFrom(moments, call + 1, manifest, granted, retainUntil, ds[Cut(ds)..])
    ensures AvailableFrom(moments, call, manifest, granted, retainUntil, ds)
  {
    CallsSplit(ds);
    var n := Cut(ds);
    forall i | 0 <= i < |ds| ensures Available(moments[call + i / MAX_BATCH], manifest, granted, retainUntil, ds[i]) {
      if i < n {
        assert ds[i] == ds[..n][i];
      } else {
        assert ds[i] == ds[n..][i - n] && (i - n + n) / MAX_BATCH == 1 + (i - n) / MAX_BATCH;
      }
    }
  }

  /** The first batch at the first moment, the rest from the next moment on. */
  lemma AvailableSplit(moments: seq<Moment>, call: nat, manifest: Digest, granted: seq<Digest>, retainUntil: nat, ds: seq<Digest>)
    requires ds != [] && call + Calls(|ds|) <= |moments|
    ensures call + 1 + Calls(|ds[Cut(ds)..]|) <= |moments|
    ensures AvailableFrom(moments, call, manifest, granted, retainUntil, ds) <==>
            && AllAvailable(moments[call], manifest, granted, retainUntil, ds[..Cut(ds)])
            && AvailableFrom(moments, call + 1, manifest, granted, retainUntil, ds[Cut(ds)..])
  {
    CallsSplit(ds);
    if AvailableFrom(moments, call, manifest, granted, retainUntil, ds) {
      AvailableRest(moments, call, manifest, granted, retainUntil, ds);
    } else if AllAvailable(moments[call], manifest, granted, retainUntil, ds[..Cut(ds)])
              && AvailableFrom(moments, call + 1, manifest, granted, retainUntil, ds[Cut(ds)..]) {
      AvailableJoin(moments, call, manifest, granted, retainUntil, ds);
    }
  }

  lemma NamedConcat(granted: seq<Digest>, a: seq<Digest>, b: seq<Digest>)
    requires |granted| <= MAX_CHUNKS
    requires forall i :: 0 <= i < |a| ==> a[i] in granted && ValidDigest(a[i])
    requires forall i :: 0 <= i < |b| ==> b[i] in granted && ValidDigest(b[i])
    ensures forall i :: 0 <= i < |a + b| ==> (a + b)[i] in granted && ValidDigest((a + b)[i])
    ensures Named(granted, a + b) == Named(granted, a) + Named(granted, b)
  {
  }

  lemma {:induction false} BatchesExactly(service: Service, moments: seq<Moment>, call: nat, manifest: Digest, granted: seq<Digest>,
                                          retainUntil: nat, ds: seq<Digest>)
    requires Serves(service, moments, manifest, retainUntil) && |granted| <= MAX_CHUNKS && call + Calls(|ds|) <= |moments|
    ensures Batches(service, call, granted, ds) ==
            if Served(moments, call, manifest, granted, retainUntil, ds) then Some(Named(granted, ds)) else None
    decreases |ds|
  {
    if ds == [] {
      assert Named(granted, ds) == [];
    } else {
      var batch, rest := ds[..Cut(ds)], ds[Cut(ds)..];
      assert ds == batch + rest;
      assert service(call, batch) == StoreReply(moments[call].disk, manifest, retainUntil, moments[call].now, batch);
      OneExactly(service, call, moments[call], manifest, granted, retainUntil, batch);
      BatchSplit(ds);
      AvailableSplit(moments, call, manifest, granted, retainUntil, ds);
      BatchesExactly(service, moments, call + 1, manifest, granted, retainUntil, rest);
      if Served(moments, call, manifest, granted, retainUntil, ds) {
        NamedConcat(granted, batch, rest);
      }
    }
  }

  /** The batched fetch of every list from an honest store that lives on between the calls: exactly
      when it succeeds, and with what.  A digest the lease lists elsewhere than the grant, or not at
      all, makes it fail, and so does a lease that is gone by the time its batch is asked for. */
  lemma HonestFetch(service: Service, moments: seq<Moment>, manifest: Digest, granted: seq<Digest>, retainUntil: nat, ds: seq<Digest>)
    requires Serves(service, moments, manifest, retainUntil) && |granted| <= MAX_CHUNKS && Calls(|ds|) <= |moments|
    ensures ClientFetch(service, granted, ds) ==
            if 0 < |ds| <= |granted| && Served(moments, 0, manifest, granted, retainUntil, ds)
            then Some(Named(granted, ds)) else None
  {
    BatchesExactly(service, moments, 0, manifest, granted, retainUntil, ds);
  }

  /** One disk and one clock reading for all calls. */
  function Still(m: Moment, calls: nat): (moments: seq<Moment>)
    ensures |moments| == calls && forall k :: 0 <= k < calls ==> moments[k] == m
  {
    seq(calls, _ => m)
  }

  /** Under the grant of the lease, and a store that does not move, fetching in batches differs from
      one fetch of the whole list exactly for a list that could be served but repeats a digest in two
      of its batches: the client refuses a repeat only within a batch, and one fetch refuses any. */
  lemma BatchedIsSingle(service: Service, m: Moment, manifest: Digest, granted: seq<Digest>, retainUntil: nat, ds: seq<Digest>)
    requires Serves(service, Still(m, Calls(|ds|)), manifest, retainUntil)
    requires manifest in m.disk.leases && m.disk.leases[manifest].chunks == granted && 0 < |ds| <= |granted| <= MAX_CHUNKS
    ensures ClientFetch(service, granted, ds) == StoreReply(m.disk, manifest, retainUntil, m.now, ds) <==>
            !(BatchesDistinct(ds) && AllAvailable(m, manifest, granted, retainUntil, ds)) || Distinct(ds)
  {
    StillServed(m, manifest, granted, retainUntil, ds);
    HonestFetch(service, Still(m, Calls(|ds|)), manifest, granted, retainUntil, ds);
    OneFetch(m, manifest, granted, retainUntil, ds);
    assert Distinct(ds) ==> BatchesDistinct(ds);
  }

  lemma StillServed(m: Moment, manifest: Digest, granted: seq<Digest>, retainUntil: nat, ds: seq<Digest>)
    ensures Served(Still(m, Calls(|ds|)), 0, manifest, granted, retainUntil, ds) <==>
            BatchesDistinct(ds) && AllAvailable(m, manifest, granted, retainUntil, ds)
  {
    assert forall i :: 0 <= i < |ds| ==> Still(m, Calls(|ds|))[0 + i / MAX_BATCH] == m;
  }

  /** One fetch of any list, in closed form. */
  lemma OneFetch(m: Moment, manifest: Digest, granted: seq<Digest>, retainUntil: nat, ds: seq<Digest>)
    requires manifest in m.disk.leases && m.disk.leases[manifest].chunks == granted && 0 < |ds| <= |granted| <= MAX_CHUNKS
    ensures StoreReply(m.disk, manifest, retainUntil, m.now, ds) ==
            if Distinct(ds) && AllAvailable(m, manifest, granted, retainUntil, ds) then Some(Named(granted, ds)) else None
  {
    if LeaseLive(m, manifest, retainUntil) {
      GatherExactly(m.disk.objects, granted, ds);
      assert AllValid(ds) <==> forall i :: 0 <= i < |ds| ==> ValidDigest(ds[i]);
      if Gather(m.disk.objects, granted, ds).Ok? {
        GatherNames(m, manifest, granted, retainUntil, ds);
      }
    } else {
      assert !Available(m, manifest, granted, retainUntil, ds[0]);
    }
  }

  // --------------------------------------------------------------- a repeat across batches

  const SEVENTEEN: nat := 17

  function Content(i: nat): Bytes {
    seq(SEVENTEEN, _ => (i % 256) as byte)
  }

  function Listed(): (ds: seq<Digest>)
    ensures |ds| == SEVENTEEN
  {
    seq(SEVENTEEN, i requires 0 <= i < SEVENTEEN => Sha256(Content(i)))
  }

  function Held(): map<Digest, Object> {
    map i | 0 <= i < SEVENTEEN :: Sha256(Content(i)) := Object(Content(i), 0)
  }

  function SampleDisk(): Disk {
    Disk(Held(), map[Sha256([]) := Lease(Sha256([]), Listed(), 100)], map[], None)
  }

  lemma ContentsDiffer(i: nat, j: nat)
    requires i < j < SEVENTEEN
    ensures Content(i) != Content(j)
  {
    assert Content(i)[0] != Content(j)[0];
  }

  /** Seventeen digests, the last again the first, at second 50: two batches fetch them, one fetch
      refuses. */
  lemma RepeatAcrossBatches(service: Service)
    requires Serves(service, Still(Moment(SampleDisk(), 50 * SECOND), 2), Sha256([]), 100)
    ensures var ds := Listed()[..16] + [Listed()[0]];
            && ClientFetch(service, Listed(), ds).Some?
            && Fetch(SampleDisk(), Sha256([]), ds, 50 * SECOND) == Err(Invalid)
  {
    var m, ds := Moment(SampleDisk(), 50 * SECOND), Listed()[..16] + [Listed()[0]];
    forall i, j | 0 <= i < j < SEVENTEEN ensures Listed()[i] != Listed()[j] {
      ContentsDiffer(i, j);
    }
    forall i | 0 <= i < |ds| ensures Available(m, Sha256([]), Listed(), 100, ds[i]) {
      var k := if i < 16 then i else 0;
      assert ds[i] == Listed()[k] && Sha256(Content(k)) in Held();
    }
    HonestFetch(service, Still(m, 2), Sha256([]), Listed(), 100, ds);
    assert ds[0] == ds[16];
    assert !Distinct(ds);
  }

  // ------------------------------------------------------------------------ end to end

  /** The chunks of a manifest, recovered from its digests, are the chunks that were sealed. */
  lemma SealedWhole(p: Primitives, s: Shape, plaintext: Bytes)
    requires MadeFrom(p, s, plaintext) && ChunkCount(s) <= MAX_CHUNKS
    ensures var cs := Sealed(p, s, plaintext).1; WholeManifest(DigestsOf(cs)) == cs
  {
    var cs := Sealed(p, s, plaintext).1;
    var ds := DigestsOf(cs);
    forall i | 0 <= i < |cs| ensures WholeManifest(ds)[i] == cs[i] {
      assert cs[i] == SealChunk(p, s, i, Piece(plaintext, s.size, i));
      assert Preimages(ds)[i] == ds[i].preimage;
    }
  }

  /** Once the lease of a sealed attachment is committed, fetching its manifest at any later point
      of any run, and opening what comes back, gives the original plaintext: across crashes,
      collections and every other lease's life, until the lease is deleted or expires. */
  lemma StoredAttachmentOpens(p: Primitives, s: Shape, plaintext: Bytes, ds: seq<Disk>, moves: seq<Move>, q: Quota,
                              i: nat, j: nat, now: int, policy: Policy)
    requires MadeFrom(p, s, plaintext) && ChunkCount(s) <= MAX_CHUNKS && DeclaredDigest(s.metadata, plaintext)
    requires IsRun(ds, moves, q) && i < j < |ds| && moves[i].op.Commit? && moves[i].cut == Steps(ds[i], q, moves[i].op)
    requires moves[i].op.lease.chunks == Sealed(p, s, plaintext).0.manifest.chunkDigests
    requires CommitResult(ds[i], q, moves[i].op.lease, moves[i].op.bytes, moves[i].op.now).Ok?
    requires forall k :: i < k < j ==> !Loses(ds[k], moves[k], moves[i].op.lease)
    requires 0 <= Unix(now) < moves[i].op.lease.expires && Permits(policy, Sealed(p, s, plaintext).0, Unix(now))
    ensures var lease := moves[i].op.lease;
            var got := Fetch(ds[j], lease.manifest, lease.chunks, now);
            got.Ok? && Open(p, Sealed(p, s, plaintext).0, got.value.0, policy, Unix(now)) == Some(plaintext)
  {
    Durable(ds, moves, q, i, j, now);
    SealedWhole(p, s, plaintext);
    OpenExactly(p, s, plaintext, Sealed(p, s, plaintext).1, policy, Unix(now));
  }

  /** Against any service, honest or not: what a fetch of the whole manifest returns opens to the
      sealed plaintext or not at all, and opens exactly when it is the sealed chunks. */
  lemma AnyReplyOpens(p: Primitives, s: Shape, plaintext: Bytes, service: Service, policy: Policy, now: int)
    requires MadeFrom(p, s, plaintext)
    ensures var (r, cs) := Sealed(p, s, plaintext);
            var got := ClientFetch(service, r.manifest.chunkDigests, r.manifest.chunkDigests);
            got.Some? ==>
              && ReplyOk(r.manifest.chunkDigests, r.manifest.chunkDigests, got.value)
              && Open(p, r, got.value, policy, now) ==
                 if got.value == cs && ChunkCount(s) <= MAX_CHUNKS && Permits(policy, r, now) && DeclaredDigest(s.metadata, plaintext)
                 then Some(plaintext) else None
  {
    var (r, cs) := Sealed(p, s, plaintext);
    var got := ClientFetch(service, r.manifest.chunkDigests, r.manifest.chunkDigests);
    if got.Some? {
      FetchedNames(service, 0, r.manifest.chunkDigests, r.manifest.chunkDigests);
      OpenExactly(p, s, plaintext, got.value, policy, now);
    }
  }

  /** The moments of a fetch, each at its own later point of a store's run, before the expiry. */
  ghost predicate Along(moments: seq<Moment>, ds: seq<Disk>, points: seq<nat>, from: nat, expires: nat) {
    && |points| == |moments|
    && forall k :: 0 <= k < |moments| ==>
         from < points[k] < |ds| && moments[k].disk == ds[points[k]] && 0 <= Unix(moments[k].now) < expires
  }

  lemma WholeAvailable(d: Disk, q: Quota, lease: Lease, now: int, i: nat)
    requires Inv(d, q) && Stored(d, lease) && ValidFetch(lease.manifest, lease.chunks, now) && Unix(now) < lease.expires && i < |lease.chunks|
    ensures Available(Moment(d, now), lease.manifest, lease.chunks, lease.expires, lease.chunks[i])
  {
    LeaseHashOk(d, q, lease.manifest);
  }

  /** A client that fetches a committed manifest while the store runs on, each batch at its own time,
      gets exactly the stored ciphertexts, unless the lease is deleted or expires. */
  lemma FetchedAlongRun(service: Service, moments: seq<Moment>, points: seq<nat>, ds: seq<Disk>, moves: seq<Move>, q: Quota, i: nat)
    requires IsRun(ds, moves, q) && i < |moves| && moves[i].op.Commit? && moves[i].cut == Steps(ds[i], q, moves[i].op)
    requires CommitResult(ds[i], q, moves[i].op.lease, moves[i].op.bytes, moves[i].op.now).Ok?
    requires forall k :: i < k < |moves| ==> !Loses(ds[k], moves[k], moves[i].op.lease)
    requires var lease := moves[i].op.lease;
             Along(moments, ds, points, i, lease.expires) && Serves(service, moments, lease.manifest, lease.expires)
             && Calls(|lease.chunks|) <= |moments|
    ensures var lease := moves[i].op.lease;
            |lease.chunks| <= MAX_CHUNKS && ClientFetch(service, lease.chunks, lease.chunks) == Some(WholeManifest(lease.chunks))
  {
    var lease := moves[i].op.lease;
    RunTakes(ds, moves, q, i);
    CommitStores(ds[i], q, moves[i], ds[i + 1]);
    forall k | 0 <= k < |lease.chunks|
      ensures Available(moments[0 + k / MAX_BATCH], lease.manifest, lease.chunks, lease.expires, lease.chunks[k])
    {
      var m, j := moments[k / MAX_BATCH], points[k / MAX_BATCH];
      StaysStored(ds, moves, q, i + 1, j, lease);
      RunInv(ds, moves, q, j);
      WholeAvailable(ds[j], q, lease, m.now, k);
    }
    HonestFetch(service, moments, lease.manifest, lease.chunks, lease.expires, lease.chunks);
    WholeNamed(lease.chunks);
  }

  lemma WholeNamed(ds: seq<Digest>)
    requires |ds| <= MAX_CHUNKS && Distinct(ds) && AllValid(ds)
    ensures Named(ds, ds) == WholeManifest(ds)
  {
    forall i | 0 <= i < |ds| ensures Named(ds, ds)[i] == WholeManifest(ds)[i] {
      assert ds[i] in ds;
      DistinctPosition(ds, i);
      assert Preimages(ds)[i] == ds[i].preimage;
    }
  }

  /** Sealing, storing, fetching batch by batch and opening, end to end. */
  lemma FetchedAttachmentOpens(p: Primitives, s: Shape, plaintext: Bytes, service: Service, moments: seq<Moment>, points: seq<nat>,
                               ds: seq<Disk>, moves: seq<Move>, q: Quota, i: nat, policy: Policy, now: int)
    requires MadeFrom(p, s, plaintext) && ChunkCount(s) <= MAX_CHUNKS && DeclaredDigest(s.metadata, plaintext)
    requires IsRun(ds, moves, q) && i < |moves| && moves[i].op.Commit? && moves[i].cut == Steps(ds[i], q, moves[i].op)
    requires moves[i].op.lease.chunks == Sealed(p, s, plaintext).0.manifest.chunkDigests
    requires CommitResult(ds[i], q, moves[i].op.lease, moves[i].op.bytes, moves[i].op.now).Ok?
    requires forall k :: i < k < |moves| ==> !Loses(ds[k], moves[k], moves[i].op.lease)
    requires var lease := moves[i].op.lease;
             Along(moments, ds, points, i, lease.expires) && Serves(service, moments, lease.manifest, lease.expires)
             && Calls(|lease.chunks|) <= |moments|
    requires Permits(policy, Sealed(p, s, plaintext).0, now)
    ensures var r := Sealed(p, s, plaintext).0;
            var got := ClientFetch(service, r.manifest.chunkDigests, r.manifest.chunkDigests);
            got.Some? && Open(p, r, got.value, policy, now) == Some(plaintext)
  {
    FetchedAlongRun(service, moments, points, ds, moves, q, i);
    SealedWhole(p, s, plaintext);
    OpenExactly(p, s, plaintext, Sealed(p, s, plaintext).1, policy, now);
  }
}
