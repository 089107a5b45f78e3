/** What every file step of an emission keeps. */
module EmitterInvariant {
  import opened Foundation
  import opened AttachmentLimits
  import opened Digests
  import opened StoreModel
  import opened Sealing
  import opened SealingLaws
  import opened EmitterModel

  // ---------------------------------------------------------------- one directory

  /** The chunk file for piece i of the pieces sealed so far. */
  function FileFor(p: Primitives, s: Shape, ps: seq<Bytes>, i: nat): Record
    requires 0 < s.size && s.total <= MAX_PLAINTEXT_BYTES && i < |ps| && i < UINT32_LIMIT
  {
    Record(Absorbed(Concat(ps[..i + 1])), SealChunk(p, s, i, ps[i]).ciphertext)
  }

  /** Exactly the sealed pieces are on file, each with the running hash up to it. */
  ghost predicate FilesOk(p: Primitives, s: Shape, ps: seq<Bytes>, files: map<nat, Record>)
    requires ValidShape(p, s) && |ps| <= ChunkCount(s)
  {
    forall i: nat :: (i in files <==> i < |ps|) && (i < |ps| ==> files[i] == FileFor(p, s, ps, i))
  }

  /** Everything but the stream and the hash is what Begin wrote. */
  ghost predicate Begun(p: Primitives, c: Config, key: string, tx: Transaction): (holds: bool)
    ensures holds ==> ValidShape(p, tx.seal.shape)
  {
    var s := tx.seal.shape;
    var holds :=
      && tx.request.key == key
      && Beginnable(p, c, tx.request, s.material, tx.created)
      && tx.operator == c.operator && tx.intent == IntentOf(c, tx.request)
      && tx.expires == (tx.created + c.retention) % UINT64_LIMIT
      && s == ShapeOf(s.material, tx.request, tx.expires);
    holds
  }

  /** The state file is what Begin wrote, advanced over n of the pieces. */
  ghost predicate StateFor(p: Primitives, c: Config, key: string, tx: Transaction, ps: seq<Bytes>, n: nat)
    requires n <= |ps|
  {
    var s := tx.seal.shape;
    var holds :=
      && Begun(p, c, key, tx)
      && Accepted(p, s, ps)
      && tx.seal == Stream(s, DigestsOf(SealChunks(p, s, ps))[..n])
      && tx.hash == Absorbed(Concat(ps[..n]));
    holds
  }

  /** A prepared transaction has every chunk and the declared digest, and grants its own lease. */
  ghost predicate PreparedOk(p: Primitives, c: Config, tx: Transaction, ps: seq<Bytes>) {
    tx.prepared.Some? ==>
      var pr := tx.prepared.value;
      && |tx.seal.digests| == |ps|
      && StreamReference(p, tx.seal) == Some(pr.reference)
      && pr == MakePrepared(p, c, tx, pr.reference, pr.uploadKey, pr.fetchKey)
      && Grantable(c, pr.uploadKey, pr.fetchKey) && tx.created != 0
      && Sha256(Concat(ps)) == tx.request.plaintextDigest
  }

  ghost predicate TransactionOk(p: Primitives, c: Config, key: string, tx: Transaction, files: map<nat, Record>, ps: seq<Bytes>) {
    var n := |tx.seal.digests|;
    var holds :=
      && (n == |ps| || n + 1 == |ps|)
      && StateFor(p, c, key, tx, ps, n)
      && FilesOk(p, tx.seal.shape, ps, files)
      && tx.uploaded <= n && (tx.uploaded != 0 ==> tx.prepared.Some?)
      && PreparedOk(p, c, tx, ps);
    holds
  }

  ghost predicate DirOk(p: Primitives, c: Config, key: string, dir: Dir, ps: seq<Bytes>) {
    match dir.state
    case None => dir.files == map[]
    case Some(tx) => TransactionOk(p, c, key, tx, dir.files, ps)
  }

  // ------------------------------------------------------------------- the journal

  /** The Event's reference is a finished sealing of a plaintext with the declared digest. */
  ghost predicate Genuine(p: Primitives, e: Event, s: Shape, plaintext: Bytes) {
    && e.Artifact?
    && ValidShape(p, s) && |plaintext| == s.total && ChunkCount(s) <= MAX_CHUNKS
    && e.reference == Sealed(p, s, plaintext).0
    && e.manifest == ManifestDigest(p, e.reference.manifest)
    && Sha256(plaintext) == e.request.plaintextDigest
    && s.metadata.plaintextDigest == Some(e.request.plaintextDigest)
  }

  ghost predicate ComposedOk(p: Primitives, key: string, comp: Composition) {
    comp.event.Artifact? ==>
      comp.event.request.key == key && exists s, plaintext :: Genuine(p, comp.event, s, plaintext)
  }

  /** A transaction under a composed key is the one that was composed. */
  ghost predicate Linked(dir: Dir, comp: Composition) {
    comp.event.Artifact? ==>
      && dir.state.Some? && dir.state.value.prepared.Some?
      && comp.intent == dir.state.value.intent
      && comp.event.manifest == dir.state.value.prepared.value.upload.manifest
      && comp.event.reference == dir.state.value.prepared.value.reference
      && comp.event.expires == dir.state.value.expires
  }

  /** An acknowledgement for exactly the Event's manifest, chunks and sealed bytes, until its own
      expiry. */
  ghost predicate AckFor(c: Config, e: Event, ack: Ack)
    requires e.Artifact?
  {
    && ack.signer == c.storageKey
    && ack.manifest == e.manifest
    && ack.chunks == e.reference.manifest.chunkDigests
    && ack.bytes == e.reference.manifest.plaintextBytes + TAG_BYTES * |ack.chunks|
    && ack.retainUntil == e.expires
  }

  ghost predicate QueuedOk(c: Config, w: World, e: Event) {
    e.Artifact? ==>
      && e.request.key in w.compositions && w.compositions[e.request.key].event == e
      && exists ack :: ack in w.acks && AckFor(c, e, ack)
  }

  ghost predicate ReportedOk(w: World, key: string, e: Event) {
    e.Artifact? && e in w.deliveries && key in w.compositions && w.compositions[key].event == e
  }

  ghost predicate DirsOk(p: Primitives, c: Config, w: World) {
    forall k :: k in w.dirs ==> DirOk(p, c, k, w.dirs[k], PiecesOf(w, k))
  }

  ghost predicate JournalOk(p: Primitives, c: Config, w: World) {
    && (forall k :: k in w.compositions ==> ComposedOk(p, k, w.compositions[k]))
    && (forall k :: k in w.compositions && k in w.dirs ==> Linked(w.dirs[k], w.compositions[k]))
    && (forall e :: e in w.deliveries ==> QueuedOk(c, w, e))
    && (forall k, e :: (k, e) in w.reported ==> ReportedOk(w, k, e))
  }

  ghost predicate Inv(p: Primitives, c: Config, w: World) {
    var holds := DirsOk(p, c, w) && JournalOk(p, c, w);
    holds
  }

  // ---------------------------------------------------------------- appending a chunk

  lemma ShapeValid(p: Primitives, c: Config, r: Request, m: Material, now: Uint64)
    requires Beginnable(p, c, r, m, now)
    ensures ValidShape(p, ShapeOf(m, r, (now + c.retention) % UINT64_LIMIT))
  {
  }

  lemma OkShape(p: Primitives, c: Config, key: string, tx: Transaction, files: map<nat, Record>, ps: seq<Bytes>)
    requires TransactionOk(p, c, key, tx, files, ps)
    ensures ValidShape(p, tx.seal.shape)
  {
    ShapeValid(p, c, tx.request, tx.seal.shape.material, tx.created);
    assert tx.seal.shape == ShapeOf(tx.seal.shape.material, tx.request, (tx.created + c.retention) % UINT64_LIMIT);
  }

  /** A stream of accepted pieces takes one more exactly when they are still accepted together. */
  lemma NextExactly(p: Primitives, s: Shape, ps: seq<Bytes>, piece: Bytes)
    requires ValidShape(p, s) && Accepted(p, s, ps)
    ensures var next := SealNext(p, Stream(s, DigestsOf(SealChunks(p, s, ps))), piece);
            && (next.Some? <==> Accepted(p, s, ps + [piece]))
            && (next.Some? ==> |ps| < ChunkCount(s) && next.value.1 == SealChunk(p, s, |ps|, piece))
  {
    var all := ps + [piece];
    assert all[..|all| - 1] == ps;
    FeedExact(p, s, ps);
    FeedExact(p, s, all);
  }

  lemma AcceptedPrefix(p: Primitives, s: Shape, ps: seq<Bytes>, piece: Bytes)
    requires ValidShape(p, s) && Accepted(p, s, ps + [piece])
    ensures DigestsOf(SealChunks(p, s, ps + [piece])) == DigestsOf(SealChunks(p, s, ps)) + [SealChunk(p, s, |ps|, piece).digest]
  {
    assert (ps + [piece])[..|ps|] == ps;
    SealSnoc(p, s, ps + [piece]);
  }

  lemma FileKept(p: Primitives, s: Shape, ps: seq<Bytes>, piece: Bytes, i: nat)
    requires 0 < s.size && s.total <= MAX_PLAINTEXT_BYTES && i < |ps| && i < UINT32_LIMIT
    ensures FileFor(p, s, ps + [piece], i) == FileFor(p, s, ps, i)
  {
    assert (ps + [piece])[..i + 1] == ps[..i + 1];
  }

  lemma FileNew(p: Primitives, s: Shape, ps: seq<Bytes>, piece: Bytes)
    requires 0 < s.size && s.total <= MAX_PLAINTEXT_BYTES && |ps| < UINT32_LIMIT
    ensures FileFor(p, s, ps + [piece], |ps|) == Record(Absorbed(Concat(ps) + piece), SealChunk(p, s, |ps|, piece).ciphertext)
  {
    var all := ps + [piece];
    assert all[..|ps| + 1] == all && all[..|all| - 1] == ps;
  }

  lemma FilesGrow(p: Primitives, s: Shape, ps: seq<Bytes>, piece: Bytes, files: map<nat, Record>, record: Record)
    requires ValidShape(p, s) && |ps| < ChunkCount(s) && FilesOk(p, s, ps, files)
    requires record == FileFor(p, s, ps + [piece], |ps|)
    ensures FilesOk(p, s, ps + [piece], files[|ps| := record])
  {
    var all, more := ps + [piece], files[|ps| := record];
    forall i: nat ensures (i in more <==> i < |all|) && (i < |all| ==> more[i] == FileFor(p, s, all, i)) {
      if i < |ps| {
        FileKept(p, s, ps, piece, i);
      }
    }
  }

  /** Writing the chunk file keeps the directory sound: the piece counts as sealed from then on. */
  lemma ChunkWritten(p: Primitives, c: Config, key: string, tx: Transaction, files: map<nat, Record>, ps: seq<Bytes>, piece: Bytes)
    requires TransactionOk(p, c, key, tx, files, ps) && tx.prepared.None?
    requires |tx.seal.digests| !in files && SealNext(p, tx.seal, piece).Some?
    ensures var record := Record(Absorbed(tx.hash.bytes + piece), SealNext(p, tx.seal, piece).value.1.ciphertext);
            TransactionOk(p, c, key, tx, files[|tx.seal.digests| := record], ps + [piece])
  {
    var s, n := tx.seal.shape, |tx.seal.digests|;
    OkShape(p, c, key, tx, files, ps);
    assert n == |ps|;
    assert ps[..n] == ps && DigestsOf(SealChunks(p, s, ps))[..n] == DigestsOf(SealChunks(p, s, ps));
    NextExactly(p, s, ps, piece);
    AcceptedPrefix(p, s, ps, piece);
    FileNew(p, s, ps, piece);
    FilesGrow(p, s, ps, piece, files, FileFor(p, s, ps + [piece], n));
    assert (ps + [piece])[..n] == ps;
  }

  lemma SplitLast<T>(s: seq<T>, n: nat)
    requires |s| == n + 1
    ensures s == s[..n] + [s[n]]
  {
  }

  lemma LastChunk(p: Primitives, s: Shape, ps: seq<Bytes>, n: nat)
    requires Lawful(p) && ValidShape(p, s) && |ps| == n + 1 <= ChunkCount(s)
    ensures var ds := DigestsOf(SealChunks(p, s, ps)); ds == ds[..n] + [Sha256(FileFor(p, s, ps, n).ciphertext)]
    ensures |FileFor(p, s, ps, n).ciphertext| == |ps[n]| + TAG_BYTES
    ensures FileFor(p, s, ps, n).hash == Absorbed(Concat(ps))
  {
    var ds := DigestsOf(SealChunks(p, s, ps));
    SplitLast(ds, n);
    assert ps[..n + 1] == ps;
  }

  /** The orphan branch of the reconciliation, from its own guards. */
  lemma Adopts(tx: Transaction, files: map<nat, Record>, n: nat)
    requires 0 < tx.seal.shape.size && tx.seal.shape.total <= MAX_PLAINTEXT_BYTES
    requires n == |tx.seal.digests| < ChunkCount(tx.seal.shape) && tx.prepared.None?
    requires n in files && forall k :: k in files ==> k <= n
    requires |files[n].ciphertext| == Wanted(tx.seal.shape, n) + TAG_BYTES
    ensures Reconciled(tx, files) == Some(tx.(
      seal := Stream(tx.seal.shape, tx.seal.digests + [Sha256(files[n].ciphertext)]), hash := files[n].hash))
  {
  }

  lemma OrphanTaken(p: Primitives, c: Config, key: string, tx: Transaction, files: map<nat, Record>, ps: seq<Bytes>)
    requires Lawful(p) && TransactionOk(p, c, key, tx, files, ps) && |tx.seal.digests| + 1 == |ps|
    ensures ValidShape(p, tx.seal.shape)
    ensures Reconciled(tx, files) == Some(tx.(
      seal := Stream(tx.seal.shape, DigestsOf(SealChunks(p, tx.seal.shape, ps))),
      hash := Absorbed(Concat(ps))))
  {
    var s, n := tx.seal.shape, |tx.seal.digests|;
    OkShape(p, c, key, tx, files, ps);
    assert n in files && files[n] == FileFor(p, s, ps, n);
    LastChunk(p, s, ps, n);
    assert |ps[n]| == Wanted(s, n);
    Adopts(tx, files, n);
  }

  lemma BegunStays(p: Primitives, c: Config, key: string, tx: Transaction, seal: Stream, hash: HashState)
    requires Begun(p, c, key, tx) && seal.shape == tx.seal.shape
    ensures Begun(p, c, key, tx.(seal := seal, hash := hash))
  {
    var t := tx.(seal := seal, hash := hash);
    assert t.request == tx.request && t.created == tx.created && t.seal.shape == tx.seal.shape;
  }

  lemma OrphanState(p: Primitives, c: Config, key: string, tx: Transaction, ps: seq<Bytes>, hash: HashState)
    requires Begun(p, c, key, tx) && Accepted(p, tx.seal.shape, ps) && hash == Absorbed(Concat(ps))
    ensures StateFor(p, c, key,
      tx.(seal := Stream(tx.seal.shape, DigestsOf(SealChunks(p, tx.seal.shape, ps))), hash := hash), ps, |ps|)
  {
    var s := tx.seal.shape;
    var ds := DigestsOf(SealChunks(p, s, ps));
    BegunStays(p, c, key, tx, Stream(s, ds), hash);
    TakeAll(ps);
    TakeAll(ds);
  }

  /** Saving the state after a chunk, whether by Append or by a later reopen. */
  lemma OrphanSaved(p: Primitives, c: Config, key: string, tx: Transaction, files: map<nat, Record>, ps: seq<Bytes>)
    requires Lawful(p) && TransactionOk(p, c, key, tx, files, ps) && |tx.seal.digests| + 1 == |ps|
    ensures ValidShape(p, tx.seal.shape)
    ensures Reconciled(tx, files).Some? && TransactionOk(p, c, key, Reconciled(tx, files).value, files, ps)
    ensures |Reconciled(tx, files).value.seal.digests| == |ps|
  {
    OrphanTaken(p, c, key, tx, files, ps);
    OrphanState(p, c, key, tx, ps, Absorbed(Concat(ps)));
  }

  lemma NoOrphan(p: Primitives, c: Config, key: string, tx: Transaction, files: map<nat, Record>, ps: seq<Bytes>)
    requires TransactionOk(p, c, key, tx, files, ps) && |tx.seal.digests| == |ps|
    ensures ValidShape(p, tx.seal.shape)
    ensures Reconciled(tx, files) == Some(tx)
  {
    OkShape(p, c, key, tx, files, ps);
  }

  lemma ChunkSaved(p: Primitives, c: Config, key: string, tx: Transaction, files: map<nat, Record>, ps: seq<Bytes>)
    requires Lawful(p) && TransactionOk(p, c, key, tx, files, ps)
    ensures ValidShape(p, tx.seal.shape)
    ensures Reconciled(tx, files).Some? && TransactionOk(p, c, key, Reconciled(tx, files).value, files, ps)
    ensures |Reconciled(tx, files).value.seal.digests| == |ps|
  {
    if |tx.seal.digests| == |ps| {
      NoOrphan(p, c, key, tx, files, ps);
    } else {
      OrphanSaved(p, c, key, tx, files, ps);
    }
  }

  // -------------------------------------------------------------------- preparing, composing

  lemma PreparedSaved(p: Primitives, c: Config, key: string, tx: Transaction, files: map<nat, Record>, ps: seq<Bytes>, uploadKey: Bytes, fetchKey: Bytes)
    requires TransactionOk(p, c, key, tx, files, ps) && |tx.seal.digests| !in files
    requires StreamReference(p, tx.seal).Some? && Sha256(tx.hash.bytes) == tx.request.plaintextDigest
    requires Grantable(c, uploadKey, fetchKey) && tx.created != 0
    ensures TransactionOk(p, c, key,
              tx.(prepared := Some(MakePrepared(p, c, tx, StreamReference(p, tx.seal).value, uploadKey, fetchKey))), files, ps)
  {
    OkShape(p, c, key, tx, files, ps);
    TakeAll(ps);
  }

  /** A prepared transaction's Event is genuine. */
  lemma EventGenuine(p: Primitives, c: Config, key: string, tx: Transaction, files: map<nat, Record>, ps: seq<Bytes>, now: nat)
    requires TransactionOk(p, c, key, tx, files, ps) && tx.prepared.Some?
    ensures Genuine(p, EventFor(tx, now), tx.seal.shape, Concat(ps))
  {
    var s := tx.seal.shape;
    OkShape(p, c, key, tx, files, ps);
    var ds := DigestsOf(SealChunks(p, s, ps));
    TakeAll(ds);
    assert |ps| == ChunkCount(s);
    PiecesOfConcat(s, ps);
  }
}
