/** The emitter as it runs: Begin, Append and Commit over mutable directories and journal, each
    proved to take only steps of EmitterModel, so that everything proved of runs holds of it. */
module EmitterMachine {
  import opened Foundation
  import opened AttachmentLimits
  import opened Digests
  import opened StoreModel
  import opened Sealing
  import opened SealingLaws
  import opened SealingMachine
  import opened EmitterModel
  import opened EmitterInvariant
  import opened EmitterRuns
  import opened EmitterCalls

  // -------------------------------------------------------------------- reading a directory

  method CheckStream(p: Primitives, st: Stream) returns (ok: bool)
    ensures ok <==> ValidStream(p, st, false)
  {
    var state := new SealState(st);
    ok := state.Validate(p, false);
  }

  method CheckHeader(p: Primitives, c: Config, tx: Transaction) returns (ok: bool)
    ensures ok <==> ValidHeader(p, c, tx)
  {
    var stream := CheckStream(p, tx.seal);
    ok := tx.operator == c.operator && tx.created != 0 && tx.expires == tx.created + c.retention && c.retention > 0 && stream;
  }

  method ReferenceOf(p: Primitives, st: Stream) returns (r: Option<Reference>)
    ensures r == StreamReference(p, st)
  {
    var state := new SealState(st);
    r := state.MakeReference(p);
  }

  /** Every chunk file holds the ciphertext its digest names. */
  method CheckFiles(tx: Transaction, files: map<nat, Record>) returns (ok: bool)
    ensures ok <==> forall i :: 0 <= i < |tx.seal.digests| ==> i in files && Sha256(files[i].ciphertext) == tx.seal.digests[i]
  {
    for i := 0 to |tx.seal.digests|
      invariant forall j :: 0 <= j < i ==> j in files && Sha256(files[j].ciphertext) == tx.seal.digests[j]
    {
      if i !in files || Sha256(files[i].ciphertext) != tx.seal.digests[i] {
        return false;
      }
    }
    ok := true;
  }

  method CheckGrant(c: Config, a: Authority, scope: Scope, key: Bytes, at: nat) returns (ok: bool)
    ensures ok <==> VerifiedGrant(c, a, scope, key, at)
  {
    var distinct := AllDistinct(a.chunks);
    ok := distinct && ValidDigest(a.manifest) && 1 <= |a.chunks| <= MAX_CHUNKS && AllValid(a.chunks)
          && 0 < a.bytes <= MAX_PLAINTEXT_BYTES + MAX_CHUNKS * TAG_BYTES
          && 0 < a.issuedAt < a.retainUntil <= a.expiresAt <= a.issuedAt + MAX_GRANT_LIFETIME
          && a.signer == c.endpointKey && a.storage == c.storageKey && KeysApart(c, a.capability)
          && a.issuedAt <= at < a.expiresAt && a.scope == scope && a.capability == key;
  }

  method CheckPrepared(p: Primitives, c: Config, tx: Transaction) returns (ok: bool)
    ensures ok <==> ValidPrepared(p, c, tx)
  {
    if tx.prepared.None? {
      return true;
    }
    var pr := tx.prepared.value;
    var reference := ReferenceOf(p, tx.seal);
    var upload := CheckGrant(c, pr.upload, ToUpload, pr.uploadKey, tx.created);
    var fetch := CheckGrant(c, pr.fetch, ToFetch, pr.fetchKey, tx.created);
    ok := reference == Some(pr.reference) && pr.upload.manifest == ManifestDigest(p, pr.reference.manifest)
          && pr.locator == c.locate(pr.upload.manifest)
          && upload && fetch && SameLease(pr.upload, pr.fetch);
  }

  method CheckTransaction(p: Primitives, c: Config, tx: Transaction, files: map<nat, Record>) returns (ok: bool)
    ensures ok <==> ValidTransaction(p, c, tx, files)
  {
    var n := |tx.seal.digests|;
    var header := CheckHeader(p, c, tx);
    var held := CheckFiles(tx, files);
    if !header || !held || !ValidRequest(p, c, tx.request) || tx.intent != IntentOf(c, tx.request)
       || tx.seal.shape.metadata.expiresAt != tx.expires {
      return false;
    }
    if n > 0 && files[n - 1].hash != tx.hash {
      return false;
    }
    if tx.uploaded > n || (tx.uploaded != 0 && tx.prepared.None?) {
      return false;
    }
    ok := CheckPrepared(p, c, tx);
  }

  /** verifyStoredAck, chunk by chunk. */
  method VerifyAck(c: Config, a: Authority, ack: Ack) returns (ok: bool)
    ensures ok <==> VerifiedAck(c, a, ack)
  {
    if ack.signer != c.storageKey || ack.grant != a || ack.manifest != a.manifest || ack.bytes != a.bytes
       || ack.retainUntil != a.retainUntil || ack.storedAt < a.issuedAt || ack.storedAt >= a.expiresAt
       || |ack.chunks| != |a.chunks| {
      return false;
    }
    for i := 0 to |ack.chunks|
      invariant ack.chunks[..i] == a.chunks[..i]
    {
      if ack.chunks[i] != a.chunks[i] {
        return false;
      }
    }
    assert ack.chunks[..|ack.chunks|] == ack.chunks && a.chunks[..|a.chunks|] == a.chunks;
    ok := true;
  }

  /** The world with one more chunk on file. */
  function Chunked(w: World, key: string, n: nat, record: Record, piece: Bytes): World
    requires key in w.dirs
  {
    WithFile(w, key, n, record).(pieces := w.pieces[key := PiecesOf(w, key) + [piece]])
  }

  /** Saving what a read found leaves a directory that reads back as saved. */
  lemma ReadsAgain(p: Primitives, c: Config, key: string, dir: Dir, ps: seq<Bytes>)
    requires Lawful(p) && dir.state.Some? && TransactionOk(p, c, key, dir.state.value, dir.files, ps)
    requires Read(p, c, dir).Some?
    ensures Read(p, c, Dir(Read(p, c, dir), dir.files, false)) == Read(p, c, dir)
  {
    var tx := dir.state.value;
    ChunkSaved(p, c, key, tx, dir.files, ps);
    Reopens(p, c, key, dir, ps);
    ReadsReconciled(p, c, key, dir, ps);
    var saved := Reconciled(tx, dir.files).value;
    NoOrphan(p, c, key, saved, dir.files, ps);
    ReadsReconciled(p, c, key, Dir(Some(saved), dir.files, false), ps);
  }

  // ------------------------------------------------------------------------------ restarts

  /** The index names exactly the transactions of the keys listed. */
  ghost predicate Indexed(dirs: map<string, Dir>, byUpload: Index, names: seq<string>) {
    var holds :=
      && (forall k :: k in names ==>
            k in dirs && dirs[k].state.Some? && dirs[k].state.value.upload in byUpload && byUpload[dirs[k].state.value.upload] == k)
      && (forall u :: u in byUpload ==>
            byUpload[u] in names && byUpload[u] in dirs && dirs[byUpload[u]].state.Some? && dirs[byUpload[u]].state.value.upload == u);
    holds
  }

  /** Reading a directory changes neither its creation time nor its upload identifier, and tears nothing. */
  predicate SameHead(was: Dir, dir: Dir) {
    && (dir.state.Some? <==> was.state.Some?) && dir.torn == was.torn
    && (was.state.Some? ==> dir.state.value.upload == was.state.value.upload && dir.state.value.created == was.state.value.created)
  }

  ghost predicate SameHeads(was: map<string, Dir>, dirs: map<string, Dir>) {
    var holds :=
      && dirs.Keys == was.Keys
      && forall k :: k in was ==> SameHead(was[k], dirs[k]);
    holds
  }

  lemma HeadsKept(was: map<string, Dir>, before: map<string, Dir>, dirs: map<string, Dir>, key: string)
    requires SameHeads(was, before) && key in before && key in dirs && dirs == before[key := dirs[key]] && SameHead(before[key], dirs[key])
    ensures SameHeads(was, dirs)
  {
  }

  lemma IndexGrows(dirs: map<string, Dir>, byUpload: Index, names: seq<string>, key: string)
    requires Indexed(dirs, byUpload, names) && key !in names
    ensures forall dir: Dir :: dir.state.Some? && dir.state.value.upload !in byUpload ==>
              Indexed(dirs[key := dir], byUpload[dir.state.value.upload := key], names + [key])
  {
    forall dir: Dir | dir.state.Some? && dir.state.value.upload !in byUpload
      ensures Indexed(dirs[key := dir], byUpload[dir.state.value.upload := key], names + [key])
    {
      assert key in names + [key];
    }
  }

  lemma AllIndexed(was: map<string, Dir>, dirs: map<string, Dir>, byUpload: Index, names: seq<string>)
    requires SameHeads(was, dirs) && Indexed(dirs, byUpload, names) && Lists(names, was.Keys)
    requires forall k :: k in names ==> k in dirs && Legible(dirs[k])
    ensures Loadable(was)
  {
    forall k | k in was ensures Legible(was[k]) {
      assert k in names;
    }
    forall k, l | k in was && l in was && k != l && was[k].state.Some? && was[l].state.Some?
      ensures was[k].state.value.upload != was[l].state.value.upload
    {
      assert k in names && l in names;
    }
  }

  lemma RepeatUnloadable(was: map<string, Dir>, dirs: map<string, Dir>, byUpload: Index, names: seq<string>, key: string)
    requires SameHeads(was, dirs) && Indexed(dirs, byUpload, names) && key in dirs && key !in names
    requires dirs[key].state.Some? && dirs[key].state.value.upload in byUpload
    ensures !Loadable(was)
  {
    var other := byUpload[dirs[key].state.value.upload];
    assert other in names && other in dirs;
  }

  class Emitter {
    const p: Primitives
    const c: Config
    var dirs: map<string, Dir>
    var compositions: map<string, Composition>
    var deliveries: set<Event>
    var byUpload: Index
    ghost var pieces: map<string, seq<Bytes>>
    ghost var acks: set<Ack>
    ghost var reported: set<(string, Event)>
    ghost var making: Option<string>
    ghost var history: seq<World>
    ghost var steps: seq<Step>

    ghost function Value(): World
      reads this
    {
      World(dirs, compositions, deliveries, pieces, acks, reported, making)
    }

    /** The worlds so far are a run, and this is its last. */
    ghost predicate Tracked()
      reads this
    {
      var holds := Lawful(p) && IsRun(p, c, history, steps) && history[|history| - 1] == Value();
      holds
    }

    /** Between calls no Begin is half done. */
    ghost predicate Valid()
      reads this
    {
      Tracked() && making.None?
    }

    /** Start over after a crash: only the disk, and the ghost run that led to it, survive. */
    constructor (p: Primitives, c: Config, disk: World, ghost history: seq<World>, ghost steps: seq<Step>)
      requires Lawful(p) && IsRun(p, c, history, steps) && history[|history| - 1] == disk && disk.making.None?
      ensures Valid() && Value() == disk && this.history == history && this.steps == steps && byUpload == map[]
      ensures this.p == p && this.c == c
    {
      this.p, this.c := p, c;
      dirs, compositions, deliveries, byUpload := disk.dirs, disk.compositions, disk.deliveries, map[];
      pieces, acks, reported, making := disk.pieces, disk.acks, disk.reported, None;
      this.history, this.steps := history, steps;
    }

    lemma Sound()
      requires Tracked()
      ensures Inv(p, c, Value())
    {
      RunInv(p, c, history, steps, |history| - 1);
    }

    /** Record one step of the model. */
    ghost method Record(step: Step)
      requires Lawful(p) && IsRun(p, c, history, steps) && Takes(p, c, history[|history| - 1], step, Value())
      modifies this`history, this`steps
      ensures Tracked() && history == old(history) + [Value()] && steps == old(steps) + [step]
    {
      RunExtends(p, c, history, steps, step, Value());
      history, steps := history + [Value()], steps + [step];
    }

    // One file operation each.

    method Save(key: string, tx: Transaction, ghost step: Step)
      requires Valid() && key in dirs && Takes(p, c, Value(), step, Saved(Value(), key, tx))
      modifies this
      ensures Valid() && Value() == Saved(old(Value()), key, tx) && byUpload == old(byUpload)
      ensures history == old(history) + [Value()] && steps == old(steps) + [step]
    {
      dirs := dirs[key := dirs[key].(state := Some(tx))];
      Record(step);
    }

    method Destroy(key: string, upload: Bytes)
      requires Valid() && Reads(p, c, Value(), key)
      modifies this
      ensures Valid() && Value() == Removed(old(Value()), key) && byUpload == old(byUpload) - {upload}
      ensures history == old(history) + [Value()] && steps == old(steps) + [Discard(key)]
    {
      dirs := dirs - {key};
      byUpload := byUpload - {upload};
      Record(Discard(key));
    }

    method WriteChunkFile(key: string, n: nat, record: EmitterModel.Record, ghost piece: Bytes)
      requires Valid() && key in dirs && WritesChunk(p, c, Value(), key, piece, Chunked(Value(), key, n, record, piece))
      modifies this
      ensures Valid() && byUpload == old(byUpload)
      ensures Value() == Chunked(old(Value()), key, n, record, piece)
      ensures history == old(history) + [Value()] && steps == old(steps) + [WriteChunk(key, piece)]
    {
      dirs := dirs[key := dirs[key].(files := dirs[key].files[n := record])];
      pieces := pieces[key := PiecesOf(old(Value()), key) + [piece]];
      Record(WriteChunk(key, piece));
    }

    // Reading.

    /** readTransaction: check, adopt an orphan chunk, check again.  A refusal may have saved the
        adopted state already. */
    method ReadTransaction(key: string) returns (r: Option<Transaction>)
      requires Valid() && HasState(Value(), key)
      modifies this
      ensures Valid() && old(history) <= history && byUpload == old(byUpload)
      ensures r == Read(p, c, old(dirs)[key]) && Value() == Readback(p, c, old(Value()), key)
      ensures r.Some? ==> Reads(p, c, Value(), key) && StateOf(Value(), key) == r.value
    {
      var dir := dirs[key];
      if dir.torn {
        return None;
      }
      var header := CheckHeader(p, c, dir.state.value);
      if !header {
        return None;
      }
      var tx := Reconciled(dir.state.value, dir.files);
      if tx.None? {
        return None;
      }
      ReadSaved(key);
      Adopt(key, tx.value);
      var ok := CheckTransaction(p, c, tx.value, dir.files);
      r := if ok then tx else None;
    }

    /** Save the reconciled state, if it is new. */
    method Adopt(key: string, tx: Transaction)
      requires Valid() && key in dirs && SavesChunk(p, c, Value(), key, Saved(Value(), key, tx))
      modifies this
      ensures Valid() && old(history) <= history && byUpload == old(byUpload)
      ensures Value() == Saved(old(Value()), key, tx)
    {
      if Some(tx) != dirs[key].state {
        Save(key, tx, SaveChunk(key));
      } else {
        assert dirs == dirs[key := dirs[key].(state := Some(tx))];
      }
    }

    lemma ReadSaved(key: string)
      requires Valid() && HasState(Value(), key)
      ensures Read(p, c, dirs[key]).Some? ==> Read(p, c, Dir(Read(p, c, dirs[key]), dirs[key].files, false)) == Read(p, c, dirs[key])
    {
      Sound();
      StateOk(p, c, Value(), key);
      if Read(p, c, dirs[key]).Some? {
        ReadsAgain(p, c, key, dirs[key], PiecesOf(Value(), key));
      }
    }

    // Restarting.

    /** loadTransactions: a restart reads every transaction, adopting orphan chunks.  It succeeds
        exactly when every directory is legible and no two share an upload identifier. */
    method Load(names: seq<string>) returns (ok: bool)
      requires Valid() && byUpload == map[] && Lists(names, dirs.Keys)
      modifies this
      ensures Valid() && old(history) <= history && Value() == old(Value()).(dirs := dirs) && SameHeads(old(dirs), dirs)
      ensures ok <==> Loadable(old(dirs))
      ensures ok ==> Indexed(dirs, byUpload, names)
    {
      for i := 0 to |names|
        invariant Valid() && old(history) <= history && Value() == old(Value()).(dirs := dirs)
        invariant SameHeads(old(dirs), dirs) && Indexed(dirs, byUpload, names[..i])
        invariant forall k :: k in names[..i] ==> k in dirs && Legible(dirs[k])
      {
        var key := names[i];
        assert key in names && names[..i + 1] == names[..i] + [key];
        assert key !in names[..i];
        IndexGrows(dirs, byUpload, names[..i], key);
        ghost var before := dirs;
        if dirs[key].state.Some? && dirs[key].state.value.upload in byUpload {
          RepeatUnloadable(old(dirs), dirs, byUpload, names[..i], key);
        }
        var loaded := LoadOne(key);
        HeadsKept(old(dirs), before, dirs, key);
        if !loaded {
          return false;
        }
      }
      assert names[..|names|] == names;
      AllIndexed(old(dirs), dirs, byUpload, names);
      ok := true;
    }

    method LoadOne(key: string) returns (ok: bool)
      requires Valid() && key in dirs
      modifies this
      ensures Valid() && old(history) <= history && Value() == old(Value()).(dirs := dirs)
      ensures ok <==> Legible(old(dirs)[key]) && old(dirs)[key].state.value.upload !in old(byUpload)
      ensures key in dirs && dirs == old(dirs)[key := dirs[key]] && SameHead(old(dirs)[key], dirs[key])
      ensures ok ==> byUpload == old(byUpload)[dirs[key].state.value.upload := key]
      ensures !ok ==> byUpload == old(byUpload)
    {
      if dirs[key].state.None? {
        return false;
      }
      ReadableExactly(key);
      var read := ReadTransaction(key);
      if read.None? || read.value.upload in byUpload {
        return false;
      }
      byUpload := byUpload[read.value.upload := key];
      ok := true;
    }

    lemma ReadableExactly(key: string)
      requires Valid() && HasState(Value(), key)
      ensures Read(p, c, dirs[key]).Some? <==> Legible(dirs[key])
    {
      Sound();
      StateOk(p, c, Value(), key);
      Reopens(p, c, key, dirs[key], PiecesOf(Value(), key));
    }

    // The calls.

    /** Begin: take up an existing transaction, find a finished one, or create a new one. */
    method Begin(request: Request, upload: Bytes, material: Material, now: Uint64, writable: bool) returns (r: Outcome)
      requires Valid()
      modifies this
      ensures Valid() && old(history) <= history
      ensures Answer(Value(), byUpload, r) == BeginCall(p, c, old(Value()), old(byUpload), request, upload, material, now, writable)
      ensures r.Complete? ==> Finished(request.key, r.event)
    {
      if !ValidRequest(p, c, request) {
        return Refused;
      }
      var key := request.key;
      if key in dirs && dirs[key].state.Some? {
        var existing := ReadTransaction(key);
        if existing.None? || existing.value.intent != IntentOf(c, request) {
          return Refused;
        }
        if now < existing.value.expires {
          return InProgress(existing.value.upload, |existing.value.seal.digests|);
        }
        Destroy(key, existing.value.upload);
      }
      r := BeginFresh(request, upload, material, now, writable);
    }

    method BeginFresh(request: Request, upload: Bytes, material: Material, now: Uint64, writable: bool) returns (r: Outcome)
      requires Valid() && ValidRequest(p, c, request)
      modifies this
      ensures Valid() && old(history) <= history
      ensures Answer(Value(), byUpload, r) == BeginNew(p, c, old(Value()), old(byUpload), request, upload, material, now, writable)
      ensures r.Complete? ==> Finished(request.key, r.event)
    {
      if request.key in compositions {
        r := LookupQueued(request.key, IntentOf(c, request));
        return;
      }
      if !Usable(material) || (now + c.retention) % UINT64_LIMIT <= now || request.key in dirs {
        return Refused;
      }
      r := Create(request, upload, material, now, writable);
    }

    /** The Event is composed under the key and durably queued, after its acknowledgement. */
    ghost predicate Finished(key: string, e: Event)
      reads this
    {
      && key in compositions && compositions[key].event == e && e.Artifact? && e in deliveries
      && (key, e) in reported
      && exists ack :: ack in acks && AckFor(c, e, ack)
    }

    /** LookupQueuedComposition: a composition alone is no evidence of completion. */
    method LookupQueued(key: string, intent: Intent) returns (r: Outcome)
      requires Valid() && key in compositions
      modifies this
      ensures Valid() && old(history) <= history && byUpload == old(byUpload)
      ensures r == if Queued(old(Value()), key, intent) then Complete(old(compositions)[key].event) else Refused
      ensures Value() == if r.Complete? then Reported(old(Value()), key) else old(Value())
      ensures r.Complete? ==> Finished(key, r.event)
    {
      var composition := compositions[key];
      if composition.intent != intent || composition.event !in deliveries || !composition.event.Artifact? {
        return Refused;
      }
      ReportDone(key);
      r := Complete(composition.event);
    }

    ghost method ReportDone(key: string)
      requires Valid() && HasArtifact(Value(), key) && compositions[key].event in deliveries
      modifies this`reported, this`history, this`steps
      ensures Valid() && Finished(key, compositions[key].event) && history == old(history) + [Value()]
      ensures Value() == Reported(old(Value()), key)
    {
      reported := reported + {(key, compositions[key].event)};
      Record(Report(key));
      Sound();
      assert QueuedOk(c, Value(), compositions[key].event);
    }

    /** Make the directory, then its state file; remove the directory again if that fails. */
    method Create(request: Request, upload: Bytes, material: Material, now: Uint64, writable: bool) returns (r: Outcome)
      requires Valid() && Beginnable(p, c, request, material, now)
      requires request.key !in dirs && request.key !in compositions
      modifies this
      ensures Valid() && old(history) <= history
      ensures r == if writable then InProgress(upload, 0) else Refused
      ensures Value() == if writable then Created(old(Value()), NewTransaction(c, request, upload, material, now)) else old(Value())
      ensures byUpload == if writable then old(byUpload)[upload := request.key] else old(byUpload)
    {
      var tx := NewTransaction(c, request, upload, material, now);
      MakeDirectory(request.key, tx);
      if writable {
        WriteFirstState(tx);
        byUpload := byUpload[upload := request.key];
        r := InProgress(upload, 0);
      } else {
        RemoveDirectory(request.key);
        assert dirs == old(dirs);
        r := Refused;
      }
    }

    method MakeDirectory(key: string, ghost tx: Transaction)
      requires Valid() && key !in dirs && key !in compositions && Opening(p, c, key, tx)
      modifies this
      ensures Tracked() && history == old(history) + [Value()] && byUpload == old(byUpload)
      ensures Value() == old(Value()).(dirs := old(dirs)[key := NEW_DIR], making := Some(key))
    {
      dirs := dirs[key := NEW_DIR];
      making := Some(key);
      Record(MakeDir(key, tx));
    }

    method WriteFirstState(tx: Transaction)
      requires Tracked() && making == Some(tx.request.key) && tx.request.key in dirs && dirs[tx.request.key] == NEW_DIR
      requires Opening(p, c, tx.request.key, tx)
      modifies this
      ensures Valid() && history == old(history) + [Value()] && byUpload == old(byUpload)
      ensures Value() == Created(old(Value()), tx).(making := None)
    {
      dirs := dirs[tx.request.key := dirs[tx.request.key].(state := Some(tx))];
      pieces := pieces[tx.request.key := []];
      making := None;
      Record(CreateState(tx.request.key, tx));
    }

    method RemoveDirectory(key: string)
      requires Tracked() && making == Some(key) && key in dirs && dirs[key] == NEW_DIR
      modifies this
      ensures Valid() && history == old(history) + [Value()] && byUpload == old(byUpload)
      ensures Value() == Removed(old(Value()), key).(making := None)
    {
      dirs := dirs - {key};
      making := None;
      Record(DropDir(key));
    }

    /** Append: seal one exact next piece, write its file, then the state. */
    method Append(upload: Bytes, index: nat, piece: Bytes) returns (r: Outcome)
      requires Valid()
      modifies this
      ensures Valid() && old(history) <= history
      ensures Answer(Value(), byUpload, r) == AppendCall(p, c, old(Value()), old(byUpload), upload, index, piece)
    {
      if |piece| == 0 || |piece| > MAX_CHUNK_BYTES || upload !in byUpload {
        return Refused;
      }
      var key := byUpload[upload];
      if key !in dirs || dirs[key].state.None? {
        return Refused;
      }
      var read := ReadTransaction(key);
      if read.None? {
        return Refused;
      }
      r := AppendNext(key, upload, index, piece);
    }

    method AppendNext(key: string, upload: Bytes, index: nat, piece: Bytes) returns (r: Outcome)
      requires Valid() && Reads(p, c, Value(), key)
      modifies this
      ensures Valid() && old(history) <= history
      ensures Answer(Value(), byUpload, r) == AppendRead(p, old(Value()), old(byUpload), key, upload, index, piece)
    {
      var tx := dirs[key].state.value;
      if tx.upload != upload || index != |tx.seal.digests| || tx.prepared.Some? {
        return Refused;
      }
      var sealed := AppendPiece(key, piece);
      r := if sealed then InProgress(tx.upload, index + 1) else Refused;
    }

    method AppendPiece(key: string, piece: Bytes) returns (ok: bool)
      requires Valid() && Reads(p, c, Value(), key) && StateOf(Value(), key).prepared.None?
      modifies this
      ensures Valid() && old(history) <= history && byUpload == old(byUpload)
      ensures ok <==> SealNext(p, StateOf(old(Value()), key).seal, piece).Some?
      ensures Value() == if ok then Appended(old(Value()), key, AppendCut(p, old(dirs)[key], piece, 2), piece) else old(Value())
    {
      var tx := dirs[key].state.value;
      var state := new SealState(tx.seal);
      var chunk := state.Next(p, piece);
      if chunk.None? {
        return false;
      }
      var hash := Absorbed(tx.hash.bytes + piece);
      AppendReady(key, piece);
      WriteChunkFile(key, |tx.seal.digests|, EmitterModel.Record(hash, chunk.value.ciphertext), piece);
      Save(key, tx.(seal := state.Value(), hash := hash), SaveChunk(key));
      ok := true;
    }

    /** Both of Append's writes are steps of the model. */
    lemma AppendReady(key: string, piece: Bytes)
      requires Valid() && Reads(p, c, Value(), key) && StateOf(Value(), key).prepared.None?
      requires SealNext(p, StateOf(Value(), key).seal, piece).Some?
      ensures var tx, n := StateOf(Value(), key), |StateOf(Value(), key).seal.digests|;
              var mid := Chunked(Value(), key, n, ChunkFile(p, tx, piece), piece);
              && WritesChunk(p, c, Value(), key, piece, mid)
              && SavesChunk(p, c, mid, key, Saved(mid, key, tx.(seal := SealNext(p, tx.seal, piece).value.0, hash := Absorbed(tx.hash.bytes + piece))))
    {
      Sound();
      StateOk(p, c, Value(), key);
      ReadsWhole(p, c, key, dirs[key], PiecesOf(Value(), key));
      AppendSaves(p, c, key, dirs[key], PiecesOf(Value(), key), piece);
    }

    /** Commit: prepare, compose, upload the next batch, and only after a verified acknowledgement
        queue the Event. */
    method Commit(upload: Bytes, uploadKey: Bytes, fetchKey: Bytes, now: nat, reply: Reply) returns (r: Outcome)
      requires Valid()
      modifies this
      ensures Valid() && old(history) <= history
      ensures Answer(Value(), byUpload, r) == CommitCall(p, c, old(Value()), old(byUpload), upload, uploadKey, fetchKey, now, reply)
      ensures r.Complete? ==> Finished(old(byUpload)[upload], r.event)
    {
      if upload !in byUpload {
        return Refused;
      }
      var key := byUpload[upload];
      if key !in dirs || dirs[key].state.None? {
        return Refused;
      }
      var read := ReadTransaction(key);
      if read.None? {
        return Refused;
      }
      r := CommitTransaction(key, uploadKey, fetchKey, now, reply);
    }

    /** The rest of Commit, on the transaction just read. */
    method CommitTransaction(key: string, uploadKey: Bytes, fetchKey: Bytes, now: nat, reply: Reply) returns (r: Outcome)
      requires Valid() && Reads(p, c, Value(), key)
      modifies this
      ensures Valid() && old(history) <= history
      ensures Answer(Value(), byUpload, r) == CommitRead(p, c, old(Value()), old(byUpload), key, uploadKey, fetchKey, now, reply)
      ensures r.Complete? ==> Finished(key, r.event)
    {
      var tx := dirs[key].state.value;
      var reference := ReferenceOf(p, tx.seal);
      if reference.None? {
        return Refused;
      }
      if Sha256(tx.hash.bytes) != tx.request.plaintextDigest {
        Destroy(key, tx.upload);
        return Refused;
      }
      if tx.prepared.None? {
        if !Grantable(c, uploadKey, fetchKey) {
          return Refused;
        }
        Prepare(key, reference.value, uploadKey, fetchKey);
      }
      r := ComposeEvent(key, now, reply);
    }

    /** Sign both grants and save them; the prepared transaction reads back as itself. */
    method Prepare(key: string, reference: Reference, uploadKey: Bytes, fetchKey: Bytes)
      requires Valid() && Reads(p, c, Value(), key) && StateOf(Value(), key).prepared.None? && Grantable(c, uploadKey, fetchKey)
      requires StreamReference(p, StateOf(Value(), key).seal) == Some(reference)
      requires Sha256(StateOf(Value(), key).hash.bytes) == StateOf(Value(), key).request.plaintextDigest
      modifies this
      ensures Valid() && old(history) <= history && byUpload == old(byUpload)
      ensures var tx := StateOf(old(Value()), key);
              Value() == Saved(old(Value()), key, tx.(prepared := Some(MakePrepared(p, c, tx, reference, uploadKey, fetchKey))))
      ensures Reads(p, c, Value(), key)
    {
      var tx := dirs[key].state.value;
      ghost var w := Value();
      Sound();
      Save(key, tx.(prepared := Some(MakePrepared(p, c, tx, reference, uploadKey, fetchKey))), SavePrepared(key, uploadKey, fetchKey));
      KeepsReading(w, key);
    }

    /** A state rewritten over the same files and chunks still reads back as itself. */
    lemma KeepsReading(w: World, key: string)
      requires Valid() && Inv(p, c, w) && Reads(p, c, w, key) && HasState(Value(), key)
      requires dirs[key].files == w.dirs[key].files && dirs[key].torn == w.dirs[key].torn && PiecesOf(Value(), key) == PiecesOf(w, key)
      requires StateOf(Value(), key).created == StateOf(w, key).created && StateOf(Value(), key).seal == StateOf(w, key).seal
      ensures Reads(p, c, Value(), key)
    {
      Sound();
      StateOk(p, c, w, key);
      StateOk(p, c, Value(), key);
      var ps := PiecesOf(w, key);
      ReadsWhole(p, c, key, w.dirs[key], ps);
      Reopens(p, c, key, w.dirs[key], ps);
      NoOrphan(p, c, key, StateOf(Value(), key), dirs[key].files, ps);
      ReadsReconciled(p, c, key, dirs[key], ps);
    }

    /** PrepareEncryptedAttachment: the first composition under a key wins; then upload. */
    method ComposeEvent(key: string, now: nat, reply: Reply) returns (r: Outcome)
      requires Valid() && Reads(p, c, Value(), key) && StateOf(Value(), key).prepared.Some?
      modifies this
      ensures Valid() && old(history) <= history
      ensures Answer(Value(), byUpload, r) == ComposeRead(c, old(Value()), old(byUpload), key, now, reply)
      ensures r.Complete? ==> Finished(key, r.event)
    {
      var tx := dirs[key].state.value;
      if tx.expires <= now {
        return Refused;
      }
      if key !in compositions {
        Claim(key, now);
      } else {
        var chosen := compositions[key];
        if chosen.intent != tx.intent || !chosen.event.Artifact? {
          return Refused;
        }
        if chosen.event.manifest != tx.prepared.value.upload.manifest {
          // The substituted composition: no run gets here.
          Sound();
          StateOk(p, c, Value(), key);
          assert false;
        }
      }
      r := UploadNext(key, reply);
    }

    method Claim(key: string, now: nat)
      requires Valid() && Reads(p, c, Value(), key) && StateOf(Value(), key).prepared.Some?
      requires key !in compositions && now < StateOf(Value(), key).expires
      modifies this
      ensures Valid() && history == old(history) + [Value()] && byUpload == old(byUpload)
      ensures var tx := StateOf(old(Value()), key);
              Value() == old(Value()).(compositions := old(compositions)[key := Composition(tx.intent, EventFor(tx, now))])
      ensures OwnComposition(p, c, Value(), key)
    {
      var tx := dirs[key].state.value;
      compositions := compositions[key := Composition(tx.intent, EventFor(tx, now))];
      Record(Compose(key, now));
    }

    /** Upload one chunk; queue the Event on a verified acknowledgement. */
    method UploadNext(key: string, reply: Reply) returns (r: Outcome)
      requires Valid() && OwnComposition(p, c, Value(), key)
      modifies this
      ensures Valid() && old(history) <= history
      ensures Answer(Value(), byUpload, r) == UploadRead(c, old(Value()), old(byUpload), key, reply)
      ensures r.Complete? ==> Finished(key, r.event)
    {
      var tx, files := dirs[key].state.value, dirs[key].files;
      var start := tx.uploaded;
      if start + 1 > |tx.seal.digests| || start !in files || Sha256(files[start].ciphertext) != tx.seal.digests[start] {
        return Refused;
      }
      match reply {
        case Failed => r := Refused;
        case Partial =>
          if start + 1 >= |tx.seal.digests| {
            return Refused;
          }
          Save(key, tx.(uploaded := start + 1), SaveProgress(key));
          r := InProgress(tx.upload, start + 1);
        case Acknowledged(ack) =>
          var verified := VerifyAck(c, tx.prepared.value.upload, ack);
          if !verified {
            return Refused;
          }
          r := QueueStored(key, ack);
      }
    }

    method QueueStored(key: string, ghost ack: Ack) returns (r: Outcome)
      requires Valid() && OwnComposition(p, c, Value(), key)
      requires VerifiedAck(c, StateOf(Value(), key).prepared.value.upload, ack)
      modifies this
      ensures Valid() && old(history) <= history
      ensures r == Complete(old(compositions)[key].event) && Finished(key, r.event)
      ensures Value() == EmitterCalls.Stored(old(Value()), key, ack)
      ensures byUpload == old(byUpload) - {StateOf(old(Value()), key).upload}
    {
      var event, upload := compositions[key].event, dirs[key].state.value.upload;
      NoteAck(key, ack);
      QueueEvent(key, event, ack);
      Destroy(key, upload);
      ReportDone(key);
      r := Complete(event);
    }

    ghost method NoteAck(key: string, ack: Ack)
      requires Valid() && Acknowledges(p, c, Value(), key, ack, Value().(acks := acks + {ack}))
      modifies this`acks, this`history, this`steps
      ensures Valid() && Value() == old(Value()).(acks := old(acks) + {ack}) && history == old(history) + [Value()]
    {
      acks := acks + {ack};
      Record(Acknowledge(key, ack));
    }

    /** QueuePreparedAttachment: enqueueing the same Event again changes nothing. */
    method QueueEvent(key: string, event: Event, ghost ack: Ack)
      requires Valid() && OwnComposition(p, c, Value(), key) && event == compositions[key].event
      requires ack in acks && VerifiedAck(c, StateOf(Value(), key).prepared.value.upload, ack)
      modifies this
      ensures Valid() && byUpload == old(byUpload)
      ensures Value() == old(Value()).(deliveries := old(deliveries) + {event}) && history == old(history) + [Value()]
    {
      deliveries := deliveries + {event};
      Record(Enqueue(key));
    }
  }
}
