/** What Begin, Append, Commit and a restart answer, and the world each leaves, as functions of the
    world before; and when each succeeds. */
module EmitterCalls {
  import opened Foundation
  import opened AttachmentLimits
  import opened Digests
  import opened StoreModel
  import opened Sealing
  import opened SealingLaws
  import opened EmitterModel
  import opened EmitterInvariant
  import opened EmitterRuns

  datatype Outcome = Refused | InProgress(upload: Bytes, next: nat) | Complete(event: Event)

  /** What the storage service answered to one batch. */
  datatype Reply = Failed | Partial | Acknowledged(ack: Ack)

  /** The index of uploads lives in memory, beside the world. */
  type Index = map<Bytes, string>

  datatype Answer = Answer(world: World, index: Index, outcome: Outcome)

  // ------------------------------------------------------------------------------ reading

  /** The world after readTransaction: an adopted state has been saved. */
  ghost function Readback(p: Primitives, c: Config, w: World, key: string): World
    requires HasState(w, key)
  {
    if w.dirs[key].torn || !ValidHeader(p, c, StateOf(w, key)) then w
    else
      match Reconciled(StateOf(w, key), w.dirs[key].files)
      case None => w
      case Some(tx) => Saved(w, key, tx)
  }

  function Removed(w: World, key: string): World {
    w.(dirs := w.dirs - {key})
  }

  // -------------------------------------------------------------------------------- Begin

  function Reported(w: World, key: string): World
    requires key in w.compositions
  {
    w.(reported := w.reported + {(key, w.compositions[key].event)})
  }

  predicate Queued(w: World, key: string, intent: Intent) {
    && key in w.compositions && w.compositions[key].intent == intent
    && w.compositions[key].event.Artifact? && w.compositions[key].event in w.deliveries
  }

  function Created(w: World, tx: Transaction): World {
    w.(dirs := w.dirs[tx.request.key := NEW_DIR.(state := Some(tx))], pieces := w.pieces[tx.request.key := []])
  }

  /** Begin past any transaction on file.  `writable` says whether the state file can be written. */
  ghost function BeginNew(p: Primitives, c: Config, w: World, index: Index, r: Request, upload: Bytes, m: Material, now: Uint64,
                          writable: bool): Answer
  {
    if r.key in w.compositions then
      if Queued(w, r.key, IntentOf(c, r)) then Answer(Reported(w, r.key), index, Complete(w.compositions[r.key].event))
      else Answer(w, index, Refused)
    else if !Beginnable(p, c, r, m, now) || r.key in w.dirs || !writable then Answer(w, index, Refused)
    else Answer(Created(w, NewTransaction(c, r, upload, m, now)), index[upload := r.key], InProgress(upload, 0))
  }

  ghost function BeginCall(p: Primitives, c: Config, w: World, index: Index, r: Request, upload: Bytes, m: Material, now: Uint64,
                           writable: bool): Answer
  {
    if !ValidRequest(p, c, r) then Answer(w, index, Refused)
    else if !HasState(w, r.key) then BeginNew(p, c, w, index, r, upload, m, now, writable)
    else
      var w1 := Readback(p, c, w, r.key);
      match Read(p, c, w.dirs[r.key])
      case None => Answer(w1, index, Refused)
      case Some(tx) =>
        if tx.intent != IntentOf(c, r) then Answer(w1, index, Refused)
        else if now < tx.expires then Answer(w1, index, InProgress(tx.upload, |tx.seal.digests|))
        else BeginNew(p, c, Removed(w1, r.key), index - {tx.upload}, r, upload, m, now, writable)
  }

  // ------------------------------------------------------------------------------- Append

  function Appended(w: World, key: string, dir: Dir, piece: Bytes): World {
    w.(dirs := w.dirs[key := dir], pieces := w.pieces[key := PiecesOf(w, key) + [piece]])
  }

  ghost function AppendRead(p: Primitives, w: World, index: Index, key: string, upload: Bytes, n: nat, piece: Bytes): Answer
    requires HasState(w, key)
  {
    var tx := StateOf(w, key);
    if tx.upload != upload || n != |tx.seal.digests| || tx.prepared.Some? || SealNext(p, tx.seal, piece).None?
    then Answer(w, index, Refused)
    else Answer(Appended(w, key, AppendCut(p, w.dirs[key], piece, 2), piece), index, InProgress(upload, n + 1))
  }

  ghost function AppendCall(p: Primitives, c: Config, w: World, index: Index, upload: Bytes, n: nat, piece: Bytes): Answer {
    if |piece| == 0 || |piece| > MAX_CHUNK_BYTES || upload !in index || !HasState(w, index[upload]) then Answer(w, index, Refused)
    else
      var w1 := Readback(p, c, w, index[upload]);
      if Read(p, c, w.dirs[index[upload]]).None? then Answer(w1, index, Refused)
      else AppendRead(p, w1, index, index[upload], upload, n, piece)
  }

  // ------------------------------------------------------------------------------- Commit

  function Stored(w: World, key: string, ack: Ack): World
    requires key in w.compositions
  {
    Reported(Removed(w, key).(acks := w.acks + {ack}, deliveries := w.deliveries + {w.compositions[key].event}), key)
  }

  /** One upload call, once the composition is this transaction's own. */
  function UploadRead(c: Config, w: World, index: Index, key: string, reply: Reply): Answer
    requires HasState(w, key) && StateOf(w, key).prepared.Some? && key in w.compositions
  {
    var tx := StateOf(w, key);
    var files, start := w.dirs[key].files, tx.uploaded;
    if start + 1 > |tx.seal.digests| || start !in files || Sha256(files[start].ciphertext) != tx.seal.digests[start]
    then Answer(w, index, Refused)
    else
      match reply
      case Failed => Answer(w, index, Refused)
      case Partial =>
        if start + 1 >= |tx.seal.digests| then Answer(w, index, Refused)
        else Answer(Saved(w, key, tx.(uploaded := start + 1)), index, InProgress(tx.upload, start + 1))
      case Acknowledged(ack) =>
        if !VerifiedAck(c, tx.prepared.value.upload, ack) then Answer(w, index, Refused)
        else Answer(Stored(w, key, ack), index - {tx.upload}, Complete(w.compositions[key].event))
  }

  /** PrepareEncryptedAttachment and the choice behind it. */
  function ComposeRead(c: Config, w: World, index: Index, key: string, now: nat, reply: Reply): Answer
    requires HasState(w, key) && StateOf(w, key).prepared.Some?
  {
    var tx := StateOf(w, key);
    if tx.expires <= now then Answer(w, index, Refused)
    else if key !in w.compositions then
      UploadRead(c, w.(compositions := w.compositions[key := Composition(tx.intent, EventFor(tx, now))]), index, key, reply)
    else
      var chosen := w.compositions[key];
      if chosen.intent != tx.intent || !chosen.event.Artifact? then Answer(w, index, Refused)
      else if chosen.event.manifest != tx.prepared.value.upload.manifest then
        Answer(Reported(Removed(w, key), key), index - {tx.upload}, Complete(chosen.event))
      else UploadRead(c, w, index, key, reply)
  }

  ghost function CommitRead(p: Primitives, c: Config, w: World, index: Index, key: string, uploadKey: Bytes, fetchKey: Bytes, now: nat,
                            reply: Reply): Answer
    requires HasState(w, key)
  {
    var tx := StateOf(w, key);
    match StreamReference(p, tx.seal)
    case None => Answer(w, index, Refused)
    case Some(reference) =>
      if Sha256(tx.hash.bytes) != tx.request.plaintextDigest then Answer(Removed(w, key), index - {tx.upload}, Refused)
      else if tx.prepared.Some? then ComposeRead(c, w, index, key, now, reply)
      else if !Grantable(c, uploadKey, fetchKey) then Answer(w, index, Refused)
      else
        var ready := Saved(w, key, tx.(prepared := Some(MakePrepared(p, c, tx, reference, uploadKey, fetchKey))));
        ComposeRead(c, ready, index, key, now, reply)
  }

  ghost function CommitCall(p: Primitives, c: Config, w: World, index: Index, upload: Bytes, uploadKey: Bytes, fetchKey: Bytes,
                            now: nat, reply: Reply): Answer
  {
    if upload !in index || !HasState(w, index[upload]) then Answer(w, index, Refused)
    else
      var w1 := Readback(p, c, w, index[upload]);
      if Read(p, c, w.dirs[index[upload]]).None? then Answer(w1, index, Refused)
      else CommitRead(p, c, w1, index, index[upload], uploadKey, fetchKey, now, reply)
  }

  // ------------------------------------------------------------------------------ restarts

  /** Every directory has a state file, from a nonzero second, and nothing torn, and no two share an
      identifier. */
  predicate Loadable(dirs: map<string, Dir>) {
    && (forall k :: k in dirs ==> Legible(dirs[k]))
    && (forall k, l :: k in dirs && l in dirs && k != l && dirs[k].state.Some? && dirs[l].state.Some? ==>
          dirs[k].state.value.upload != dirs[l].state.value.upload)
  }

  // ------------------------------------------------------------------- when they succeed

  /** A sound and legible transaction is read back whole. */
  lemma ReadWhole(p: Primitives, c: Config, w: World, key: string)
    requires Lawful(p) && Inv(p, c, w) && HasState(w, key) && Legible(w.dirs[key])
    ensures Read(p, c, w.dirs[key]).Some? && HasState(Readback(p, c, w, key), key)
    ensures var tx, ps := StateOf(Readback(p, c, w, key), key), PiecesOf(w, key);
            && Read(p, c, w.dirs[key]) == Some(tx) && tx == StateOf(w, key).(seal := tx.seal, hash := tx.hash)
            && tx.seal.shape == StateOf(w, key).seal.shape && Matched(p, tx, w.dirs[key].files, ps) && Accepted(p, tx.seal.shape, ps)
            && Readback(p, c, w, key) == Saved(w, key, tx)
  {
    StateOk(p, c, w, key);
    var tx := StateOf(w, key);
    var files, ps := w.dirs[key].files, PiecesOf(w, key);
    HeaderHolds(p, c, key, tx, files, ps);
    ReadsReconciled(p, c, key, w.dirs[key], ps);
    ChunkSaved(p, c, key, tx, files, ps);
    Whole(p, c, key, Reconciled(tx, files).value, files, ps);
  }

  lemma ReadNone(p: Primitives, c: Config, w: World, key: string)
    requires HasState(w, key) && !Legible(w.dirs[key])
    ensures Read(p, c, w.dirs[key]).None? && Readback(p, c, w, key) == w
  {
  }

  lemma NewCompletes(p: Primitives, c: Config, w: World, index: Index, r: Request, upload: Bytes, m: Material, now: Uint64, writable: bool)
    ensures BeginNew(p, c, w, index, r, upload, m, now, writable).outcome.Complete? <==> Queued(w, r.key, IntentOf(c, r))
  {
  }

  /** Begin reports completion exactly when the composition under its intent is queued and no live
      transaction is on file. */
  lemma BeginCompletes(p: Primitives, c: Config, w: World, index: Index, r: Request, upload: Bytes, m: Material, now: Uint64, writable: bool)
    requires Lawful(p) && Inv(p, c, w)
    ensures BeginCall(p, c, w, index, r, upload, m, now, writable).outcome.Complete? <==>
            && ValidRequest(p, c, r) && Queued(w, r.key, IntentOf(c, r))
            && (HasState(w, r.key) ==>
                  Legible(w.dirs[r.key]) && StateOf(w, r.key).intent == IntentOf(c, r) && StateOf(w, r.key).expires <= now)
  {
    if !HasState(w, r.key) {
      NewCompletes(p, c, w, index, r, upload, m, now, writable);
    } else if !Legible(w.dirs[r.key]) {
      ReadNone(p, c, w, r.key);
    } else {
      ReadWhole(p, c, w, r.key);
      OverCompletes(p, c, w, index, r, upload, m, now, writable, Read(p, c, w.dirs[r.key]).value);
    }
  }

  lemma OverCompletes(p: Primitives, c: Config, w: World, index: Index, r: Request, upload: Bytes, m: Material, now: Uint64, writable: bool,
                      tx: Transaction)
    requires HasState(w, r.key) && Read(p, c, w.dirs[r.key]) == Some(tx) && Readback(p, c, w, r.key) == Saved(w, r.key, tx)
    ensures BeginCall(p, c, w, index, r, upload, m, now, writable).outcome.Complete? <==>
            ValidRequest(p, c, r) && Queued(w, r.key, IntentOf(c, r)) && tx.intent == IntentOf(c, r) && tx.expires <= now
  {
    NewCompletes(p, c, Removed(Saved(w, r.key, tx), r.key), index - {tx.upload}, r, upload, m, now, writable);
  }

  /** A broken directory refuses every Begin of its key, whatever the request, and nothing changes. */
  lemma BeginBroken(p: Primitives, c: Config, w: World, index: Index, r: Request, upload: Bytes, m: Material, now: Uint64, writable: bool)
    requires Inv(p, c, w) && Broken(w, r.key)
    ensures BeginCall(p, c, w, index, r, upload, m, now, writable) == Answer(w, index, Refused)
  {
    if HasState(w, r.key) {
      ReadNone(p, c, w, r.key);
    } else if r.key in w.compositions {
      assert Linked(w.dirs[r.key], w.compositions[r.key]);
    }
  }

  /** From then on, in every continuation of the run, every Begin of that key and every restart fails. */
  lemma BrokenRefuses(p: Primitives, c: Config, ws: seq<World>, steps: seq<Step>, i: nat, j: nat, index: Index, r: Request, upload: Bytes,
                      m: Material, now: Uint64, writable: bool)
    requires Lawful(p) && IsRun(p, c, ws, steps) && i <= j < |ws| && Broken(ws[i], r.key)
    ensures BeginCall(p, c, ws[j], index, r, upload, m, now, writable) == Answer(ws[j], index, Refused)
    ensures !Loadable(ws[j].dirs)
  {
    BrokenForever(p, c, ws, steps, i, j, r.key);
    RunInv(p, c, ws, steps, j);
    BeginBroken(p, c, ws[j], index, r, upload, m, now, writable);
  }

  // ------------------------------------------------------------------ when Begin goes on

  /** Begin can write a new transaction under the key. */
  ghost predicate Startable(p: Primitives, c: Config, w: World, r: Request, m: Material, now: Uint64, writable: bool) {
    r.key !in w.compositions && Beginnable(p, c, r, m, now) && writable
  }

  /** Begin answers with a transaction to go on with exactly when the one on file is legible, of this
      intent and unexpired, or when nothing is on file but what has expired under this intent, nothing
      is composed, and a new one can be written. */
  lemma BeginProgresses(p: Primitives, c: Config, w: World, index: Index, r: Request, upload: Bytes, m: Material, now: Uint64, writable: bool)
    requires Lawful(p) && Inv(p, c, w)
    ensures BeginCall(p, c, w, index, r, upload, m, now, writable).outcome.InProgress? <==>
            && ValidRequest(p, c, r)
            && if HasState(w, r.key)
               then && Legible(w.dirs[r.key]) && StateOf(w, r.key).intent == IntentOf(c, r)
                    && (now < StateOf(w, r.key).expires || Startable(p, c, w, r, m, now, writable))
               else r.key !in w.dirs && Startable(p, c, w, r, m, now, writable)
  {
    if !HasState(w, r.key) {
      NewProgresses(p, c, w, index, r, upload, m, now, writable);
    } else if !Legible(w.dirs[r.key]) {
      ReadNone(p, c, w, r.key);
    } else {
      ReadWhole(p, c, w, r.key);
      OverProgresses(p, c, w, index, r, upload, m, now, writable, Read(p, c, w.dirs[r.key]).value);
    }
  }

  lemma NewProgresses(p: Primitives, c: Config, w: World, index: Index, r: Request, upload: Bytes, m: Material, now: Uint64, writable: bool)
    ensures BeginNew(p, c, w, index, r, upload, m, now, writable).outcome.InProgress? <==>
            r.key !in w.dirs && Startable(p, c, w, r, m, now, writable)
  {
  }

  lemma OverProgresses(p: Primitives, c: Config, w: World, index: Index, r: Request, upload: Bytes, m: Material, now: Uint64, writable: bool,
                       tx: Transaction)
    requires HasState(w, r.key) && Read(p, c, w.dirs[r.key]) == Some(tx) && Readback(p, c, w, r.key) == Saved(w, r.key, tx)
    ensures BeginCall(p, c, w, index, r, upload, m, now, writable).outcome.InProgress? <==>
            ValidRequest(p, c, r) && tx.intent == IntentOf(c, r) && (now < tx.expires || Startable(p, c, w, r, m, now, writable))
  {
    var gone := Removed(Saved(w, r.key, tx), r.key);
    NewProgresses(p, c, gone, index - {tx.upload}, r, upload, m, now, writable);
  }

  /** The first Begin after the expiry of a composed, unqueued transaction abandons its key. */
  lemma ExpiredAbandons(p: Primitives, c: Config, w: World, index: Index, r: Request, upload: Bytes, m: Material, now: Uint64, writable: bool)
    requires Lawful(p) && Inv(p, c, w) && ValidRequest(p, c, r) && HasState(w, r.key) && Legible(w.dirs[r.key])
    requires StateOf(w, r.key).intent == IntentOf(c, r) && StateOf(w, r.key).expires <= now
    requires HasArtifact(w, r.key) && w.compositions[r.key].event !in w.deliveries
    ensures var a := BeginCall(p, c, w, index, r, upload, m, now, writable);
            a.outcome == Refused && Abandoned(a.world, r.key)
  {
    ReadWhole(p, c, w, r.key);
  }

  /** From then on, in every continuation of the run, every Begin of that key is refused and changes
      nothing, although the key's directory is gone and a restart succeeds. */
  lemma AbandonedRefuses(p: Primitives, c: Config, ws: seq<World>, steps: seq<Step>, i: nat, j: nat, index: Index, r: Request, upload: Bytes,
                         m: Material, now: Uint64, writable: bool)
    requires Lawful(p) && IsRun(p, c, ws, steps) && i <= j < |ws| && Abandoned(ws[i], r.key)
    ensures BeginCall(p, c, ws[j], index, r, upload, m, now, writable) == Answer(ws[j], index, Refused)
    ensures ws[i].compositions[r.key].event !in ws[j].deliveries
  {
    AbandonedForever(p, c, ws, steps, i, j, r.key);
  }

  /** Append succeeds exactly for the next piece of an unprepared, readable transaction: the right
      place, the right length, and a ciphertext none of the earlier ones repeats. */
  lemma AppendAccepts(p: Primitives, c: Config, w: World, index: Index, upload: Bytes, n: nat, piece: Bytes)
    requires Lawful(p) && Inv(p, c, w) && upload in index && HasState(w, index[upload]) && 0 < |piece| <= MAX_CHUNK_BYTES
    ensures var tx, ps := StateOf(w, index[upload]), PiecesOf(w, index[upload]);
            AppendCall(p, c, w, index, upload, n, piece).outcome.InProgress? <==>
            && Legible(w.dirs[index[upload]]) && tx.upload == upload && tx.prepared.None? && n == |ps|
            && ValidShape(p, tx.seal.shape) && Accepted(p, tx.seal.shape, ps + [piece])
  {
    var key := index[upload];
    if !Legible(w.dirs[key]) {
      ReadNone(p, c, w, key);
    } else {
      ReadWhole(p, c, w, key);
      var tx, ps := StateOf(Readback(p, c, w, key), key), PiecesOf(w, key);
      NextExactly(p, tx.seal.shape, ps, piece);
    }
  }

  /** Every piece is sealed, and together they have the declared digest. */
  ghost predicate Finishable(p: Primitives, tx: Transaction, ps: seq<Bytes>) {
    && ValidShape(p, tx.seal.shape) && |ps| == ChunkCount(tx.seal.shape) && Accepted(p, tx.seal.shape, ps)
    && Sha256(Concat(ps)) == tx.request.plaintextDigest
  }

  /** The conditions under which Commit completes, given a transaction on file and the reply. */
  ghost predicate Completable(p: Primitives, c: Config, w: World, key: string, uploadKey: Bytes, fetchKey: Bytes, now: nat, reply: Reply)
    requires HasState(w, key)
  {
    var tx := StateOf(w, key);
    && Legible(w.dirs[key]) && now < tx.expires && Finishable(p, tx, PiecesOf(w, key))
    && (tx.prepared.None? ==> Grantable(c, uploadKey, fetchKey))
    && (key in w.compositions ==> w.compositions[key].event.Artifact?)
    && tx.uploaded < |PiecesOf(w, key)|
    && reply.Acknowledged?
    && var r := MakeReference(p, tx.seal.shape, DigestsOf(SealChunks(p, tx.seal.shape, PiecesOf(w, key))));
       VerifiedAck(c, if tx.prepared.Some? then tx.prepared.value.upload else Granted(p, c, tx, r, ToUpload, uploadKey), reply.ack)
  }

  /** The stream yields its reference exactly when every piece is there. */
  lemma ReferenceExactly(p: Primitives, s: Shape, ps: seq<Bytes>)
    requires ValidShape(p, s) && s.size == MAX_CHUNK_BYTES && Accepted(p, s, ps)
    ensures var ds := DigestsOf(SealChunks(p, s, ps));
            StreamReference(p, Stream(s, ds)) == if |ps| == ChunkCount(s) then Some(MakeReference(p, s, ds)) else None
  {
    SealValid(p, s, ps);
    CountBounds(s.total, s.size);
  }

  lemma UploadCompletes(c: Config, w: World, index: Index, key: string, reply: Reply)
    requires HasState(w, key) && StateOf(w, key).prepared.Some? && key in w.compositions
    requires var tx, files := StateOf(w, key), w.dirs[key].files;
             forall i :: 0 <= i < |tx.seal.digests| ==> i in files && Sha256(files[i].ciphertext) == tx.seal.digests[i]
    ensures UploadRead(c, w, index, key, reply).outcome.Complete? <==>
            var tx := StateOf(w, key);
            tx.uploaded < |tx.seal.digests| && reply.Acknowledged? && VerifiedAck(c, tx.prepared.value.upload, reply.ack)
  {
  }

  lemma ComposeCompletes(c: Config, w: World, index: Index, key: string, now: nat, reply: Reply)
    requires HasState(w, key) && StateOf(w, key).prepared.Some?
    requires key in w.compositions ==> Linked(w.dirs[key], w.compositions[key])
    requires var tx, files := StateOf(w, key), w.dirs[key].files;
             forall i :: 0 <= i < |tx.seal.digests| ==> i in files && Sha256(files[i].ciphertext) == tx.seal.digests[i]
    ensures ComposeRead(c, w, index, key, now, reply).outcome.Complete? <==>
            var tx := StateOf(w, key);
            && now < tx.expires && (key in w.compositions ==> w.compositions[key].event.Artifact?)
            && tx.uploaded < |tx.seal.digests| && reply.Acknowledged? && VerifiedAck(c, tx.prepared.value.upload, reply.ack)
  {
    var tx := StateOf(w, key);
    if key in w.compositions {
      UploadCompletes(c, w, index, key, reply);
    } else {
      UploadCompletes(c, w.(compositions := w.compositions[key := Composition(tx.intent, EventFor(tx, now))]), index, key, reply);
    }
  }

  lemma MatchedFiles(p: Primitives, tx: Transaction, files: map<nat, Record>, ps: seq<Bytes>)
    requires Matched(p, tx, files, ps)
    ensures forall i :: 0 <= i < |tx.seal.digests| ==> i in files && Sha256(files[i].ciphertext) == tx.seal.digests[i]
  {
    forall i | 0 <= i < |tx.seal.digests| ensures i in files && Sha256(files[i].ciphertext) == tx.seal.digests[i] {
      FileDigest(p, tx.seal.shape, ps, files, i);
    }
  }

  lemma CommitReadCompletes(p: Primitives, c: Config, w: World, index: Index, key: string, uploadKey: Bytes, fetchKey: Bytes, now: nat,
                            reply: Reply)
    requires HasState(w, key) && Matched(p, StateOf(w, key), w.dirs[key].files, PiecesOf(w, key)) && Legible(w.dirs[key])
    requires StateOf(w, key).seal.shape.size == MAX_CHUNK_BYTES && Accepted(p, StateOf(w, key).seal.shape, PiecesOf(w, key))
    requires key in w.compositions ==> Linked(w.dirs[key], w.compositions[key])
    ensures CommitRead(p, c, w, index, key, uploadKey, fetchKey, now, reply).outcome.Complete? <==>
            Completable(p, c, w, key, uploadKey, fetchKey, now, reply)
  {
    var tx, files, ps := StateOf(w, key), w.dirs[key].files, PiecesOf(w, key);
    var s := tx.seal.shape;
    ReferenceExactly(p, s, ps);
    MatchedFiles(p, tx, files, ps);
    if tx.prepared.Some? {
      ComposeCompletes(c, w, index, key, now, reply);
    } else if |ps| == ChunkCount(s) {
      var r := MakeReference(p, s, DigestsOf(SealChunks(p, s, ps)));
      ComposeCompletes(c, Saved(w, key, tx.(prepared := Some(MakePrepared(p, c, tx, r, uploadKey, fetchKey)))), index, key, now, reply);
    }
  }

  /** Commit completes exactly when the transaction is readable, unexpired and finished with its
      declared digest, its keys can be granted, the key is not composed by someone else, and the
      service acknowledged the granted lease. */
  lemma CommitCompletes(p: Primitives, c: Config, w: World, index: Index, upload: Bytes, uploadKey: Bytes, fetchKey: Bytes, now: nat, reply: Reply)
    requires Lawful(p) && Inv(p, c, w) && upload in index && HasState(w, index[upload])
    ensures CommitCall(p, c, w, index, upload, uploadKey, fetchKey, now, reply).outcome.Complete? <==>
            Completable(p, c, w, index[upload], uploadKey, fetchKey, now, reply)
  {
    var key := index[upload];
    if !Legible(w.dirs[key]) {
      ReadNone(p, c, w, key);
    } else {
      ReadWhole(p, c, w, key);
      StateOk(p, c, w, key);
      var w1 := Readback(p, c, w, key);
      CommitReadCompletes(p, c, w1, index, key, uploadKey, fetchKey, now, reply);
      SameCompletable(p, c, w, w1, key, uploadKey, fetchKey, now, reply);
    }
  }

  /** Adopting an orphan chunk does not change what Commit depends on. */
  lemma SameCompletable(p: Primitives, c: Config, w: World, v: World, key: string, uploadKey: Bytes, fetchKey: Bytes, now: nat, reply: Reply)
    requires HasState(w, key) && HasState(v, key) && v.dirs[key].torn == w.dirs[key].torn
    requires v.compositions == w.compositions && PiecesOf(v, key) == PiecesOf(w, key)
    requires var tx, was := StateOf(v, key), StateOf(w, key); tx == was.(seal := tx.seal, hash := tx.hash) && tx.seal.shape == was.seal.shape
    ensures Completable(p, c, v, key, uploadKey, fetchKey, now, reply) <==> Completable(p, c, w, key, uploadKey, fetchKey, now, reply)
  {
  }
}
