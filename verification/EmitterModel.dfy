/** The crash-safe outbound attachment transaction (pkg/attachmentops/emitter.go) over the journal
    it relies on (pkg/dispatch/dispatch.go, pkg/eventlog): what is on disk, and every single file
    step the emitter takes.  A crash may come between any two of them, and inside one. */
module EmitterModel {
  import opened Foundation
  import opened AttachmentLimits
  import opened Digests
  import opened Sealing

  /** `address` stands for conversation, room, reply, epoch, session and recipient. */
  datatype Request = Request(
    key: string,
    address: Bytes,
    filename: Bytes,
    mediaType: Bytes,
    plaintextDigest: Digest,
    plaintextBytes: Uint64)

  /** `names` stands for network, genesis, Agent and Endpoint; `locate` spells a manifest's locator
      at the configured storage origin. */
  datatype Config = Config(
    operator: Digest,
    names: Bytes,
    endpointKey: Bytes,
    storageKey: Bytes,
    locate: Digest -> Bytes,
    retention: Uint64,
    maxPlaintextBytes: nat,
    mediaTypes: set<Bytes>,
    addressed: Request -> bool)

  /** Intent digests, each naming what it commits to. */
  datatype Intent = AttachmentIntent(operator: Digest, request: Request) | OtherIntent(tag: Bytes)

  /** A marshalled SHA-256 state, naming the bytes absorbed. */
  datatype HashState = Absorbed(bytes: Bytes)

  /** One chunk file. */
  datatype Record = Record(hash: HashState, ciphertext: Bytes)

  datatype Scope = ToUpload | ToFetch

  /** A signed capability grant: who signed it, for whom, and the lease it binds. */
  datatype Authority = Authority(
    names: Bytes,
    signer: Bytes,
    storage: Bytes,
    capability: Bytes,
    scope: Scope,
    manifest: Digest,
    chunks: seq<Digest>,
    bytes: nat,
    retainUntil: nat,
    issuedAt: nat,
    expiresAt: nat)

  /** The persisted grants, each with the public half of its capability key, and the locator. */
  datatype Prepared = Prepared(
    reference: Reference,
    locator: Bytes,
    upload: Authority,
    uploadKey: Bytes,
    fetch: Authority,
    fetchKey: Bytes)

  datatype Transaction = Transaction(
    operator: Digest,
    intent: Intent,
    upload: Bytes,
    request: Request,
    created: Uint64,
    expires: Uint64,
    seal: Stream,
    hash: HashState,
    prepared: Option<Prepared>,
    uploaded: nat)

  /** A transaction directory: its state file, if written yet, and its chunk files, as far as they
      are whole.  `torn` says that a crash inside a write has left a cut file or a temporary one. */
  datatype Dir = Dir(state: Option<Transaction>, files: map<nat, Record>, torn: bool)

  const NEW_DIR := Dir(None, map[], false)

  /** What a reopen needs: a state file of a nonzero second, and nothing torn. */
  predicate Legible(dir: Dir) {
    dir.state.Some? && dir.state.value.created != 0 && !dir.torn
  }

  /** Events stand for their own identifiers. */
  datatype Event =
    | Artifact(request: Request, created: nat, expires: nat, manifest: Digest, reference: Reference, fetch: Authority)
    | OtherEvent(tag: Bytes)

  datatype Composition = Composition(intent: Intent, event: Event)

  datatype Ack = Ack(
    signer: Bytes,
    grant: Authority,
    manifest: Digest,
    chunks: seq<Digest>,
    bytes: nat,
    storedAt: nat,
    retainUntil: nat)

  /** The disk, and what a run has done so far: the plaintext pieces sealed under each key, the
      acknowledgements verified and the completions reported.  `making` is the one thing in
      memory that matters here: the Begin between its directory and its state file. */
  datatype World = World(
    dirs: map<string, Dir>,
    compositions: map<string, Composition>,
    deliveries: set<Event>,
    pieces: map<string, seq<Bytes>>,
    acks: set<Ack>,
    reported: set<(string, Event)>,
    making: Option<string>)

  const START := World(map[], map[], {}, map[], {}, {}, None)

  // -------------------------------------------------------------------- intents, headers

  function MetadataOf(r: Request, expires: Uint64): Metadata {
    Metadata(r.filename, r.mediaType, Some(r.plaintextDigest), expires)
  }

  predicate ValidRequest(p: Primitives, c: Config, r: Request) {
    && c.addressed(r)
    && ValidDigest(r.plaintextDigest)
    && 0 < r.plaintextBytes <= c.maxPlaintextBytes
    && r.plaintextBytes <= MAX_PLAINTEXT_BYTES
    && r.mediaType in c.mediaTypes
    && ValidMetadata(p, MetadataOf(r, 1))
  }

  function IntentOf(c: Config, r: Request): Intent {
    AttachmentIntent(c.operator, r)
  }

  function ShapeOf(m: Material, r: Request, expires: Uint64): Shape {
    Shape(m, MetadataOf(r, expires), r.plaintextBytes, MAX_CHUNK_BYTES)
  }

  /** What Begin writes.  The sum of time and retention wraps; Begin refuses the wrapped ones. */
  function NewTransaction(c: Config, r: Request, upload: Bytes, m: Material, now: Uint64): Transaction {
    var expires := (now + c.retention) % UINT64_LIMIT;
    Transaction(c.operator, IntentOf(c, r), upload, r, now, expires, Stream(ShapeOf(m, r, expires), []), Absorbed([]), None, 0)
  }

  predicate Beginnable(p: Primitives, c: Config, r: Request, m: Material, now: Uint64) {
    var holds := ValidRequest(p, c, r) && Usable(m) && now < (now + c.retention) % UINT64_LIMIT;
    holds
  }

  // ----------------------------------------------------------------- readTransaction

  ghost predicate ValidHeader(p: Primitives, c: Config, tx: Transaction) {
    && tx.operator == c.operator
    && tx.created != 0
    && tx.expires == tx.created + c.retention && c.retention > 0
    && ValidStream(p, tx.seal, false)
  }

  /** The adopted state when the next chunk is on file already: None is a refusal. */
  function Reconciled(tx: Transaction, files: map<nat, Record>): Option<Transaction>
    requires 0 < tx.seal.shape.size && tx.seal.shape.total <= MAX_PLAINTEXT_BYTES
  {
    var next := |tx.seal.digests|;
    if exists k :: k in files && k > next then None
    else if next !in files then Some(tx)
    else if tx.prepared.Some? then None
    else if next >= ChunkCount(tx.seal.shape) then None
    else if |files[next].ciphertext| != Wanted(tx.seal.shape, next) + TAG_BYTES then None
    else
      Some(tx.(seal := tx.seal.(digests := tx.seal.digests + [Sha256(files[next].ciphertext)]), hash := files[next].hash))
  }

  /** sameGrantLease: everything but the capability and what it is for. */
  predicate SameLease(a: Authority, b: Authority) {
    a == b.(capability := a.capability, scope := a.scope)
  }

  /** What validateGrant asks of the lease. */
  ghost predicate ValidGrantLease(a: Authority) {
    && ValidDigest(a.manifest)
    && 1 <= |a.chunks| <= MAX_CHUNKS && AllValid(a.chunks) && Distinct(a.chunks)
    && 0 < a.bytes <= MAX_PLAINTEXT_BYTES + MAX_CHUNKS * TAG_BYTES
    && 0 < a.issuedAt < a.retainUntil <= a.expiresAt <= a.issuedAt + MAX_GRANT_LIFETIME
  }

  /** The endpoint, storage and capability keys are three. */
  predicate KeysApart(c: Config, capability: Bytes) {
    c.storageKey != c.endpointKey && capability != c.storageKey && capability != c.endpointKey
  }

  /** VerifyGrant at the time of creation, with the expected scope and the capability's own key. */
  ghost predicate VerifiedGrant(c: Config, a: Authority, scope: Scope, key: Bytes, at: nat) {
    var holds :=
      && ValidGrantLease(a)
      && a.signer == c.endpointKey && a.storage == c.storageKey && KeysApart(c, a.capability)
      && a.issuedAt <= at < a.expiresAt
      && a.scope == scope && a.capability == key;
    holds
  }

  /** The prepared half of validateTransaction. */
  ghost predicate ValidPrepared(p: Primitives, c: Config, tx: Transaction) {
    tx.prepared.Some? ==>
      var pr := tx.prepared.value;
      && StreamReference(p, tx.seal) == Some(pr.reference)
      && pr.upload.manifest == ManifestDigest(p, pr.reference.manifest)
      && pr.locator == c.locate(pr.upload.manifest)
      && VerifiedGrant(c, pr.upload, ToUpload, pr.uploadKey, tx.created)
      && VerifiedGrant(c, pr.fetch, ToFetch, pr.fetchKey, tx.created)
      && SameLease(pr.upload, pr.fetch)
  }

  ghost predicate ValidTransaction(p: Primitives, c: Config, tx: Transaction, files: map<nat, Record>) {
    var n := |tx.seal.digests|;
    && ValidHeader(p, c, tx)
    && ValidRequest(p, c, tx.request) && tx.intent == IntentOf(c, tx.request)
    && tx.seal.shape.metadata.expiresAt == tx.expires
    && (forall i :: 0 <= i < n ==> i in files && Sha256(files[i].ciphertext) == tx.seal.digests[i])
    && (n > 0 ==> files[n - 1].hash == tx.hash)
    && tx.uploaded <= n && (tx.uploaded != 0 ==> tx.prepared.Some?)
    && ValidPrepared(p, c, tx)
  }

  /** What a successful read of a directory yields; it has saved the same state if it differed. */
  ghost function Read(p: Primitives, c: Config, dir: Dir): Option<Transaction> {
    if dir.state.None? || dir.torn || !ValidHeader(p, c, dir.state.value) then None
    else
      match Reconciled(dir.state.value, dir.files)
      case None => None
      case Some(tx) => if ValidTransaction(p, c, tx, dir.files) then Some(tx) else None
  }

  // -------------------------------------------------------------------- what Commit builds

  function Granted(p: Primitives, c: Config, tx: Transaction, r: Reference, scope: Scope, capability: Bytes): Authority {
    Authority(c.names, c.endpointKey, c.storageKey, capability, scope, ManifestDigest(p, r.manifest), r.manifest.chunkDigests,
              r.manifest.plaintextBytes + TAG_BYTES * |r.manifest.chunkDigests|, tx.expires, tx.created, tx.expires)
  }

  function MakePrepared(p: Primitives, c: Config, tx: Transaction, r: Reference, uploadKey: Bytes, fetchKey: Bytes): Prepared {
    Prepared(r, c.locate(ManifestDigest(p, r.manifest)), Granted(p, c, tx, r, ToUpload, uploadKey), uploadKey,
             Granted(p, c, tx, r, ToFetch, fetchKey), fetchKey)
  }

  /** The keys drawn can be granted: different from each other and from the other two, for a
      retention no longer than a grant may last. */
  predicate Grantable(c: Config, uploadKey: Bytes, fetchKey: Bytes) {
    var holds := uploadKey != fetchKey && KeysApart(c, uploadKey) && KeysApart(c, fetchKey) && c.retention <= MAX_GRANT_LIFETIME;
    holds
  }

  function EventFor(tx: Transaction, now: nat): Event
    requires tx.prepared.Some?
  {
    var pr := tx.prepared.value;
    Artifact(tx.request, now, tx.expires, pr.upload.manifest, pr.reference, pr.fetch)
  }

  /** verifyStoredAck: the acknowledgement covers exactly the granted lease. */
  predicate VerifiedAck(c: Config, a: Authority, ack: Ack) {
    && ack.signer == c.storageKey
    && ack.grant == a
    && ack.manifest == a.manifest
    && ack.bytes == a.bytes
    && ack.retainUntil == a.retainUntil
    && a.issuedAt <= ack.storedAt < a.expiresAt
    && ack.chunks == a.chunks
  }

  // ------------------------------------------------------------------------ file steps

  datatype Step =
    | MakeDir(key: string, tx: Transaction)
    | DropDir(key: string)
    | CreateState(key: string, tx: Transaction)
    | WriteChunk(key: string, piece: Bytes)
    | SaveChunk(key: string)
    | SavePrepared(key: string, uploadKey: Bytes, fetchKey: Bytes)
    | Compose(key: string, now: nat)
    | Acknowledge(key: string, ack: Ack)
    | SaveProgress(key: string)
    | Enqueue(key: string)
    | Report(key: string)
    | Substitute(key: string)
    | Discard(key: string)
    | Foreign(key: string, intent: Intent, tag: Bytes)
    | Crash
    | Tear(key: string)

  predicate HasArtifact(w: World, key: string) {
    key in w.compositions && w.compositions[key].event.Artifact?
  }

  /** The plaintext pieces sealed under a key's current transaction. */
  function PiecesOf(w: World, key: string): seq<Bytes> {
    if key in w.pieces then w.pieces[key] else []
  }

  /** The state file of a key. */
  predicate HasState(w: World, key: string) {
    key in w.dirs && w.dirs[key].state.Some?
  }

  function StateOf(w: World, key: string): Transaction
    requires HasState(w, key)
  {
    w.dirs[key].state.value
  }

  function Saved(w: World, key: string, tx: Transaction): World
    requires key in w.dirs
  {
    w.(dirs := w.dirs[key := w.dirs[key].(state := Some(tx))])
  }

  /** The transaction a call has just read under this key. */
  ghost predicate Reads(p: Primitives, c: Config, w: World, key: string) {
    HasState(w, key) && Read(p, c, w.dirs[key]) == Some(StateOf(w, key))
  }

  /** Commit goes on to upload only when the chosen composition is its own. */
  ghost predicate OwnComposition(p: Primitives, c: Config, w: World, key: string) {
    var holds :=
      && Reads(p, c, w, key) && StateOf(w, key).prepared.Some? && HasArtifact(w, key)
      && w.compositions[key].intent == StateOf(w, key).intent
      && w.compositions[key].event.manifest == StateOf(w, key).prepared.value.upload.manifest;
    holds
  }

  /** What Begin writes for one of its own requests. */
  ghost predicate Opening(p: Primitives, c: Config, key: string, tx: Transaction) {
    && tx.request.key == key
    && Beginnable(p, c, tx.request, tx.seal.shape.material, tx.created)
    && tx == NewTransaction(c, tx.request, tx.upload, tx.seal.shape.material, tx.created)
  }

  /** Begin, past LookupQueuedComposition: nothing is composed under this key by an emitter. */
  ghost predicate MakesDir(p: Primitives, c: Config, w: World, key: string, tx: Transaction, v: World) {
    var holds :=
      && Opening(p, c, key, tx) && w.making.None? && key !in w.dirs && !HasArtifact(w, key)
      && v == w.(dirs := w.dirs[key := NEW_DIR], making := Some(key));
    holds
  }

  /** The same Begin, when it could not write the state file. */
  ghost predicate DropsDir(w: World, key: string, v: World) {
    var holds :=
      && w.making == Some(key) && key in w.dirs && w.dirs[key] == NEW_DIR
      && v == w.(dirs := w.dirs - {key}, making := None);
    holds
  }

  /** The same Begin, when it could. */
  ghost predicate CreatesState(p: Primitives, c: Config, w: World, key: string, tx: Transaction, v: World) {
    var holds :=
      && w.making == Some(key) && key in w.dirs && w.dirs[key] == NEW_DIR
      && Opening(p, c, key, tx)
      && v == Saved(w, key, tx).(pieces := w.pieces[key := []], making := None);
    holds
  }

  /** The chunk file Append writes for a piece. */
  ghost function ChunkFile(p: Primitives, tx: Transaction, piece: Bytes): Record
    requires SealNext(p, tx.seal, piece).Some?
  {
    Record(Absorbed(tx.hash.bytes + piece), SealNext(p, tx.seal, piece).value.1.ciphertext)
  }

  function WithFile(w: World, key: string, n: nat, record: Record): World
    requires key in w.dirs
  {
    w.(dirs := w.dirs[key := w.dirs[key].(files := w.dirs[key].files[n := record])])
  }

  ghost predicate WritesChunk(p: Primitives, c: Config, w: World, key: string, piece: Bytes, v: World) {
    var holds :=
      && Reads(p, c, w, key) && StateOf(w, key).prepared.None?
      && SealNext(p, StateOf(w, key).seal, piece).Some?
      && var n := |StateOf(w, key).seal.digests|;
         && n !in w.dirs[key].files
         && v == WithFile(w, key, n, ChunkFile(p, StateOf(w, key), piece)).(pieces := w.pieces[key := PiecesOf(w, key) + [piece]]);
    holds
  }

  /** Append's state write, or the one of a reconciliation. */
  ghost predicate SavesChunk(p: Primitives, c: Config, w: World, key: string, v: World) {
    var holds :=
      && HasState(w, key) && !w.dirs[key].torn && ValidHeader(p, c, StateOf(w, key))
      && var got := Reconciled(StateOf(w, key), w.dirs[key].files);
         got.Some? && v == Saved(w, key, got.value);
    holds
  }

  ghost predicate SavesPrepared(p: Primitives, c: Config, w: World, key: string, uploadKey: Bytes, fetchKey: Bytes, v: World) {
    var holds :=
      && Reads(p, c, w, key) && Grantable(c, uploadKey, fetchKey)
      && var tx := StateOf(w, key);
         && tx.prepared.None? && StreamReference(p, tx.seal).Some?
         && Sha256(tx.hash.bytes) == tx.request.plaintextDigest
         && v == Saved(w, key, tx.(prepared := Some(MakePrepared(p, c, tx, StreamReference(p, tx.seal).value, uploadKey, fetchKey))));
    holds
  }

  ghost predicate Composes(p: Primitives, c: Config, w: World, key: string, now: nat, v: World) {
    var holds :=
      && Reads(p, c, w, key) && StateOf(w, key).prepared.Some? && key !in w.compositions
      && now < StateOf(w, key).expires
      && v == w.(compositions := w.compositions[key := Composition(StateOf(w, key).intent, EventFor(StateOf(w, key), now))]);
    holds
  }

  ghost predicate Acknowledges(p: Primitives, c: Config, w: World, key: string, ack: Ack, v: World) {
    var holds :=
      && OwnComposition(p, c, w, key)
      && VerifiedAck(c, StateOf(w, key).prepared.value.upload, ack)
      && v == w.(acks := w.acks + {ack});
    holds
  }

  ghost predicate SavesProgress(p: Primitives, c: Config, w: World, key: string, v: World) {
    var holds :=
      && OwnComposition(p, c, w, key) && StateOf(w, key).uploaded + 1 < |StateOf(w, key).seal.digests|
      && v == Saved(w, key, StateOf(w, key).(uploaded := StateOf(w, key).uploaded + 1));
    holds
  }

  ghost predicate Enqueues(p: Primitives, c: Config, w: World, key: string, v: World) {
    var holds :=
      && OwnComposition(p, c, w, key)
      && (exists ack :: ack in w.acks && VerifiedAck(c, StateOf(w, key).prepared.value.upload, ack))
      && v == w.(deliveries := w.deliveries + {w.compositions[key].event});
    holds
  }

  /** The end of Commit, or Begin finding the composition and its delivery. */
  ghost predicate Reports(w: World, key: string, v: World) {
    var holds :=
      && HasArtifact(w, key) && w.compositions[key].event in w.deliveries
      && v == w.(reported := w.reported + {(key, w.compositions[key].event)});
    holds
  }

  /** Commit meets another composition under its intent: it discards and reports that one. */
  ghost predicate Substitutes(p: Primitives, c: Config, w: World, key: string, v: World) {
    var holds :=
      && Reads(p, c, w, key) && StateOf(w, key).prepared.Some? && HasArtifact(w, key)
      && w.compositions[key].intent == StateOf(w, key).intent
      && w.compositions[key].event.manifest != StateOf(w, key).prepared.value.upload.manifest
      && v == w.(dirs := w.dirs - {key}, reported := w.reported + {(key, w.compositions[key].event)});
    holds
  }

  /** A call gives up or finishes the transaction it has read. */
  ghost predicate Discards(p: Primitives, c: Config, w: World, key: string, v: World) {
    var holds :=
      Reads(p, c, w, key) && v == w.(dirs := w.dirs - {key});
    holds
  }

  /** Another writer of the journal; it never composes an attachment Event. */
  ghost predicate WritesForeign(w: World, key: string, intent: Intent, tag: Bytes, v: World) {
    var holds :=
      v == w.(compositions := if key in w.compositions then w.compositions else w.compositions[key := Composition(intent, OtherEvent(tag))],
              deliveries := w.deliveries + {OtherEvent(tag)});
    holds
  }

  /** A crash inside a write into a transaction's directory. */
  ghost predicate Tears(w: World, key: string, v: World) {
    var holds :=
      key in w.dirs && v == w.(dirs := w.dirs[key := w.dirs[key].(torn := true)], making := None);
    holds
  }

  ghost predicate Takes(p: Primitives, c: Config, w: World, step: Step, v: World) {
    var holds :=
      match step
      case MakeDir(key, tx) => MakesDir(p, c, w, key, tx, v)
      case DropDir(key) => DropsDir(w, key, v)
      case CreateState(key, tx) => CreatesState(p, c, w, key, tx, v)
      case WriteChunk(key, piece) => WritesChunk(p, c, w, key, piece, v)
      case SaveChunk(key) => SavesChunk(p, c, w, key, v)
      case SavePrepared(key, uploadKey, fetchKey) => SavesPrepared(p, c, w, key, uploadKey, fetchKey, v)
      case Compose(key, now) => Composes(p, c, w, key, now, v)
      case Acknowledge(key, ack) => Acknowledges(p, c, w, key, ack, v)
      case SaveProgress(key) => SavesProgress(p, c, w, key, v)
      case Enqueue(key) => Enqueues(p, c, w, key, v)
      case Report(key) => Reports(w, key, v)
      case Substitute(key) => Substitutes(p, c, w, key, v)
      case Discard(key) => Discards(p, c, w, key, v)
      case Foreign(key, intent, tag) => WritesForeign(w, key, intent, tag, v)
      case Crash => v == w.(making := None)
      case Tear(key) => Tears(w, key, v);
    holds
  }

  // ------------------------------------------------------------------------------ runs

  ghost predicate IsRun(p: Primitives, c: Config, ws: seq<World>, steps: seq<Step>) {
    && |ws| == |steps| + 1
    && ws[0] == START
    && forall i :: 0 <= i < |steps| ==> Takes(p, c, ws[i], steps[i], ws[i + 1])
  }
}
