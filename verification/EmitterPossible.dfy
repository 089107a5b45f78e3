/** What runs can reach: every beginnable request, of any number of chunks, has a run that takes it
    from Begin through every upload to a queued and reported Event, so the safety theorems are not
    about idle runs; and the directories and keys that nothing repairs do occur. */
module EmitterPossible {
  import opened Foundation
  import opened AttachmentLimits
  import opened Digests
  import opened StoreModel
  import opened Sealing
  import opened SealingLaws
  import opened EmitterModel
  import opened EmitterInvariant
  import opened EmitterRuns
  import opened EmitterCalls

  /** `w` can be reached, and satisfies the invariant. */
  ghost predicate Reachable(p: Primitives, c: Config, w: World) {
    var holds := Inv(p, c, w) && exists ws, steps :: IsRun(p, c, ws, steps) && ws[|ws| - 1] == w;
    holds
  }

  lemma Starts(p: Primitives, c: Config)
    ensures Reachable(p, c, START)
  {
    assert IsRun(p, c, [START], []);
  }

  lemma Extends(p: Primitives, c: Config, w: World, step: Step, v: World)
    requires Lawful(p) && Reachable(p, c, w) && Takes(p, c, w, step, v)
    ensures Reachable(p, c, v)
  {
    StepKeeps(p, c, w, step, v);
    var ws, steps :| IsRun(p, c, ws, steps) && ws[|ws| - 1] == w;
    RunExtends(p, c, ws, steps, step, v);
    assert (ws + [v])[|ws|] == v;
  }

  /** Some run passes through `v` and ends in `w`. */
  ghost predicate Via(p: Primitives, c: Config, v: World, w: World) {
    exists ws, steps, i :: Passes(p, c, ws, steps, i, v, w)
  }

  ghost predicate Passes(p: Primitives, c: Config, ws: seq<World>, steps: seq<Step>, i: nat, v: World, w: World) {
    var holds := IsRun(p, c, ws, steps) && i < |ws| && ws[i] == v && ws[|ws| - 1] == w;
    holds
  }

  lemma PassesStep(p: Primitives, c: Config, ws: seq<World>, steps: seq<Step>, i: nat, v: World, w: World, step: Step, u: World)
    requires Passes(p, c, ws, steps, i, v, w) && Takes(p, c, w, step, u)
    ensures Passes(p, c, ws + [u], steps + [step], i, v, u)
  {
    RunExtends(p, c, ws, steps, step, u);
    assert (ws + [u])[i] == v && (ws + [u])[|ws|] == u;
  }

  lemma ViaSelf(p: Primitives, c: Config, w: World)
    requires Reachable(p, c, w)
    ensures Via(p, c, w, w)
  {
    var ws, steps :| IsRun(p, c, ws, steps) && ws[|ws| - 1] == w;
    assert Passes(p, c, ws, steps, |ws| - 1, w, w);
  }

  lemma ViaStep(p: Primitives, c: Config, v: World, w: World, step: Step, u: World)
    requires Via(p, c, v, w) && Takes(p, c, w, step, u)
    ensures Via(p, c, v, u)
  {
    var ws, steps, i :| Passes(p, c, ws, steps, i, v, w);
    PassesStep(p, c, ws, steps, i, v, w, step, u);
  }

  /** A state that stands for all its pieces reads back as itself. */
  lemma Readable(p: Primitives, c: Config, w: World, key: string)
    requires Lawful(p) && Inv(p, c, w) && HasState(w, key) && Legible(w.dirs[key])
    requires |StateOf(w, key).seal.digests| == |PiecesOf(w, key)|
    ensures Reads(p, c, w, key)
  {
    StateOk(p, c, w, key);
    NoOrphan(p, c, key, StateOf(w, key), w.dirs[key].files, PiecesOf(w, key));
    ReadsReconciled(p, c, key, w.dirs[key], PiecesOf(w, key));
  }

  // ------------------------------------------------------------------------ Begin and Append

  /** Begin: the directory, then its state. */
  lemma CanBegin(p: Primitives, c: Config, tx: Transaction) returns (w: World)
    requires Lawful(p) && Opening(p, c, tx.request.key, tx)
    ensures Reachable(p, c, w) && w.compositions == map[] && HasState(w, tx.request.key) && !w.dirs[tx.request.key].torn
    ensures PiecesOf(w, tx.request.key) == [] && StateOf(w, tx.request.key) == tx
  {
    var key := tx.request.key;
    Starts(p, c);
    var w1 := START.(dirs := START.dirs[key := NEW_DIR], making := Some(key));
    Extends(p, c, START, MakeDir(key, tx), w1);
    w := Saved(w1, key, tx).(pieces := w1.pieces[key := []], making := None);
    Extends(p, c, w1, CreateState(key, tx), w);
  }

  lemma WriteEnabled(p: Primitives, c: Config, v: World, key: string, piece: Bytes) returns (mid: World, w: World)
    requires Lawful(p) && Inv(p, c, v) && Reads(p, c, v, key) && StateOf(v, key).prepared.None?
    requires SealNext(p, StateOf(v, key).seal, piece).Some?
    ensures Takes(p, c, v, WriteChunk(key, piece), mid) && Takes(p, c, mid, SaveChunk(key), w)
    ensures w.compositions == v.compositions && HasState(w, key) && w.dirs[key].torn == v.dirs[key].torn
    ensures PiecesOf(w, key) == PiecesOf(v, key) + [piece]
    ensures var tx := StateOf(v, key);
            StateOf(w, key) == tx.(seal := SealNext(p, tx.seal, piece).value.0, hash := Absorbed(tx.hash.bytes + piece))
  {
    StateOk(p, c, v, key);
    var tx, ps := StateOf(v, key), PiecesOf(v, key);
    ReadsWhole(p, c, key, v.dirs[key], ps);
    AppendSaves(p, c, key, v.dirs[key], ps, piece);
    mid := WithFile(v, key, |tx.seal.digests|, ChunkFile(p, tx, piece)).(pieces := v.pieces[key := ps + [piece]]);
    w := Saved(mid, key, tx.(seal := SealNext(p, tx.seal, piece).value.0, hash := Absorbed(tx.hash.bytes + piece)));
    assert WritesChunk(p, c, v, key, piece, mid);
    assert SavesChunk(p, c, mid, key, w);
  }

  lemma CanAppend(p: Primitives, c: Config, v: World, key: string, piece: Bytes) returns (w: World)
    requires Lawful(p) && Reachable(p, c, v) && HasState(v, key) && Legible(v.dirs[key]) && StateOf(v, key).prepared.None?
    requires |StateOf(v, key).seal.digests| == |PiecesOf(v, key)| && SealNext(p, StateOf(v, key).seal, piece).Some?
    ensures Reachable(p, c, w) && w.compositions == v.compositions && HasState(w, key) && !w.dirs[key].torn
    ensures PiecesOf(w, key) == PiecesOf(v, key) + [piece]
    ensures var tx := StateOf(v, key);
            StateOf(w, key) == tx.(seal := SealNext(p, tx.seal, piece).value.0, hash := Absorbed(tx.hash.bytes + piece))
  {
    Readable(p, c, v, key);
    var mid: World;
    mid, w := WriteEnabled(p, c, v, key, piece);
    Extends(p, c, v, WriteChunk(key, piece), mid);
    Extends(p, c, mid, SaveChunk(key), w);
  }

  lemma FeedNext(p: Primitives, s: Shape, pieces: seq<Bytes>, n: nat)
    requires ValidShape(p, s) && Accepted(p, s, pieces) && n < |pieces|
    ensures Accepted(p, s, pieces[..n])
    ensures SealNext(p, Stream(s, DigestsOf(SealChunks(p, s, pieces[..n]))), pieces[n]).Some?
    ensures SealNext(p, Stream(s, DigestsOf(SealChunks(p, s, pieces[..n]))), pieces[n]).value.0
         == Stream(s, DigestsOf(SealChunks(p, s, pieces[..n + 1])))
  {
    PrefixAccepted(p, s, pieces, n);
    PrefixAccepted(p, s, pieces, n + 1);
    assert pieces[..n + 1][..n] == pieces[..n];
    FeedExact(p, s, pieces[..n]);
    FeedExact(p, s, pieces[..n + 1]);
  }

  lemma PrefixAccepted(p: Primitives, s: Shape, pieces: seq<Bytes>, n: nat)
    requires ValidShape(p, s) && Accepted(p, s, pieces) && n <= |pieces|
    ensures Accepted(p, s, pieces[..n])
  {
    var ds := DigestsOf(SealChunks(p, s, pieces));
    assert DigestsOf(SealChunks(p, s, pieces[..n])) == ds[..n];
    DistinctSlice(ds, 0, n);
  }

  /** The transaction has been fed the first n pieces. */
  ghost predicate FedTo(p: Primitives, w: World, key: string, tx: Transaction, pieces: seq<Bytes>, n: nat)
    requires n <= |pieces|
  {
    var s := tx.seal.shape;
    var holds :=
      && HasState(w, key) && !w.dirs[key].torn && PiecesOf(w, key) == pieces[..n]
      && ValidShape(p, s) && n <= ChunkCount(s)
      && StateOf(w, key) == tx.(seal := Stream(s, DigestsOf(SealChunks(p, s, pieces[..n]))), hash := Absorbed(Concat(pieces[..n])));
    holds
  }

  lemma FedOneMore(p: Primitives, v: World, w: World, key: string, tx: Transaction, pieces: seq<Bytes>, n: nat)
    requires n < |pieces| && FedTo(p, v, key, tx, pieces, n) && Accepted(p, tx.seal.shape, pieces)
    requires SealNext(p, StateOf(v, key).seal, pieces[n]).Some?
    requires SealNext(p, StateOf(v, key).seal, pieces[n]).value.0 == Stream(tx.seal.shape, DigestsOf(SealChunks(p, tx.seal.shape, pieces[..n + 1])))
    requires HasState(w, key) && !w.dirs[key].torn && PiecesOf(w, key) == PiecesOf(v, key) + [pieces[n]]
    requires var now := StateOf(v, key);
             StateOf(w, key) == now.(seal := SealNext(p, now.seal, pieces[n]).value.0, hash := Absorbed(now.hash.bytes + pieces[n]))
    ensures FedTo(p, w, key, tx, pieces, n + 1)
  {
    assert pieces[..n + 1] == pieces[..n] + [pieces[n]];
    assert pieces[..n + 1][..n] == pieces[..n];
  }

  /** Append after Append, through the first n pieces. */
  lemma {:induction false} CanFeed(p: Primitives, c: Config, v: World, key: string, pieces: seq<Bytes>, n: nat) returns (w: World)
    requires Lawful(p) && Reachable(p, c, v) && HasState(v, key) && n <= |pieces|
    requires StateOf(v, key).created != 0 && StateOf(v, key).prepared.None?
    requires FedTo(p, v, key, StateOf(v, key), pieces, 0) && Accepted(p, StateOf(v, key).seal.shape, pieces)
    ensures Reachable(p, c, w) && w.compositions == v.compositions && FedTo(p, w, key, StateOf(v, key), pieces, n)
    decreases n
  {
    if n == 0 {
      w := v;
    } else {
      var mid := CanFeed(p, c, v, key, pieces, n - 1);
      FeedNext(p, StateOf(v, key).seal.shape, pieces, n - 1);
      w := CanAppend(p, c, mid, key, pieces[n - 1]);
      FedOneMore(p, mid, w, key, StateOf(v, key), pieces, n - 1);
    }
  }

  /** Commit's first half: prepare. */
  lemma CanPrepare(p: Primitives, c: Config, v: World, key: string, uploadKey: Bytes, fetchKey: Bytes) returns (w: World)
    requires Lawful(p) && Reachable(p, c, v) && HasState(v, key) && Grantable(c, uploadKey, fetchKey)
    requires Legible(v.dirs[key]) && StateOf(v, key).prepared.None?
    requires |StateOf(v, key).seal.digests| == |PiecesOf(v, key)| && StreamReference(p, StateOf(v, key).seal).Some?
    requires Sha256(StateOf(v, key).hash.bytes) == StateOf(v, key).request.plaintextDigest
    ensures Reachable(p, c, w) && w.compositions == v.compositions
    ensures Reads(p, c, w, key) && StateOf(w, key).prepared.Some? && StateOf(w, key).request == StateOf(v, key).request
    ensures StateOf(w, key).uploaded == StateOf(v, key).uploaded && StateOf(w, key).seal == StateOf(v, key).seal
  {
    Readable(p, c, v, key);
    var tx := StateOf(v, key);
    w := Saved(v, key, tx.(prepared := Some(MakePrepared(p, c, tx, StreamReference(p, tx.seal).value, uploadKey, fetchKey))));
    assert SavesPrepared(p, c, v, key, uploadKey, fetchKey, w);
    Extends(p, c, v, SavePrepared(key, uploadKey, fetchKey), w);
    Readable(p, c, w, key);
  }

  lemma Unexpired(p: Primitives, c: Config, w: World, key: string)
    requires Inv(p, c, w) && HasState(w, key)
    ensures StateOf(w, key).created < StateOf(w, key).expires
    ensures StateOf(w, key).prepared.Some? ==>
              var a := StateOf(w, key).prepared.value.upload; VerifiedAck(c, a, HonestAck(c, a))
  {
    StateOk(p, c, w, key);
  }

  /** What the storage service signs when it stores the granted lease at once. */
  function HonestAck(c: Config, a: Authority): Ack {
    Ack(c.storageKey, a, a.manifest, a.chunks, a.bytes, a.issuedAt, a.retainUntil)
  }

  lemma ComposeEnabled(p: Primitives, c: Config, v: World, key: string) returns (w: World)
    requires Reads(p, c, v, key) && StateOf(v, key).prepared.Some? && key !in v.compositions
    requires StateOf(v, key).created < StateOf(v, key).expires
    ensures Takes(p, c, v, Compose(key, StateOf(v, key).created), w) && OwnComposition(p, c, w, key)
    ensures w.compositions[key].event.request == StateOf(v, key).request && w.deliveries == v.deliveries
    ensures StateOf(w, key) == StateOf(v, key)
  {
    var tx := StateOf(v, key);
    w := v.(compositions := v.compositions[key := Composition(tx.intent, EventFor(tx, tx.created))]);
  }

  /** A queued attachment Event is composed under its own key. */
  lemma NotQueued(p: Primitives, c: Config, w: World, e: Event)
    requires Inv(p, c, w) && e.Artifact? && e.request.key !in w.compositions
    ensures e !in w.deliveries
  {
    assert e in w.deliveries ==> QueuedOk(c, w, e);
  }

  lemma CanCompose(p: Primitives, c: Config, v: World, key: string) returns (w: World)
    requires Lawful(p) && Reachable(p, c, v) && key !in v.compositions
    requires Reads(p, c, v, key) && StateOf(v, key).prepared.Some? && StateOf(v, key).request.key == key
    ensures Reachable(p, c, w) && OwnComposition(p, c, w, key) && StateOf(w, key) == StateOf(v, key)
    ensures w.compositions[key].event.request == StateOf(v, key).request && w.compositions[key].event !in w.deliveries
  {
    Unexpired(p, c, v, key);
    w := ComposeEnabled(p, c, v, key);
    Extends(p, c, v, Compose(key, StateOf(v, key).created), w);
    NotQueued(p, c, v, w.compositions[key].event);
  }

  // ------------------------------------------------------------- uploading chunk by chunk

  /** The composed transaction has recorded n of its chunks as uploaded. */
  ghost predicate Progressed(p: Primitives, c: Config, w: World, key: string, n: nat, total: nat) {
    var holds := OwnComposition(p, c, w, key) && StateOf(w, key).uploaded == n && |StateOf(w, key).seal.digests| == total;
    holds
  }

  lemma ProgressSaved(p: Primitives, c: Config, v: World, key: string) returns (w: World)
    requires Lawful(p) && Reachable(p, c, v) && OwnComposition(p, c, v, key)
    requires StateOf(v, key).uploaded + 1 < |StateOf(v, key).seal.digests|
    ensures Reachable(p, c, w) && w.compositions == v.compositions && HasState(w, key)
    ensures StateOf(w, key) == StateOf(v, key).(uploaded := StateOf(v, key).uploaded + 1)
    ensures w.dirs[key].torn == v.dirs[key].torn && PiecesOf(w, key) == PiecesOf(v, key)
  {
    w := Saved(v, key, StateOf(v, key).(uploaded := StateOf(v, key).uploaded + 1));
    assert SavesProgress(p, c, v, key, w);
    Extends(p, c, v, SaveProgress(key), w);
  }

  lemma PreparedWhole(p: Primitives, c: Config, w: World, key: string)
    requires Inv(p, c, w) && HasState(w, key) && StateOf(w, key).prepared.Some?
    ensures |StateOf(w, key).seal.digests| == |PiecesOf(w, key)| > 0
  {
    StateOk(p, c, w, key);
    OkShape(p, c, key, StateOf(w, key), w.dirs[key].files, PiecesOf(w, key));
    CountBounds(StateOf(w, key).seal.shape.total, StateOf(w, key).seal.shape.size);
  }

  lemma ReadsLegible(p: Primitives, c: Config, w: World, key: string)
    requires Reads(p, c, w, key)
    ensures Legible(w.dirs[key])
  {
  }

  /** A reachable world, composed as `start` was, with n chunks recorded. */
  ghost predicate Uploading(p: Primitives, c: Config, start: World, w: World, key: string, n: nat, total: nat) {
    var holds := Lawful(p) && Reachable(p, c, w) && Progressed(p, c, w, key, n, total) && w.compositions == start.compositions;
    holds
  }

  lemma CanProgress(p: Primitives, c: Config, start: World, v: World, key: string, n: nat, total: nat) returns (w: World)
    requires Uploading(p, c, start, v, key, n, total) && n + 1 < total
    ensures Uploading(p, c, start, w, key, n + 1, total)
  {
    w := ProgressSaved(p, c, v, key);
    PreparedWhole(p, c, v, key);
    ReadsLegible(p, c, v, key);
    Readable(p, c, w, key);
  }

  /** One Commit after the other, each uploading one chunk, up to the last. */
  lemma {:induction false} CanUpload(p: Primitives, c: Config, start: World, key: string, n: nat, total: nat) returns (w: World)
    requires Uploading(p, c, start, start, key, 0, total) && n < total
    ensures Uploading(p, c, start, w, key, n, total)
    decreases n
  {
    w := start;
    if n > 0 {
      w := CanUpload(p, c, start, key, n - 1, total);
      w := CanProgress(p, c, start, w, key, n - 1, total);
    }
  }

  // -------------------------------------------------------------------- the last upload

  /** Every chunk but the last is recorded as uploaded. */
  ghost predicate LastUpload(p: Primitives, c: Config, w: World, key: string) {
    OwnComposition(p, c, w, key) && StateOf(w, key).uploaded + 1 == |StateOf(w, key).seal.digests|
  }

  lemma AcknowledgeEnabled(p: Primitives, c: Config, v: World, key: string, ack: Ack) returns (w: World)
    requires OwnComposition(p, c, v, key) && VerifiedAck(c, StateOf(v, key).prepared.value.upload, ack)
    ensures Takes(p, c, v, Acknowledge(key, ack), w) && OwnComposition(p, c, w, key) && w.compositions == v.compositions
    ensures ack in w.acks && VerifiedAck(c, StateOf(w, key).prepared.value.upload, ack)
  {
    w := v.(acks := v.acks + {ack});
  }

  lemma EnqueueEnabled(p: Primitives, c: Config, v: World, key: string, ack: Ack) returns (w: World)
    requires OwnComposition(p, c, v, key) && ack in v.acks && VerifiedAck(c, StateOf(v, key).prepared.value.upload, ack)
    ensures Takes(p, c, v, Enqueue(key), w) && OwnComposition(p, c, w, key) && w.compositions == v.compositions
    ensures w.compositions[key].event in w.deliveries
  {
    w := v.(deliveries := v.deliveries + {v.compositions[key].event});
  }

  lemma DiscardEnabled(p: Primitives, c: Config, v: World, key: string) returns (w: World)
    requires OwnComposition(p, c, v, key)
    ensures Takes(p, c, v, Discard(key), w) && w == v.(dirs := v.dirs - {key})
  {
    w := v.(dirs := v.dirs - {key});
  }

  lemma ReportEnabled(p: Primitives, c: Config, v: World, key: string) returns (w: World)
    requires HasArtifact(v, key) && v.compositions[key].event in v.deliveries
    ensures Takes(p, c, v, Report(key), w) && w == v.(reported := v.reported + {(key, v.compositions[key].event)})
  {
    w := v.(reported := v.reported + {(key, v.compositions[key].event)});
  }

  /** Some run records every upload but the last, and then queues an Event of this request, discards
      the transaction and reports completion. */
  ghost predicate Emitted(p: Primitives, c: Config, r: Request) {
    exists v, w, e :: Via(p, c, v, w) && LastUpload(p, c, v, r.key) && Finished(w, r, e)
  }

  ghost predicate Finished(w: World, r: Request, e: Event) {
    e.Artifact? && e.request == r && e in w.deliveries && (r.key, e) in w.reported && r.key !in w.dirs
  }

  /** The last upload is acknowledged, and the Event queued. */
  lemma CanQueue(p: Primitives, c: Config, v: World, key: string) returns (w: World)
    requires Reachable(p, c, v) && OwnComposition(p, c, v, key)
    ensures Via(p, c, v, w) && OwnComposition(p, c, w, key) && w.compositions == v.compositions
    ensures w.compositions[key].event in w.deliveries
  {
    Unexpired(p, c, v, key);
    ViaSelf(p, c, v);
    var ack := HonestAck(c, StateOf(v, key).prepared.value.upload);
    var mid := AcknowledgeEnabled(p, c, v, key, ack);
    ViaStep(p, c, v, v, Acknowledge(key, ack), mid);
    w := EnqueueEnabled(p, c, mid, key, ack);
    ViaStep(p, c, v, mid, Enqueue(key), w);
  }

  /** Then the transaction is discarded and completion reported. */
  lemma CanReport(p: Primitives, c: Config, v: World, mid: World, r: Request) returns (w: World)
    requires Via(p, c, v, mid) && OwnComposition(p, c, mid, r.key)
    requires mid.compositions[r.key].event in mid.deliveries && mid.compositions[r.key].event.request == r
    ensures Via(p, c, v, w) && Finished(w, r, mid.compositions[r.key].event)
  {
    var gone := DiscardEnabled(p, c, mid, r.key);
    ViaStep(p, c, v, mid, Discard(r.key), gone);
    w := ReportEnabled(p, c, gone, r.key);
    ViaStep(p, c, v, gone, Report(r.key), w);
  }

  lemma CanFinish(p: Primitives, c: Config, v: World, r: Request)
    requires Reachable(p, c, v) && LastUpload(p, c, v, r.key) && v.compositions[r.key].event.request == r
    ensures Emitted(p, c, r)
  {
    var mid := CanQueue(p, c, v, r.key);
    var w := CanReport(p, c, v, mid, r);
  }

  /** The transaction Begin writes for its own request. */
  ghost predicate Fresh(p: Primitives, c: Config, tx: Transaction) {
    var m := tx.seal.shape.material;
    var holds :=
      && Beginnable(p, c, tx.request, m, tx.created) && tx.created != 0 && ValidShape(p, tx.seal.shape)
      && tx == NewTransaction(c, tx.request, tx.upload, m, tx.created);
    holds
  }

  lemma BeginsFresh(p: Primitives, c: Config, r: Request, m: Material, upload: Bytes, now: Uint64)
    requires Beginnable(p, c, r, m, now) && now != 0 && ValidShape(p, ShapeOf(m, r, (now + c.retention) % UINT64_LIMIT))
    ensures Fresh(p, c, NewTransaction(c, r, upload, m, now))
  {
    assert NewTransaction(c, r, upload, m, now).seal.shape.material == m;
  }

  /** Every transaction Begin writes, fed accepted pieces with its declared digest, has such a run. */
  lemma EmissionHappens(p: Primitives, c: Config, tx: Transaction, pieces: seq<Bytes>, uploadKey: Bytes, fetchKey: Bytes)
    requires Lawful(p) && Grantable(c, uploadKey, fetchKey) && Fresh(p, c, tx)
    requires Accepted(p, tx.seal.shape, pieces) && |pieces| == ChunkCount(tx.seal.shape)
    requires Sha256(Concat(pieces)) == tx.request.plaintextDigest
    ensures Emitted(p, c, tx.request)
  {
    var w := CanComposeNew(p, c, tx, pieces, uploadKey, fetchKey);
    CountBounds(tx.seal.shape.total, tx.seal.shape.size);
    ComposedEmits(p, c, w, tx.request, |pieces| - 1);
  }

  lemma CanComposeNew(p: Primitives, c: Config, tx: Transaction, pieces: seq<Bytes>, uploadKey: Bytes, fetchKey: Bytes) returns (w: World)
    requires Lawful(p) && Grantable(c, uploadKey, fetchKey) && Fresh(p, c, tx)
    requires Accepted(p, tx.seal.shape, pieces) && |pieces| == ChunkCount(tx.seal.shape)
    requires Sha256(Concat(pieces)) == tx.request.plaintextDigest
    ensures Composed(p, c, w, tx.request, |pieces|)
  {
    var v := CanSeal(p, c, tx, pieces);
    w := SealedComposes(p, c, v, tx, pieces, uploadKey, fetchKey);
  }

  /** A composed transaction can be uploaded chunk by chunk and finished. */
  lemma ComposedEmits(p: Primitives, c: Config, v: World, r: Request, n: nat)
    requires Lawful(p) && Reachable(p, c, v) && Progressed(p, c, v, r.key, 0, n + 1) && v.compositions[r.key].event.request == r
    ensures Emitted(p, c, r)
  {
    var w := CanUpload(p, c, v, r.key, n, n + 1);
    CanFinish(p, c, w, r);
  }

  lemma SealedComposes(p: Primitives, c: Config, v: World, tx: Transaction, pieces: seq<Bytes>, uploadKey: Bytes, fetchKey: Bytes)
    returns (w: World)
    requires Lawful(p) && Reachable(p, c, v) && v.compositions == map[] && Grantable(c, uploadKey, fetchKey)
    requires FedTo(p, v, tx.request.key, tx, pieces, |pieces|) && Accepted(p, tx.seal.shape, pieces)
    requires tx.seal.shape.size == MAX_CHUNK_BYTES && |pieces| == ChunkCount(tx.seal.shape)
    requires Sha256(Concat(pieces)) == tx.request.plaintextDigest && tx.created != 0 && tx.prepared.None? && tx.uploaded == 0
    ensures Composed(p, c, w, tx.request, |pieces|)
  {
    FedReady(p, v, tx.request.key, tx, pieces);
    w := CanCommit(p, c, v, tx.request.key, uploadKey, fetchKey, |pieces|);
  }

  /** The request is composed, and not yet queued or uploaded. */
  ghost predicate Composed(p: Primitives, c: Config, w: World, r: Request, total: nat) {
    var holds :=
      && Reachable(p, c, w) && Progressed(p, c, w, r.key, 0, total)
      && w.compositions[r.key].event.request == r && w.compositions[r.key].event !in w.deliveries;
    holds
  }

  lemma FedNone(p: Primitives, w: World, key: string, tx: Transaction, pieces: seq<Bytes>)
    requires HasState(w, key) && !w.dirs[key].torn && StateOf(w, key) == tx && PiecesOf(w, key) == [] && ValidShape(p, tx.seal.shape)
    requires tx.seal == Stream(tx.seal.shape, []) && tx.hash == Absorbed([])
    ensures FedTo(p, w, key, tx, pieces, 0)
  {
    assert pieces[..0] == [] && DigestsOf(SealChunks(p, tx.seal.shape, [])) == [];
  }

  lemma CanSeal(p: Primitives, c: Config, tx: Transaction, pieces: seq<Bytes>) returns (w: World)
    requires Lawful(p) && Fresh(p, c, tx) && Accepted(p, tx.seal.shape, pieces)
    ensures Reachable(p, c, w) && w.compositions == map[] && FedTo(p, w, tx.request.key, tx, pieces, |pieces|)
  {
    var v := CanBegin(p, c, tx);
    FedNone(p, v, tx.request.key, tx, pieces);
    w := CanFeed(p, c, v, tx.request.key, pieces, |pieces|);
  }

  lemma FedReady(p: Primitives, w: World, key: string, tx: Transaction, pieces: seq<Bytes>)
    requires FedTo(p, w, key, tx, pieces, |pieces|) && Accepted(p, tx.seal.shape, pieces)
    requires tx.seal.shape.size == MAX_CHUNK_BYTES && |pieces| == ChunkCount(tx.seal.shape)
    requires Sha256(Concat(pieces)) == tx.request.plaintextDigest
    requires tx.created != 0 && tx.prepared.None? && tx.uploaded == 0 && tx.request.key == key
    ensures Committable(p, w, key, tx.request, |pieces|)
  {
    TakeAll(pieces);
    ReferenceExactly(p, tx.seal.shape, pieces);
  }

  /** The transaction is finished, unprepared and of this request. */
  ghost predicate Committable(p: Primitives, w: World, key: string, r: Request, total: nat) {
    var holds :=
      && HasState(w, key) && StateOf(w, key).request == r && r.key == key
      && Legible(w.dirs[key]) && StateOf(w, key).prepared.None? && StateOf(w, key).uploaded == 0
      && |StateOf(w, key).seal.digests| == |PiecesOf(w, key)| == total && StreamReference(p, StateOf(w, key).seal).Some?
      && Sha256(StateOf(w, key).hash.bytes) == r.plaintextDigest;
    holds
  }

  /** Commit prepares and composes a finished transaction. */
  lemma CanCommit(p: Primitives, c: Config, v: World, key: string, uploadKey: Bytes, fetchKey: Bytes, total: nat) returns (w: World)
    requires Lawful(p) && Reachable(p, c, v) && HasState(v, key) && Grantable(c, uploadKey, fetchKey) && key !in v.compositions
    requires Committable(p, v, key, StateOf(v, key).request, total)
    ensures Reachable(p, c, w) && Progressed(p, c, w, key, 0, total)
    ensures w.compositions[key].event.request == StateOf(v, key).request && w.compositions[key].event !in w.deliveries
  {
    var mid := CanPrepare(p, c, v, key, uploadKey, fetchKey);
    w := CanCompose(p, c, mid, key);
  }

  lemma AcceptedPieces(p: Primitives, s: Shape, plaintext: Bytes) returns (pieces: seq<Bytes>)
    requires NonceBinding(p) && ValidShape(p, s) && |plaintext| == s.total
    ensures Accepted(p, s, pieces) && |pieces| == ChunkCount(s) && Concat(pieces) == plaintext
  {
    pieces := Pieces(plaintext, s.size, ChunkCount(s));
    SealedDistinct(p, s, plaintext);
    PiecesWanted(s, plaintext);
    ConcatOfPieces(plaintext, s.size, ChunkCount(s));
    CountBounds(s.total, s.size);
    TakeAll(plaintext);
  }

  /** With nonces bound, that is every plaintext of the declared length and digest. */
  lemma EmissionOfPlaintext(p: Primitives, c: Config, r: Request, m: Material, upload: Bytes, now: Uint64, plaintext: Bytes,
                            uploadKey: Bytes, fetchKey: Bytes)
    requires Lawful(p) && NonceBinding(p) && Beginnable(p, c, r, m, now) && now != 0 && Grantable(c, uploadKey, fetchKey)
    requires |plaintext| == r.plaintextBytes && Sha256(plaintext) == r.plaintextDigest
    ensures Emitted(p, c, r)
  {
    ShapeValid(p, c, r, m, now);
    BeginsFresh(p, c, r, m, upload, now);
    var tx := NewTransaction(c, r, upload, m, now);
    var pieces := AcceptedPieces(p, tx.seal.shape, plaintext);
    EmissionHappens(p, c, tx, pieces, uploadKey, fetchKey);
  }

  // ------------------------------------------------------- directories and keys beyond repair

  /** A crash between Begin's directory and its state file. */
  lemma DirectoryWithoutState(p: Primitives, c: Config, r: Request, m: Material, now: Uint64) returns (w: World)
    requires Lawful(p) && Beginnable(p, c, r, m, now)
    ensures Reachable(p, c, w) && w.dirs == map[r.key := NEW_DIR] && Broken(w, r.key)
  {
    Starts(p, c);
    var w1 := START.(dirs := START.dirs[r.key := NEW_DIR], making := Some(r.key));
    Extends(p, c, START, MakeDir(r.key, NewTransaction(c, r, [], m, now)), w1);
    w := w1.(making := None);
    Extends(p, c, w1, Crash, w);
  }

  /** A Begin while the clock reads second zero. */
  lemma CreatedInSecondZero(p: Primitives, c: Config, r: Request, m: Material, upload: Bytes) returns (w: World)
    requires Lawful(p) && Beginnable(p, c, r, m, 0)
    ensures Reachable(p, c, w) && HasState(w, r.key) && StateOf(w, r.key) == NewTransaction(c, r, upload, m, 0)
    ensures Broken(w, r.key) && Read(p, c, w.dirs[r.key]).None?
  {
    w := CanBegin(p, c, NewTransaction(c, r, upload, m, 0));
  }

  /** A crash inside a write into any transaction's directory. */
  lemma TornDirectory(p: Primitives, c: Config, v: World, key: string) returns (w: World)
    requires Lawful(p) && Reachable(p, c, v) && key in v.dirs
    ensures Reachable(p, c, w) && w.dirs == v.dirs[key := v.dirs[key].(torn := true)] && Broken(w, key)
  {
    w := v.(dirs := v.dirs[key := v.dirs[key].(torn := true)], making := None);
    Extends(p, c, v, Tear(key), w);
  }

  /** A transaction composed and then discarded, as the first Begin after its expiry does, before
      its Event was queued. */
  lemma AbandonedKey(p: Primitives, c: Config, tx: Transaction, pieces: seq<Bytes>, uploadKey: Bytes, fetchKey: Bytes) returns (w: World)
    requires Lawful(p) && Grantable(c, uploadKey, fetchKey) && Fresh(p, c, tx)
    requires Accepted(p, tx.seal.shape, pieces) && |pieces| == ChunkCount(tx.seal.shape)
    requires Sha256(Concat(pieces)) == tx.request.plaintextDigest
    ensures Reachable(p, c, w) && Abandoned(w, tx.request.key)
  {
    var v := CanComposeNew(p, c, tx, pieces, uploadKey, fetchKey);
    w := DiscardEnabled(p, c, v, tx.request.key);
    Extends(p, c, v, Discard(tx.request.key), w);
  }
}
