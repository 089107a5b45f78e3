/** Emission safety over every run, with a crash allowed between any two file steps and inside one. */
module EmitterRuns {
  import opened Foundation
  import opened AttachmentLimits
  import opened Digests
  import opened StoreModel
  import opened Sealing
  import opened SealingLaws
  import opened EmitterModel
  import opened EmitterInvariant

  // ------------------------------------------------------------------------- frames

  /** Only `key`'s directory and pieces may differ. */
  ghost predicate OnlyKey(w: World, v: World, key: string) {
    forall k :: k != key ==> (k in v.dirs <==> k in w.dirs) && (k in v.dirs ==> v.dirs[k] == w.dirs[k]) && PiecesOf(v, k) == PiecesOf(w, k)
  }

  lemma DirChanged(p: Primitives, c: Config, w: World, v: World, key: string)
    requires DirsOk(p, c, w) && OnlyKey(w, v, key)
    requires key in v.dirs ==> DirOk(p, c, key, v.dirs[key], PiecesOf(v, key))
    ensures DirsOk(p, c, v)
  {
    forall k | k in v.dirs ensures DirOk(p, c, k, v.dirs[k], PiecesOf(v, k)) {
    }
  }

  ghost predicate SameJournal(w: World, v: World) {
    v.compositions == w.compositions && v.deliveries == w.deliveries && v.acks == w.acks && v.reported == w.reported
  }

  lemma JournalKept(p: Primitives, c: Config, w: World, v: World, key: string)
    requires JournalOk(p, c, w) && SameJournal(w, v) && OnlyKey(w, v, key)
    requires key in v.dirs && key in v.compositions ==> Linked(v.dirs[key], v.compositions[key])
    ensures JournalOk(p, c, v)
  {
    forall k | k in v.compositions && k in v.dirs ensures Linked(v.dirs[k], v.compositions[k]) {
    }
    forall e | e in v.deliveries ensures QueuedOk(c, v, e) {
      assert QueuedOk(c, w, e);
    }
    forall k, e | (k, e) in v.reported ensures ReportedOk(v, k, e) {
      assert ReportedOk(w, k, e);
    }
  }

  /** A directory step keeps the invariant when it leaves its own directory sound and linked. */
  lemma DirStep(p: Primitives, c: Config, w: World, v: World, key: string)
    requires Inv(p, c, w) && SameJournal(w, v) && OnlyKey(w, v, key)
    requires key in v.dirs ==> DirOk(p, c, key, v.dirs[key], PiecesOf(v, key))
    requires key in v.dirs && key in v.compositions ==> Linked(v.dirs[key], v.compositions[key])
    ensures Inv(p, c, v)
  {
    DirChanged(p, c, w, v, key);
    JournalKept(p, c, w, v, key);
  }

  /** What the invariant says of one key's state file. */
  lemma StateOk(p: Primitives, c: Config, w: World, key: string)
    requires Inv(p, c, w) && HasState(w, key)
    ensures TransactionOk(p, c, key, StateOf(w, key), w.dirs[key].files, PiecesOf(w, key))
    ensures key in w.compositions ==> Linked(w.dirs[key], w.compositions[key])
  {
    assert DirOk(p, c, key, w.dirs[key], PiecesOf(w, key));
  }

  // --------------------------------------------------------------------- directory steps

  lemma NewAccepted(p: Primitives, c: Config, tx: Transaction)
    requires Beginnable(p, c, tx.request, tx.seal.shape.material, tx.created)
    requires tx == NewTransaction(c, tx.request, tx.upload, tx.seal.shape.material, tx.created)
    ensures TransactionOk(p, c, tx.request.key, tx, map[], [])
  {
    ShapeValid(p, c, tx.request, tx.seal.shape.material, tx.created);
    assert Concat([]) == [] && DigestsOf(SealChunks(p, tx.seal.shape, [])) == [];
  }

  lemma MakeDirKeeps(p: Primitives, c: Config, w: World, key: string, tx: Transaction, v: World)
    requires Inv(p, c, w) && MakesDir(p, c, w, key, tx, v)
    ensures Inv(p, c, v)
  {
    DirStep(p, c, w, v, key);
  }

  lemma TearKeeps(p: Primitives, c: Config, w: World, key: string, v: World)
    requires Inv(p, c, w) && Tears(w, key, v)
    ensures Inv(p, c, v)
  {
    assert DirOk(p, c, key, w.dirs[key], PiecesOf(w, key));
    assert key in w.compositions ==> Linked(w.dirs[key], w.compositions[key]);
    DirStep(p, c, w, v, key);
  }

  lemma RemoveKeeps(p: Primitives, c: Config, w: World, key: string, v: World)
    requires Inv(p, c, w) && v == w.(dirs := w.dirs - {key}, making := v.making)
    ensures Inv(p, c, v)
  {
    DirStep(p, c, w, v, key);
  }

  lemma CreateStateKeeps(p: Primitives, c: Config, w: World, key: string, tx: Transaction, v: World)
    requires Inv(p, c, w) && CreatesState(p, c, w, key, tx, v)
    ensures Inv(p, c, v)
  {
    NewAccepted(p, c, tx);
    assert key in w.compositions ==> Linked(w.dirs[key], w.compositions[key]);
    DirStep(p, c, w, v, key);
  }

  lemma WriteChunkKeeps(p: Primitives, c: Config, w: World, key: string, piece: Bytes, v: World)
    requires Inv(p, c, w) && WritesChunk(p, c, w, key, piece, v)
    ensures Inv(p, c, v)
  {
    StateOk(p, c, w, key);
    ChunkWritten(p, c, key, StateOf(w, key), w.dirs[key].files, PiecesOf(w, key), piece);
    assert v.dirs[key].state == w.dirs[key].state;
    DirStep(p, c, w, v, key);
  }

  /** Rewriting a state file keeps the invariant when the new state is sound and as linked. */
  lemma SaveKeeps(p: Primitives, c: Config, w: World, key: string, tx: Transaction, v: World)
    requires Inv(p, c, w) && HasState(w, key) && v == Saved(w, key, tx)
    requires TransactionOk(p, c, key, tx, w.dirs[key].files, PiecesOf(w, key))
    requires tx.intent == StateOf(w, key).intent && tx.expires == StateOf(w, key).expires
    requires StateOf(w, key).prepared.Some? ==> tx.prepared == StateOf(w, key).prepared
    ensures Inv(p, c, v)
  {
    StateOk(p, c, w, key);
    DirStep(p, c, w, v, key);
  }

  lemma SaveChunkKeeps(p: Primitives, c: Config, w: World, key: string, v: World)
    requires Lawful(p) && Inv(p, c, w) && SavesChunk(p, c, w, key, v)
    ensures Inv(p, c, v)
  {
    StateOk(p, c, w, key);
    ChunkSaved(p, c, key, StateOf(w, key), w.dirs[key].files, PiecesOf(w, key));
    SaveKeeps(p, c, w, key, Reconciled(StateOf(w, key), w.dirs[key].files).value, v);
  }

  lemma SavePreparedKeeps(p: Primitives, c: Config, w: World, key: string, uploadKey: Bytes, fetchKey: Bytes, v: World)
    requires Inv(p, c, w) && SavesPrepared(p, c, w, key, uploadKey, fetchKey, v)
    ensures Inv(p, c, v)
  {
    StateOk(p, c, w, key);
    var tx, ps := StateOf(w, key), PiecesOf(w, key);
    ReadsWhole(p, c, key, w.dirs[key], ps);
    PreparedSaved(p, c, key, tx, w.dirs[key].files, ps, uploadKey, fetchKey);
    SaveKeeps(p, c, w, key, v.dirs[key].state.value, v);
  }

  lemma ProgressSaved(p: Primitives, c: Config, key: string, tx: Transaction, files: map<nat, Record>, ps: seq<Bytes>)
    requires TransactionOk(p, c, key, tx, files, ps) && tx.prepared.Some? && tx.uploaded + 1 < |tx.seal.digests|
    ensures TransactionOk(p, c, key, tx.(uploaded := tx.uploaded + 1), files, ps)
  {
  }

  lemma SaveProgressKeeps(p: Primitives, c: Config, w: World, key: string, v: World)
    requires Inv(p, c, w) && SavesProgress(p, c, w, key, v)
    ensures Inv(p, c, v)
  {
    StateOk(p, c, w, key);
    ProgressSaved(p, c, key, StateOf(w, key), w.dirs[key].files, PiecesOf(w, key));
    SaveKeeps(p, c, w, key, v.dirs[key].state.value, v);
  }

  /** A state that reads back as itself has no chunk beyond it on file. */
  lemma ReadsWhole(p: Primitives, c: Config, key: string, dir: Dir, ps: seq<Bytes>)
    requires dir.state.Some? && TransactionOk(p, c, key, dir.state.value, dir.files, ps)
    requires Read(p, c, dir) == dir.state
    ensures |dir.state.value.seal.digests| !in dir.files
    ensures |dir.state.value.seal.digests| == |ps|
  {
    OkShape(p, c, key, dir.state.value, dir.files, ps);
  }

  // ----------------------------------------------------------------------- journal steps

  ghost predicate SameDirs(w: World, v: World) {
    v.dirs == w.dirs && v.pieces == w.pieces
  }

  /** The journal only grew, and by sound entries. */
  ghost predicate Grew(p: Primitives, c: Config, w: World, v: World) {
    && (forall k :: k in w.compositions ==> k in v.compositions && v.compositions[k] == w.compositions[k])
    && (forall k :: k in v.compositions && k !in w.compositions ==>
          ComposedOk(p, k, v.compositions[k]) && (k in v.dirs ==> Linked(v.dirs[k], v.compositions[k])))
    && w.acks <= v.acks
    && (forall e :: e in v.deliveries ==> e in w.deliveries || QueuedOk(c, v, e)) && w.deliveries <= v.deliveries
    && (forall k, e :: (k, e) in v.reported ==> (k, e) in w.reported || ReportedOk(v, k, e))
  }

  lemma JournalStep(p: Primitives, c: Config, w: World, v: World)
    requires Inv(p, c, w) && SameDirs(w, v) && Grew(p, c, w, v)
    ensures Inv(p, c, v)
  {
    forall k | k in v.dirs ensures DirOk(p, c, k, v.dirs[k], PiecesOf(v, k)) {
      assert DirOk(p, c, k, w.dirs[k], PiecesOf(w, k));
    }
    forall e | e in v.deliveries ensures QueuedOk(c, v, e) {
      assert e in w.deliveries ==> QueuedOk(c, w, e);
    }
    forall k, e | (k, e) in v.reported ensures ReportedOk(v, k, e) {
      assert (k, e) in w.reported ==> ReportedOk(w, k, e);
    }
  }

  /** What Compose writes is genuine and linked to its transaction. */
  lemma ComposedSound(p: Primitives, c: Config, w: World, key: string, now: nat)
    requires Inv(p, c, w) && HasState(w, key) && StateOf(w, key).prepared.Some?
    ensures var comp := Composition(StateOf(w, key).intent, EventFor(StateOf(w, key), now));
            ComposedOk(p, key, comp) && Linked(w.dirs[key], comp)
  {
    StateOk(p, c, w, key);
    var tx := StateOf(w, key);
    EventGenuine(p, c, key, tx, w.dirs[key].files, PiecesOf(w, key), now);
    assert tx.request.key == key;
  }

  lemma AddComposition(p: Primitives, c: Config, w: World, key: string, comp: Composition, v: World)
    requires Inv(p, c, w) && key !in w.compositions && ComposedOk(p, key, comp)
    requires key in w.dirs ==> Linked(w.dirs[key], comp)
    requires v == w.(compositions := w.compositions[key := comp])
    ensures Inv(p, c, v)
  {
    JournalStep(p, c, w, v);
  }

  lemma ComposeKeeps(p: Primitives, c: Config, w: World, key: string, now: nat, v: World)
    requires Inv(p, c, w) && Composes(p, c, w, key, now, v)
    ensures Inv(p, c, v)
  {
    ComposedSound(p, c, w, key, now);
    AddComposition(p, c, w, key, v.compositions[key], v);
  }

  lemma ForeignKeeps(p: Primitives, c: Config, w: World, key: string, intent: Intent, tag: Bytes, v: World)
    requires Inv(p, c, w) && WritesForeign(w, key, intent, tag, v)
    ensures Inv(p, c, v)
  {
    JournalStep(p, c, w, v);
  }

  /** The acknowledgement Commit verified is one for the composed Event. */
  lemma OwnAck(p: Primitives, c: Config, w: World, key: string, ack: Ack)
    requires Inv(p, c, w) && OwnComposition(p, c, w, key)
    requires VerifiedAck(c, StateOf(w, key).prepared.value.upload, ack)
    ensures AckFor(c, w.compositions[key].event, ack)
    ensures w.compositions[key].event.request.key == key
  {
    StateOk(p, c, w, key);
    assert ComposedOk(p, key, w.compositions[key]);
  }

  lemma AddDelivery(p: Primitives, c: Config, w: World, e: Event, v: World)
    requires Inv(p, c, w) && QueuedOk(c, w, e) && v == w.(deliveries := w.deliveries + {e})
    ensures Inv(p, c, v)
  {
    JournalStep(p, c, w, v);
  }

  lemma EnqueueKeeps(p: Primitives, c: Config, w: World, key: string, v: World)
    requires Inv(p, c, w) && Enqueues(p, c, w, key, v)
    ensures Inv(p, c, v)
  {
    var ack :| ack in w.acks && VerifiedAck(c, StateOf(w, key).prepared.value.upload, ack);
    OwnAck(p, c, w, key, ack);
    AddDelivery(p, c, w, w.compositions[key].event, v);
  }

  lemma AcknowledgeKeeps(p: Primitives, c: Config, w: World, key: string, ack: Ack, v: World)
    requires Inv(p, c, w) && Acknowledges(p, c, w, key, ack, v)
    ensures Inv(p, c, v)
  {
    JournalStep(p, c, w, v);
  }

  lemma ReportKeeps(p: Primitives, c: Config, w: World, key: string, v: World)
    requires Inv(p, c, w) && Reports(w, key, v)
    ensures Inv(p, c, v)
  {
    JournalStep(p, c, w, v);
  }

  /** The substituted-composition branch cannot be reached. */
  lemma CannotSubstitute(p: Primitives, c: Config, w: World, key: string, v: World)
    requires Inv(p, c, w)
    ensures !Substitutes(p, c, w, key, v)
  {
    if HasState(w, key) {
      StateOk(p, c, w, key);
    }
  }

  predicate OfBegin(step: Step) {
    step.MakeDir? || step.DropDir? || step.CreateState?
  }

  predicate OfLoss(step: Step) {
    step.Discard? || step.Tear?
  }

  predicate OnDirectory(step: Step) {
    step.WriteChunk? || step.SaveChunk? || step.SavePrepared? || step.SaveProgress?
  }

  lemma BeginStepKeeps(p: Primitives, c: Config, w: World, step: Step, v: World)
    requires Inv(p, c, w) && Takes(p, c, w, step, v) && OfBegin(step)
    ensures Inv(p, c, v)
  {
    match step
    case MakeDir(key, tx) => MakeDirKeeps(p, c, w, key, tx, v);
    case DropDir(key) => RemoveKeeps(p, c, w, key, v);
    case CreateState(key, tx) => CreateStateKeeps(p, c, w, key, tx, v);
  }

  lemma LossStepKeeps(p: Primitives, c: Config, w: World, step: Step, v: World)
    requires Inv(p, c, w) && Takes(p, c, w, step, v) && OfLoss(step)
    ensures Inv(p, c, v)
  {
    match step
    case Discard(key) => RemoveKeeps(p, c, w, key, v);
    case Tear(key) => TearKeeps(p, c, w, key, v);
  }

  lemma DirectoryStepKeeps(p: Primitives, c: Config, w: World, step: Step, v: World)
    requires Lawful(p) && Inv(p, c, w) && Takes(p, c, w, step, v) && OnDirectory(step)
    ensures Inv(p, c, v)
  {
    match step
    case WriteChunk(key, piece) => WriteChunkKeeps(p, c, w, key, piece, v);
    case SaveChunk(key) => SaveChunkKeeps(p, c, w, key, v);
    case SavePrepared(key, uploadKey, fetchKey) => SavePreparedKeeps(p, c, w, key, uploadKey, fetchKey, v);
    case SaveProgress(key) => SaveProgressKeeps(p, c, w, key, v);
  }

  lemma JournalStepKeeps(p: Primitives, c: Config, w: World, step: Step, v: World)
    requires Inv(p, c, w) && Takes(p, c, w, step, v) && !OnDirectory(step) && !OfBegin(step) && !OfLoss(step)
    ensures Inv(p, c, v) && !step.Substitute?
  {
    match step
    case Compose(key, now) => ComposeKeeps(p, c, w, key, now, v);
    case Acknowledge(key, ack) => AcknowledgeKeeps(p, c, w, key, ack, v);
    case Enqueue(key) => EnqueueKeeps(p, c, w, key, v);
    case Report(key) => ReportKeeps(p, c, w, key, v);
    case Foreign(key, intent, tag) => ForeignKeeps(p, c, w, key, intent, tag, v);
    case Substitute(key) => CannotSubstitute(p, c, w, key, v);
    case Crash => JournalStep(p, c, w, v);
  }

  lemma StepKeeps(p: Primitives, c: Config, w: World, step: Step, v: World)
    requires Lawful(p) && Inv(p, c, w) && Takes(p, c, w, step, v)
    ensures Inv(p, c, v) && !step.Substitute?
  {
    if OnDirectory(step) {
      DirectoryStepKeeps(p, c, w, step, v);
    } else if OfBegin(step) {
      BeginStepKeeps(p, c, w, step, v);
    } else if OfLoss(step) {
      LossStepKeeps(p, c, w, step, v);
    } else {
      JournalStepKeeps(p, c, w, step, v);
    }
  }

  // --------------------------------------------------------------------------- runs

  lemma RunExtends(p: Primitives, c: Config, ws: seq<World>, steps: seq<Step>, step: Step, v: World)
    requires IsRun(p, c, ws, steps) && Takes(p, c, ws[|ws| - 1], step, v)
    ensures IsRun(p, c, ws + [v], steps + [step])
  {
    var all, more := ws + [v], steps + [step];
    forall i | 0 <= i < |more| ensures Takes(p, c, all[i], more[i], all[i + 1]) {
      if i < |steps| {
        assert Takes(p, c, ws[i], steps[i], ws[i + 1]);
      }
    }
  }

  lemma {:induction false} RunInv(p: Primitives, c: Config, ws: seq<World>, steps: seq<Step>, i: nat)
    requires Lawful(p) && IsRun(p, c, ws, steps) && i < |ws|
    ensures Inv(p, c, ws[i])
  {
    if i > 0 {
      RunInv(p, c, ws, steps, i - 1);
      StepKeeps(p, c, ws[i - 1], steps[i - 1], ws[i]);
    }
  }

  /** No run ever takes the substituted-composition branch. */
  lemma NeverSubstituted(p: Primitives, c: Config, ws: seq<World>, steps: seq<Step>, i: nat)
    requires Lawful(p) && IsRun(p, c, ws, steps) && i < |steps|
    ensures !steps[i].Substitute?
  {
    RunInv(p, c, ws, steps, i);
    StepKeeps(p, c, ws[i], steps[i], ws[i + 1]);
  }

  /** Complete is reported only for an Event that is durably queued, and an attachment Event is
      queued only after a verified acknowledgement of its own manifest, chunks and bytes. */
  lemma CompleteIsQueuedAndStored(p: Primitives, c: Config, ws: seq<World>, steps: seq<Step>, i: nat)
    requires Lawful(p) && IsRun(p, c, ws, steps) && i < |ws|
    ensures forall k, e :: (k, e) in ws[i].reported ==> e.Artifact? && e in ws[i].deliveries
    ensures forall e :: e in ws[i].deliveries && e.Artifact? ==> exists ack :: ack in ws[i].acks && AckFor(c, e, ack)
  {
    RunInv(p, c, ws, steps, i);
    var w := ws[i];
    forall k, e | (k, e) in w.reported ensures e.Artifact? && e in w.deliveries {
      assert ReportedOk(w, k, e);
    }
    forall e | e in w.deliveries && e.Artifact? ensures exists ack :: ack in w.acks && AckFor(c, e, ack) {
      assert QueuedOk(c, w, e);
    }
  }

  lemma {:induction false} CompositionsStay(p: Primitives, c: Config, ws: seq<World>, steps: seq<Step>, i: nat, j: nat, key: string)
    requires IsRun(p, c, ws, steps) && i <= j < |ws| && key in ws[i].compositions
    ensures key in ws[j].compositions && ws[j].compositions[key] == ws[i].compositions[key]
    decreases j
  {
    if i < j {
      CompositionsStay(p, c, ws, steps, i, j - 1, key);
      assert Takes(p, c, ws[j - 1], steps[j - 1], ws[j]);
    }
  }

  /** One idempotency key never yields two Events: not two reports, at any two times of the run,
      and not two deliveries. */
  lemma OneEventPerKey(p: Primitives, c: Config, ws: seq<World>, steps: seq<Step>, i: nat, j: nat, key: string, e: Event, f: Event)
    requires Lawful(p) && IsRun(p, c, ws, steps) && i <= j < |ws|
    requires (key, e) in ws[i].reported || (e in ws[i].deliveries && e.Artifact? && e.request.key == key)
    requires (key, f) in ws[j].reported || (f in ws[j].deliveries && f.Artifact? && f.request.key == key)
    ensures e == f
  {
    RunInv(p, c, ws, steps, i);
    RunInv(p, c, ws, steps, j);
    assert (key, e) in ws[i].reported ==> ReportedOk(ws[i], key, e);
    assert (key, f) in ws[j].reported ==> ReportedOk(ws[j], key, f);
    assert e in ws[i].deliveries ==> QueuedOk(c, ws[i], e);
    assert f in ws[j].deliveries ==> QueuedOk(c, ws[j], f);
    CompositionsStay(p, c, ws, steps, i, j, key);
  }

  /** Whoever receives a queued Event and the chunks its manifest names can open exactly one
      plaintext, and it has the digest declared when the transaction began. */
  lemma QueuedOpens(p: Primitives, c: Config, ws: seq<World>, steps: seq<Step>, i: nat, e: Event)
    requires Lawful(p) && IsRun(p, c, ws, steps) && i < |ws| && e in ws[i].deliveries && e.Artifact?
    ensures exists plaintext, chunks ::
              && Sha256(plaintext) == e.request.plaintextDigest
              && DigestsOf(chunks) == e.reference.manifest.chunkDigests
              && forall policy, now, others ::
                   Open(p, e.reference, others, policy, now) ==
                   if others == chunks && Permits(policy, e.reference, now) then Some(plaintext) else None
  {
    RunInv(p, c, ws, steps, i);
    assert QueuedOk(c, ws[i], e) && ComposedOk(p, e.request.key, ws[i].compositions[e.request.key]);
    var s, plaintext :| Genuine(p, e, s, plaintext);
    var chunks := Sealed(p, s, plaintext).1;
    forall policy, now, others
      ensures Open(p, e.reference, others, policy, now) ==
              if others == chunks && Permits(policy, e.reference, now) then Some(plaintext) else None
    {
      OpenExactly(p, s, plaintext, others, policy, now);
    }
  }

  // ------------------------------------------------------------------------ reopening

  lemma HeaderHolds(p: Primitives, c: Config, key: string, tx: Transaction, files: map<nat, Record>, ps: seq<Bytes>)
    requires TransactionOk(p, c, key, tx, files, ps)
    ensures ValidHeader(p, c, tx) <==> tx.created != 0
  {
    OkShape(p, c, key, tx, files, ps);
    var s, n := tx.seal.shape, |tx.seal.digests|;
    SealValid(p, s, ps);
    DistinctSlice(DigestsOf(SealChunks(p, s, ps)), 0, n);
    assert forall d :: d in tx.seal.digests ==> d in DigestsOf(SealChunks(p, s, ps));
  }

  lemma FileDigest(p: Primitives, s: Shape, ps: seq<Bytes>, files: map<nat, Record>, i: nat)
    requires ValidShape(p, s) && |ps| <= ChunkCount(s) && FilesOk(p, s, ps, files) && i < |ps|
    ensures i in files && Sha256(files[i].ciphertext) == DigestsOf(SealChunks(p, s, ps))[i]
    ensures files[i].hash == Absorbed(Concat(ps[..i + 1]))
  {
    assert files[i] == FileFor(p, s, ps, i);
  }

  /** No check of validateTransaction fires on a sound transaction. */
  lemma Validates(p: Primitives, c: Config, key: string, tx: Transaction, files: map<nat, Record>, ps: seq<Bytes>)
    requires TransactionOk(p, c, key, tx, files, ps) && tx.created != 0
    ensures ValidTransaction(p, c, tx, files)
  {
    HeaderHolds(p, c, key, tx, files, ps);
    OkShape(p, c, key, tx, files, ps);
    var s, n := tx.seal.shape, |tx.seal.digests|;
    forall i | 0 <= i < n ensures i in files && Sha256(files[i].ciphertext) == tx.seal.digests[i] {
      FileDigest(p, s, ps, files, i);
    }
    if n > 0 {
      FileDigest(p, s, ps, files, n - 1);
    }
  }

  lemma Whole(p: Primitives, c: Config, key: string, tx: Transaction, files: map<nat, Record>, ps: seq<Bytes>)
    requires TransactionOk(p, c, key, tx, files, ps) && |tx.seal.digests| == |ps|
    ensures Matched(p, tx, files, ps)
  {
    OkShape(p, c, key, tx, files, ps);
    TakeAll(ps);
    var ds := DigestsOf(SealChunks(p, tx.seal.shape, ps));
    TakeAll(ds);
  }

  /** The transaction stands for exactly these pieces: their digests, matching the stored
      ciphertexts, and the running hash of their concatenation. */
  ghost predicate Matched(p: Primitives, tx: Transaction, files: map<nat, Record>, ps: seq<Bytes>) {
    && ValidShape(p, tx.seal.shape) && |ps| <= ChunkCount(tx.seal.shape)
    && tx.seal.digests == DigestsOf(SealChunks(p, tx.seal.shape, ps))
    && tx.hash == Absorbed(Concat(ps))
    && FilesOk(p, tx.seal.shape, ps, files)
  }

  lemma ReadsReconciled(p: Primitives, c: Config, key: string, dir: Dir, ps: seq<Bytes>)
    requires Lawful(p) && Legible(dir) && TransactionOk(p, c, key, dir.state.value, dir.files, ps)
    ensures ValidShape(p, dir.state.value.seal.shape)
    ensures Read(p, c, dir) == Reconciled(dir.state.value, dir.files)
  {
    var tx := dir.state.value;
    HeaderHolds(p, c, key, tx, dir.files, ps);
    ChunkSaved(p, c, key, tx, dir.files, ps);
    Validates(p, c, key, Reconciled(tx, dir.files).value, dir.files, ps);
  }

  /** Reopening a sound directory succeeds unless it is torn or the clock read zero at its creation,
      and then the transaction stands for exactly the pieces sealed so far. */
  lemma Reopens(p: Primitives, c: Config, key: string, dir: Dir, ps: seq<Bytes>)
    requires Lawful(p) && dir.state.Some? && TransactionOk(p, c, key, dir.state.value, dir.files, ps)
    ensures Read(p, c, dir).Some? <==> Legible(dir)
    ensures Read(p, c, dir).Some? ==> Matched(p, Read(p, c, dir).value, dir.files, ps)
  {
    var tx := dir.state.value;
    HeaderHolds(p, c, key, tx, dir.files, ps);
    if Legible(dir) {
      ReadsReconciled(p, c, key, dir, ps);
      ChunkSaved(p, c, key, tx, dir.files, ps);
      Whole(p, c, key, Reconciled(tx, dir.files).value, dir.files, ps);
    }
  }

  /** In every run, at every point. */
  lemma RunReopens(p: Primitives, c: Config, ws: seq<World>, steps: seq<Step>, i: nat, key: string)
    requires Lawful(p) && IsRun(p, c, ws, steps) && i < |ws| && HasState(ws[i], key)
    ensures Read(p, c, ws[i].dirs[key]).Some? <==> Legible(ws[i].dirs[key])
    ensures Read(p, c, ws[i].dirs[key]).Some? ==>
              Matched(p, Read(p, c, ws[i].dirs[key]).value, ws[i].dirs[key].files, PiecesOf(ws[i], key))
  {
    RunInv(p, c, ws, steps, i);
    StateOk(p, c, ws[i], key);
    Reopens(p, c, key, ws[i].dirs[key], PiecesOf(ws[i], key));
  }

  // --------------------------------------------------------------- directories beyond repair

  /** A directory that is torn, has a state file of second zero, or has none and its Begin is gone. */
  predicate Broken(w: World, key: string) {
    key in w.dirs && !Legible(w.dirs[key]) && (w.dirs[key] == NEW_DIR ==> w.making != Some(key))
  }

  lemma BrokenUnread(p: Primitives, c: Config, w: World, key: string)
    requires Broken(w, key)
    ensures Read(p, c, w.dirs[key]).None? && !Reads(p, c, w, key)
  {
  }

  lemma BrokenStep(p: Primitives, c: Config, w: World, step: Step, v: World, key: string)
    requires Broken(w, key) && Takes(p, c, w, step, v)
    ensures Broken(v, key) && v.dirs[key] == w.dirs[key].(torn := v.dirs[key].torn)
  {
    BrokenUnread(p, c, w, key);
  }

  /** No step of any run repairs it: it stays as it is, and unreadable, for ever. */
  lemma {:induction false} BrokenForever(p: Primitives, c: Config, ws: seq<World>, steps: seq<Step>, i: nat, j: nat, key: string)
    requires IsRun(p, c, ws, steps) && i <= j < |ws| && Broken(ws[i], key)
    ensures Broken(ws[j], key) && ws[j].dirs[key] == ws[i].dirs[key].(torn := ws[j].dirs[key].torn) && Read(p, c, ws[j].dirs[key]).None?
    decreases j
  {
    if i < j {
      BrokenForever(p, c, ws, steps, i, j - 1, key);
      BrokenStep(p, c, ws[j - 1], steps[j - 1], ws[j], key);
    }
    BrokenUnread(p, c, ws[j], key);
  }

  // ------------------------------------------------------------------- upload progress

  lemma ProgressStep(p: Primitives, c: Config, w: World, step: Step, v: World, key: string)
    requires Takes(p, c, w, step, v) && HasState(w, key) && HasState(v, key)
    ensures StateOf(w, key).uploaded <= StateOf(v, key).uploaded
  {
  }

  /** While a transaction lasts its upload progress never goes back, so a chunk that was recorded as
      uploaded is not sent again. */
  lemma {:induction false} ProgressGrows(p: Primitives, c: Config, ws: seq<World>, steps: seq<Step>, i: nat, j: nat, key: string)
    requires IsRun(p, c, ws, steps) && i <= j < |ws| && forall k :: i <= k <= j ==> HasState(ws[k], key)
    ensures StateOf(ws[i], key).uploaded <= StateOf(ws[j], key).uploaded
    decreases j
  {
    if i < j {
      ProgressGrows(p, c, ws, steps, i, j - 1, key);
      ProgressStep(p, c, ws[j - 1], steps[j - 1], ws[j], key);
    }
  }

  // ---------------------------------------------------------------------- abandoned keys

  /** An attachment was composed under the key, its Event was never queued, and its transaction is
      gone. */
  predicate Abandoned(w: World, key: string) {
    HasArtifact(w, key) && w.compositions[key].event !in w.deliveries && key !in w.dirs
  }

  lemma AbandonedEnqueue(p: Primitives, c: Config, w: World, k: string, v: World, key: string)
    requires Inv(p, c, w) && Abandoned(w, key) && Enqueues(p, c, w, k, v)
    ensures Abandoned(v, key) && v.compositions == w.compositions
  {
    assert ComposedOk(p, key, w.compositions[key]) && ComposedOk(p, k, w.compositions[k]);
  }

  lemma AbandonedOther(p: Primitives, c: Config, w: World, step: Step, v: World, key: string)
    requires Abandoned(w, key) && Takes(p, c, w, step, v) && !step.Enqueue?
    ensures Abandoned(v, key) && v.compositions[key] == w.compositions[key]
  {
  }

  lemma AbandonedStep(p: Primitives, c: Config, w: World, step: Step, v: World, key: string)
    requires Inv(p, c, w) && Abandoned(w, key) && Takes(p, c, w, step, v)
    ensures Abandoned(v, key) && v.compositions[key] == w.compositions[key]
  {
    if step.Enqueue? {
      AbandonedEnqueue(p, c, w, step.key, v, key);
    } else {
      AbandonedOther(p, c, w, step, v, key);
    }
  }

  lemma AbandonedNext(p: Primitives, c: Config, ws: seq<World>, steps: seq<Step>, i: nat, key: string)
    requires Lawful(p) && IsRun(p, c, ws, steps) && i < |steps| && Abandoned(ws[i], key)
    ensures Abandoned(ws[i + 1], key) && ws[i + 1].compositions[key] == ws[i].compositions[key]
  {
    RunInv(p, c, ws, steps, i);
    AbandonedStep(p, c, ws[i], steps[i], ws[i + 1], key);
  }

  /** No step of any run takes the key up again: its Event is never queued. */
  lemma {:induction false} AbandonedForever(p: Primitives, c: Config, ws: seq<World>, steps: seq<Step>, i: nat, j: nat, key: string)
    requires Lawful(p) && IsRun(p, c, ws, steps) && i <= j < |ws| && Abandoned(ws[i], key)
    ensures Abandoned(ws[j], key) && ws[j].compositions[key] == ws[i].compositions[key]
    decreases j
  {
    if i < j {
      AbandonedForever(p, c, ws, steps, i, j - 1, key);
      AbandonedNext(p, c, ws, steps, j - 1, key);
    }
  }

  // ----------------------------------------------------------------------- one Append

  /** The directory when an Append is cut after `cut` of its two file operations. */
  ghost function AppendCut(p: Primitives, dir: Dir, piece: Bytes, cut: nat): Dir
    requires dir.state.Some? && SealNext(p, dir.state.value.seal, piece).Some? && cut <= 2
  {
    var tx := dir.state.value;
    var (seal, chunk) := SealNext(p, tx.seal, piece).value;
    var hash := Absorbed(tx.hash.bytes + piece);
    Dir(if cut < 2 then Some(tx) else Some(tx.(seal := seal, hash := hash)),
        if cut < 1 then dir.files else dir.files[|tx.seal.digests| := Record(hash, chunk.ciphertext)], dir.torn)
  }

  /** Wherever an Append is cut, a reopen gives exactly the transaction before it or after it. */
  lemma AppendAtomic(p: Primitives, c: Config, key: string, dir: Dir, ps: seq<Bytes>, piece: Bytes, cut: nat)
    requires Lawful(p) && dir.state.Some? && TransactionOk(p, c, key, dir.state.value, dir.files, ps)
    requires Read(p, c, dir) == dir.state && dir.state.value.prepared.None?
    requires SealNext(p, dir.state.value.seal, piece).Some? && cut <= 2
    ensures Read(p, c, AppendCut(p, dir, piece, cut)) == AppendCut(p, dir, piece, if cut == 0 then 0 else 2).state
  {
    var tx := dir.state.value;
    ReadsWhole(p, c, key, dir, ps);
    ChunkWritten(p, c, key, tx, dir.files, ps, piece);
    var mid := AppendCut(p, dir, piece, 1);
    assert TransactionOk(p, c, key, tx, mid.files, ps + [piece]);
    AppendSaves(p, c, key, dir, ps, piece);
    if cut == 1 {
      ReadsReconciled(p, c, key, mid, ps + [piece]);
    } else if cut == 2 {
      var end := AppendCut(p, dir, piece, 2);
      ChunkSaved(p, c, key, tx, mid.files, ps + [piece]);
      NoOrphan(p, c, key, end.state.value, end.files, ps + [piece]);
      ReadsReconciled(p, c, key, end, ps + [piece]);
    }
  }

  /** Append's own state write is the one a reconciliation would make. */
  lemma AppendSaves(p: Primitives, c: Config, key: string, dir: Dir, ps: seq<Bytes>, piece: Bytes)
    requires Lawful(p) && dir.state.Some? && TransactionOk(p, c, key, dir.state.value, dir.files, ps)
    requires |dir.state.value.seal.digests| == |ps| && dir.state.value.prepared.None?
    requires SealNext(p, dir.state.value.seal, piece).Some?
    ensures ValidShape(p, dir.state.value.seal.shape)
    ensures Reconciled(dir.state.value, AppendCut(p, dir, piece, 1).files) == AppendCut(p, dir, piece, 2).state
  {
    var tx := dir.state.value;
    var s := tx.seal.shape;
    OkShape(p, c, key, tx, dir.files, ps);
    ChunkWritten(p, c, key, tx, dir.files, ps, piece);
    var files := AppendCut(p, dir, piece, 1).files;
    OrphanTaken(p, c, key, tx, files, ps + [piece]);
    TakeAll(ps);
    TakeAll(DigestsOf(SealChunks(p, s, ps)));
    NextExactly(p, s, ps, piece);
    AcceptedPrefix(p, s, ps, piece);
    assert (ps + [piece])[..|ps|] == ps;
  }
}
