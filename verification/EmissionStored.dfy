/** The emitter and the store side by side: what the recipient of a queued Event can fetch and open.
    The two share only the storage service's signed acknowledgements. */
module EmissionStored {
  import opened Foundation
  import opened AttachmentLimits
  import opened Digests
  import opened StoreModel
  import opened Sealing
  import opened SealingLaws
  import opened EmitterModel
  import opened EmitterInvariant
  import EmitterRuns
  import StoreInvariant
  import StoreRuns
  import StoreService
  import AttachmentClient

  /** `signed` are the acknowledgements the service has signed; `lost` their leases that a call has
      deleted or collected since. */
  datatype Joint = Joint(world: World, disk: Disk, signed: set<Ack>, lost: set<Lease>)

  datatype Turn = Emits(step: Step) | Runs(move: StoreRuns.Move) | Signs(ack: Ack, now: int)

  const BEGINNING := Joint(START, StoreRuns.EMPTY, {}, {})

  function LeaseOfAck(ack: Ack): Lease {
    Lease(ack.manifest, ack.chunks, ack.retainUntil)
  }

  function LeaseOfEvent(e: Event): Lease
    requires e.Artifact?
  {
    Lease(e.manifest, e.reference.manifest.chunkDigests, e.expires)
  }

  /** A step of the emitter; it is shown only acknowledgements the service has signed. */
  ghost predicate Emitting(p: Primitives, c: Config, s: Joint, step: Step, t: Joint) {
    var holds :=
      && EmitterModel.Takes(p, c, s.world, step, t.world) && t == s.(world := t.world)
      && (step.Acknowledge? ==> step.ack in s.signed);
    holds
  }

  ghost function Losses(s: Joint, m: StoreRuns.Move): set<Lease> {
    set a | a in s.signed && StoreRuns.Loses(s.disk, m, LeaseOfAck(a)) :: LeaseOfAck(a)
  }

  /** A call of the store, whoever makes it, finished or cut short. */
  ghost predicate Running(q: Quota, s: Joint, m: StoreRuns.Move, t: Joint) {
    var holds := StoreRuns.Takes(s.disk, q, m, t.disk) && t == s.(disk := t.disk, lost := s.lost + Losses(s, m));
    holds
  }

  ghost function Committed(d: Disk, q: Quota, ack: Ack, now: int): Disk {
    StoreService.Done(d, q, Commit(LeaseOfAck(ack), ack.bytes, now))
  }

  /** The service commits a lease and signs its acknowledgement. */
  ghost predicate Signing(c: Config, q: Quota, s: Joint, ack: Ack, now: int, t: Joint) {
    var holds :=
      && ack.signer == c.storageKey && ack.storedAt == Unix(now)
      && CommitResult(s.disk, q, LeaseOfAck(ack), ack.bytes, now).Ok?
      && t == s.(disk := Committed(s.disk, q, ack, now), signed := s.signed + {ack}, lost := s.lost - {LeaseOfAck(ack)});
    holds
  }

  ghost predicate TakesTurn(p: Primitives, c: Config, q: Quota, s: Joint, turn: Turn, t: Joint) {
    var holds :=
      match turn
      case Emits(step) => Emitting(p, c, s, step, t)
      case Runs(move) => Running(q, s, move, t)
      case Signs(ack, now) => Signing(c, q, s, ack, now, t);
    holds
  }

  ghost predicate IsJointRun(p: Primitives, c: Config, q: Quota, ss: seq<Joint>, turns: seq<Turn>) {
    var holds :=
      && |ss| == |turns| + 1 && ss[0] == BEGINNING
      && forall i :: 0 <= i < |turns| ==> TakesTurn(p, c, q, ss[i], turns[i], ss[i + 1]);
    holds
  }

  lemma TurnOf(p: Primitives, c: Config, q: Quota, ss: seq<Joint>, turns: seq<Turn>, i: nat)
    requires IsJointRun(p, c, q, ss, turns) && i < |turns|
    ensures |ss| == |turns| + 1 && TakesTurn(p, c, q, ss[i], turns[i], ss[i + 1])
  {
  }

  // ------------------------------------------------------------------------ the invariant

  /** A signed lease is in form, and stored unless it was lost. */
  ghost predicate Kept(s: Joint, lease: Lease) {
    && ValidDigest(lease.manifest) && AllValid(lease.chunks) && Distinct(lease.chunks) && 1 <= |lease.chunks| <= MAX_CHUNKS
    && (lease in s.lost || StoreRuns.Stored(s.disk, lease))
  }

  ghost predicate AllKept(s: Joint) {
    forall a :: a in s.signed ==> Kept(s, LeaseOfAck(a))
  }

  ghost predicate JointInv(p: Primitives, c: Config, q: Quota, s: Joint) {
    var holds :=
      && EmitterInvariant.Inv(p, c, s.world) && StoreInvariant.Inv(s.disk, q)
      && s.world.acks <= s.signed && AllKept(s);
    holds
  }

  lemma AcksGrow(p: Primitives, c: Config, w: World, step: Step, v: World)
    requires EmitterModel.Takes(p, c, w, step, v)
    ensures v.acks == if step.Acknowledge? then w.acks + {step.ack} else w.acks
  {
  }

  lemma EmittingKeeps(p: Primitives, c: Config, q: Quota, s: Joint, step: Step, t: Joint)
    requires Lawful(p) && JointInv(p, c, q, s) && Emitting(p, c, s, step, t)
    ensures JointInv(p, c, q, t)
  {
    EmitterRuns.StepKeeps(p, c, s.world, step, t.world);
    AcksGrow(p, c, s.world, step, t.world);
    forall a | a in t.signed ensures Kept(t, LeaseOfAck(a)) {
      assert Kept(s, LeaseOfAck(a));
    }
  }

  lemma RunningKeeps(p: Primitives, c: Config, q: Quota, s: Joint, m: StoreRuns.Move, t: Joint)
    requires JointInv(p, c, q, s) && Running(q, s, m, t)
    ensures JointInv(p, c, q, t)
  {
    StoreRuns.StepInv(s.disk, q, m, t.disk);
    forall a | a in t.signed ensures Kept(t, LeaseOfAck(a)) {
      assert Kept(s, LeaseOfAck(a));
      if LeaseOfAck(a) !in s.lost {
        StoreRuns.KeepsLease(s.disk, q, m, t.disk, LeaseOfAck(a));
      }
    }
  }

  lemma SigningKeeps(p: Primitives, c: Config, q: Quota, s: Joint, ack: Ack, now: int, t: Joint)
    requires JointInv(p, c, q, s) && Signing(c, q, s, ack, now, t)
    ensures JointInv(p, c, q, t)
  {
    var lease := LeaseOfAck(ack);
    StoreInvariant.AfterKeeps(s.disk, q, Commit(lease, ack.bytes, now), Steps(s.disk, q, Commit(lease, ack.bytes, now)));
    StoreService.CommitHeld(s.disk, q, lease, ack.bytes, now);
    StoreService.CommitStored(s.disk, q, lease, ack.bytes, now);
    forall a | a in t.signed ensures Kept(t, LeaseOfAck(a)) {
      if a != ack {
        assert Kept(s, LeaseOfAck(a));
      }
    }
  }

  lemma TurnKeeps(p: Primitives, c: Config, q: Quota, s: Joint, turn: Turn, t: Joint)
    requires Lawful(p) && JointInv(p, c, q, s) && TakesTurn(p, c, q, s, turn, t)
    ensures JointInv(p, c, q, t)
  {
    match turn
    case Emits(step) => EmittingKeeps(p, c, q, s, step, t);
    case Runs(move) => RunningKeeps(p, c, q, s, move, t);
    case Signs(ack, now) => SigningKeeps(p, c, q, s, ack, now, t);
  }

  lemma BeginningInv(p: Primitives, c: Config, q: Quota)
    ensures JointInv(p, c, q, BEGINNING)
  {
    StoreRuns.EmptyInv(q);
  }

  lemma {:induction false} JointRunInv(p: Primitives, c: Config, q: Quota, ss: seq<Joint>, turns: seq<Turn>, i: nat)
    requires Lawful(p) && IsJointRun(p, c, q, ss, turns) && i < |ss|
    ensures JointInv(p, c, q, ss[i])
  {
    if i == 0 {
      BeginningInv(p, c, q);
    } else {
      JointRunInv(p, c, q, ss, turns, i - 1);
      TurnOf(p, c, q, ss, turns, i - 1);
      TurnKeeps(p, c, q, ss[i - 1], turns[i - 1], ss[i]);
    }
  }

  /** A lost lease was deleted, or collected at or after its expiry, by a call of the run. */
  lemma {:induction false} LostByMove(p: Primitives, c: Config, q: Quota, ss: seq<Joint>, turns: seq<Turn>, i: nat, lease: Lease)
    requires IsJointRun(p, c, q, ss, turns) && i < |ss| && lease in ss[i].lost
    ensures exists k :: 0 <= k < i && turns[k].Runs? && StoreRuns.Loses(ss[k].disk, turns[k].move, lease)
  {
    if i > 0 {
      TurnOf(p, c, q, ss, turns, i - 1);
      if lease in ss[i - 1].lost {
        LostByMove(p, c, q, ss, turns, i - 1, lease);
      } else {
        assert turns[i - 1].Runs? && StoreRuns.Loses(ss[i - 1].disk, turns[i - 1].move, lease);
      }
    }
  }

  // ------------------------------------------------------------------- what a recipient gets

  /** Fetching the Event's manifest from this disk and opening what comes back gives the plaintext. */
  ghost predicate Recoverable(p: Primitives, d: Disk, e: Event, plaintext: Bytes, policy: Policy, now: int)
    requires e.Artifact?
  {
    var got := Fetch(d, e.manifest, e.reference.manifest.chunkDigests, now);
    got.Ok? && Open(p, e.reference, got.value.0, policy, Unix(now)) == Some(plaintext)
  }

  lemma GenuineOpens(p: Primitives, e: Event, s: Shape, plaintext: Bytes, policy: Policy, now: int)
    requires Lawful(p) && Genuine(p, e, s, plaintext) && Permits(policy, e.reference, now)
    ensures |e.reference.manifest.chunkDigests| <= MAX_CHUNKS
    ensures Open(p, e.reference, StoreRuns.WholeManifest(e.reference.manifest.chunkDigests), policy, now) == Some(plaintext)
  {
    AttachmentClient.SealedWhole(p, s, plaintext);
    OpenExactly(p, s, plaintext, Sealed(p, s, plaintext).1, policy, now);
  }

  lemma StoredRecovers(p: Primitives, q: Quota, d: Disk, e: Event, s: Shape, plaintext: Bytes, policy: Policy, now: int)
    requires Lawful(p) && Genuine(p, e, s, plaintext) && StoreInvariant.Inv(d, q) && StoreRuns.Stored(d, LeaseOfEvent(e))
    requires ValidFetch(e.manifest, e.reference.manifest.chunkDigests, now) && Unix(now) < e.expires
    requires Permits(policy, e.reference, Unix(now))
    ensures Recoverable(p, d, e, plaintext, policy, now)
  {
    StoreRuns.FetchWhole(d, q, LeaseOfEvent(e), now);
    GenuineOpens(p, e, s, plaintext, policy, Unix(now));
  }

  /** The acknowledgement behind a queued Event, and its plaintext. */
  lemma QueuedBehind(p: Primitives, c: Config, w: World, e: Event) returns (ack: Ack, s: Shape, plaintext: Bytes)
    requires EmitterInvariant.Inv(p, c, w) && e in w.deliveries && e.Artifact?
    ensures ack in w.acks && LeaseOfAck(ack) == LeaseOfEvent(e) && Genuine(p, e, s, plaintext)
  {
    assert QueuedOk(c, w, e) && ComposedOk(p, e.request.key, w.compositions[e.request.key]);
    ack :| ack in w.acks && AckFor(c, e, ack);
    s, plaintext :| Genuine(p, e, s, plaintext);
  }

  /** At every point of every joint run, for every queued attachment Event there is one plaintext, of
      the digest declared when it was begun, which whoever the policy permits can fetch from the store
      as it is and open, at every time before the Event expires; unless a call deleted the lease, or
      collected it after that expiry. */
  lemma QueuedRecoverable(p: Primitives, c: Config, q: Quota, ss: seq<Joint>, turns: seq<Turn>, i: nat, e: Event)
    requires Lawful(p) && IsJointRun(p, c, q, ss, turns) && i < |ss| && e in ss[i].world.deliveries && e.Artifact?
    ensures exists plaintext :: Sha256(plaintext) == e.request.plaintextDigest
              && (LeaseOfEvent(e) !in ss[i].lost ==>
                    forall policy, now :: 0 <= Unix(now) < e.expires && Permits(policy, e.reference, Unix(now)) ==>
                      Recoverable(p, ss[i].disk, e, plaintext, policy, now))
  {
    JointRunInv(p, c, q, ss, turns, i);
    var ack, s, plaintext := QueuedBehind(p, c, ss[i].world, e);
    assert Kept(ss[i], LeaseOfAck(ack));
    if LeaseOfEvent(e) !in ss[i].lost {
      forall policy, now | 0 <= Unix(now) < e.expires && Permits(policy, e.reference, Unix(now))
        ensures Recoverable(p, ss[i].disk, e, plaintext, policy, now)
      {
        StoredRecovers(p, q, ss[i].disk, e, s, plaintext, policy, now);
      }
    }
    assert Sha256(plaintext) == e.request.plaintextDigest;
  }
}
