/** Runs of the two-party protocol from the handshake on, and the main theorems about them. */
module RatchetProtocol {
  import opened Foundation
  import opened SymbolicCrypto
  import opened Ratchet
  import opened RatchetSchedule
  import opened RatchetWorld
  import opened RatchetDelivery
  import opened RatchetRuns

  /** One move of a run.  Undelivered messages are simply never delivered; a message may be
      delivered any number of times, at any later point, altered or not. */
  datatype Step =
    | SealStep(actor: nat, ephemeral: nat, message: Sent)
    | DeliverStep(actor: nat, ciphertext: Ciphertext, binding: Bytes)
    | ReloadStep(actor: nat, order: seq<SkippedKey>)

  /** The world in which party p is `mine` and its peer is `theirs`. */
  function Assembled(b: Book, p: nat, mine: State, theirs: State): World {
    World(b, if p == 0 then [mine, theirs] else [theirs, mine])
  }

  ghost predicate Takes(w: World, step: Step, v: World)
    requires Inv(w)
  {
    && step.actor < 2
    && var p, b, s := step.actor, w.book, w.party[step.actor];
      match step
      case SealStep(_, ephemeral, m) =>
        && ephemeral !in b.schedule.keys
        && var r := Seal(s, ephemeral, m.plaintext, m.binding);
          v == if r.Err? then w else Assembled(SealedBook(b, s, ephemeral, m), p, r.value.1, w.party[1 - p])
      case DeliverStep(_, c, binding) =>
        && Deliverable(b, c)
        && var r := Open(s, c, binding);
          v == if r.Err? || c.Malformed? || c.body.Noise? then w
               else Assembled(DeliveredBook(b, IdOf(c.body.key)), p, r.value.1, w.party[1 - p])
      case ReloadStep(_, order) =>
        && multiset(order) == multiset(s.skipped)
        && v == Assembled(b, p, s.(skipped := order), w.party[1 - p])
  }

  ghost function SealedId(b: Book, s: State): MessageId
    requires Shape(b) && Aligned(b, s)
  {
    if s.hasSend then MessageId(SendChainIndex(s), b.counts[SendChainIndex(s)]) else MessageId(|b.counts|, 0)
  }

  ghost function SealedBook(b: Book, s: State, ephemeral: nat, m: Sent): Book
    requires Shape(b) && Aligned(b, s)
  {
    if s.hasSend then OnChainBook(b, SendChainIndex(s), m) else NewChainBook(b, ephemeral, m)
  }

  // ----------------------------------------------------------------------- start

  /** X3DH: initiator and responder derive the same root, so the run starts from one schedule. */
  lemma HandshakeAgrees(aIdentity: nat, aEphemeral: nat, bIdentity: nat, bPrekey: nat, binding: Bytes)
    ensures var a := Initiate(aIdentity, aEphemeral, Pub(bIdentity), Pub(bPrekey), binding);
            var b := Accept(bIdentity, bPrekey, Pub(aIdentity), Pub(aEphemeral), binding);
            && a.Ok? && b.Ok?
            && a.value.root == b.value.root
            && a.value.sendChain == b.value.receiveChain == ChainOf(a.value.root)
            && a.value.peerPublic == b.value.selfPublic && b.value.peerPublic == a.value.selfPublic
            && a.value.hasSend && b.value.hasReceive
  {
    EcdhAgrees(aIdentity, bPrekey);
    EcdhAgrees(aEphemeral, bIdentity);
    EcdhAgrees(aEphemeral, bPrekey);
  }

  ghost predicate Starts(w: World, aIdentity: nat, aEphemeral: nat, bIdentity: nat, bPrekey: nat, binding: Bytes) {
    var a := Initiate(aIdentity, aEphemeral, Pub(bIdentity), Pub(bPrekey), binding);
    var b := Accept(bIdentity, bPrekey, Pub(aIdentity), Pub(aEphemeral), binding);
    && a.Ok? && b.Ok? && aEphemeral != bPrekey
    && w == World(Book(Schedule(a.value.root, [bPrekey, aEphemeral]), [0, 0], map[], {}), [b.value, a.value])
  }

  lemma StartInv(w: World, aIdentity: nat, aEphemeral: nat, bIdentity: nat, bPrekey: nat, binding: Bytes)
    requires Starts(w, aIdentity, aEphemeral, bIdentity, bPrekey, binding)
    ensures Inv(w)
  {
    HandshakeAgrees(aIdentity, aEphemeral, bIdentity, bPrekey, binding);
    assert Shape(w.book);
    assert ChainAt(w.book.schedule, 1, 0) == ChainOf(w.book.schedule.seed);
    assert PartyInv(w.book, w.party[0], 0);
    assert PartyInv(w.book, w.party[1], 1);
  }

  // ----------------------------------------------------------------------- steps

  /** Seal succeeds until its chain has carried 2^32 - 1 messages; the ciphertext is the one the
      schedule prescribes for the next message id. */
  lemma SealOutcome(b: Book, s: State, p: nat, ephemeral: nat, m: Sent)
    requires PartyInv(b, s, p) && ephemeral !in b.schedule.keys
    ensures var r := Seal(s, ephemeral, m.plaintext, m.binding);
            && (r.Ok? <==> !s.hasSend || s.sendNumber < UINT32_LIMIT - 1)
            && (r.Ok? ==>
                  var c, id := SealedBook(b, s, ephemeral, m), SealedId(b, s);
                  && id !in b.log && Grows(b, c) && c.log == b.log[id := m]
                  && r.value.0 == CiphertextAt(c, id)
                  && r.value.1 == if s.hasSend then OnChainState(s) else NewChainState(s, ephemeral))
  {
    InvLoadable(b, s, p);
    if s.hasSend {
      if s.sendNumber < UINT32_LIMIT - 1 { OnChainGrows(b, SendChainIndex(s), m); }
    } else {
      NewChainGrows(b, ephemeral, m);
      RootAtExtends(b.schedule, NewChainBook(b, ephemeral, m).schedule, |b.counts| - 1);
    }
  }

  lemma AssembledInv(b: Book, p: nat, mine: State, theirs: State)
    requires PartyInv(b, mine, p) && PartyInv(b, theirs, 1 - p)
    ensures Inv(Assembled(b, p, mine, theirs))
  {
  }

  lemma SendPosition(b: Book, s: State, q: State, p: nat)
    requires p < 2 && Shape(b) && Aligned(b, s) && s.hasSend && InStep(b, s, p) && InStep(b, q, 1 - p)
    ensures var k := SendChainIndex(s);
            && 1 <= k && |b.counts| - 2 <= k <= |b.counts| - 1 && Owner(k) != 1 - p
            && ReceiveChainIndex(q) <= k && b.counts[k] == s.sendNumber
  {
    Parity(b, s, p);
    ChainsInStep(b, s, q, p);
    ChainsInStep(b, q, s, 1 - p);
  }

  lemma OnChainParties(b: Book, s: State, q: State, p: nat, m: Sent)
    requires PartyInv(b, s, p) && PartyInv(b, q, 1 - p) && s.hasSend && s.sendNumber < UINT32_LIMIT - 1
    ensures PartyInv(OnChainBook(b, SendChainIndex(s), m), OnChainState(s), p)
    ensures PartyInv(OnChainBook(b, SendChainIndex(s), m), q, 1 - p)
  {
    OnChainSender(b, s, p, m);
    SendPosition(b, s, q, p);
    OnChainPeer(b, q, 1 - p, SendChainIndex(s), m);
  }

  lemma LastOwner(b: Book, s: State, p: nat)
    requires PartyInv(b, s, p) && !s.hasSend
    ensures Owner(|b.counts| - 1) == 1 - p
  {
  }

  lemma NewChainParties(b: Book, s: State, q: State, p: nat, ephemeral: nat, m: Sent)
    requires PartyInv(b, s, p) && PartyInv(b, q, 1 - p) && !s.hasSend && ephemeral !in b.schedule.keys
    ensures PartyInv(NewChainBook(b, ephemeral, m), NewChainState(s, ephemeral), p)
    ensures PartyInv(NewChainBook(b, ephemeral, m), q, 1 - p)
  {
    NewChainSender(b, s, p, ephemeral, m);
    LastOwner(b, s, p);
    NewChainPeer(b, q, 1 - p, ephemeral, m);
  }

  lemma SealedInv(b: Book, s: State, q: State, p: nat, ephemeral: nat, m: Sent)
    requires PartyInv(b, s, p) && PartyInv(b, q, 1 - p) && ephemeral !in b.schedule.keys
    ensures var r := Seal(s, ephemeral, m.plaintext, m.binding);
            r.Ok? ==> Inv(Assembled(SealedBook(b, s, ephemeral, m), p, r.value.1, q))
  {
    SealOutcome(b, s, p, ephemeral, m);
    if s.hasSend {
      if s.sendNumber < UINT32_LIMIT - 1 {
        OnChainParties(b, s, q, p, m);
        AssembledInv(OnChainBook(b, SendChainIndex(s), m), p, OnChainState(s), q);
      }
    } else {
      NewChainParties(b, s, q, p, ephemeral, m);
      AssembledInv(NewChainBook(b, ephemeral, m), p, NewChainState(s, ephemeral), q);
    }
  }

  lemma SealKeeps(w: World, p: nat, ephemeral: nat, m: Sent, v: World)
    requires Inv(w) && p < 2 && Takes(w, SealStep(p, ephemeral, m), v)
    ensures Inv(v)
  {
    SealedInv(w.book, w.party[p], w.party[1 - p], p, ephemeral, m);
  }

  lemma DeliveredReceiver(b: Book, s: State, p: nat, id: MessageId)
    requires PartyInv(b, s, p) && Undelivered(b, p, id)
    requires |s.skipped| + Needed(s, CiphertextAt(b, id).header) <= MAX_SKIPPED
    ensures PartyInv(DeliveredBook(b, id), Outcome(b, s, p, id), p)
  {
    if Pending(b, s, p, id) {
      DeliveredSkipped(b, s, p, id);
    } else {
      OpenGoesOn(b, s, p, id);
      if id.chain <= ReceiveChainIndex(s) {
        assert id.chain == ReceiveChainIndex(s);
        DeliveredCurrent(b, s, p, id);
      } else {
        NextChainIndex(b, s, p, id.chain);
        TurnedOutcome(b, s, CiphertextAt(b, id).header);
        DeliveredNext(b, s, p, id);
      }
    }
  }

  lemma OpenedParty(b: Book, s: State, p: nat, c: Ciphertext, binding: Bytes)
    requires PartyInv(b, s, p) && Deliverable(b, c) && Open(s, c, binding).Ok?
    ensures c.Ciphertext? && c.body.Sealed?
    ensures var id := IdOf(c.body.key);
            && id in b.log && Owner(id.chain) == 1 - p
            && PartyInv(DeliveredBook(b, id), Open(s, c, binding).value.1, p)
  {
    OpenAuthentic(b, s, p, c, binding);
    var id := IdOf(c.body.key);
    Delivery(b, s, p, id);
    DeliveredReceiver(b, s, p, id);
  }

  lemma OpenedInv(b: Book, s: State, q: State, p: nat, c: Ciphertext, binding: Bytes)
    requires PartyInv(b, s, p) && PartyInv(b, q, 1 - p) && Deliverable(b, c) && Open(s, c, binding).Ok?
    ensures c.Ciphertext? && c.body.Sealed?
    ensures Inv(Assembled(DeliveredBook(b, IdOf(c.body.key)), p, Open(s, c, binding).value.1, q))
  {
    OpenedParty(b, s, p, c, binding);
    var id := IdOf(c.body.key);
    DeliveredPeer(b, q, 1 - p, id);
    AssembledInv(DeliveredBook(b, id), p, Open(s, c, binding).value.1, q);
  }

  lemma DeliverKeeps(w: World, p: nat, c: Ciphertext, binding: Bytes, v: World)
    requires Inv(w) && p < 2 && Takes(w, DeliverStep(p, c, binding), v)
    ensures Inv(v)
  {
    if Open(w.party[p], c, binding).Ok? {
      OpenedInv(w.book, w.party[p], w.party[1 - p], p, c, binding);
    }
  }

  lemma ReloadParty(b: Book, s: State, p: nat, order: seq<SkippedKey>)
    requires PartyInv(b, s, p) && multiset(order) == multiset(s.skipped)
    ensures PartyInv(b, s.(skipped := order), p)
  {
    var t := s.(skipped := order);
    PermutationMembers(order, s.skipped);
    HoldsPermuted(b.schedule, s.skipped, order, PendingSet(b, s, p));
    assert PendingSet(b, t, p) == PendingSet(b, s, p);
    AlignedLists(b, s, order, s.seen);
  }

  lemma ReloadKeeps(w: World, p: nat, order: seq<SkippedKey>, v: World)
    requires Inv(w) && p < 2 && Takes(w, ReloadStep(p, order), v)
    ensures Inv(v)
  {
    ReloadParty(w.book, w.party[p], p, order);
    AssembledInv(w.book, p, w.party[p].(skipped := order), w.party[1 - p]);
  }

  lemma StepKeeps(w: World, step: Step, v: World)
    requires Inv(w) && Takes(w, step, v)
    ensures Inv(v)
  {
    match step
    case SealStep(p, ephemeral, m) => SealKeeps(w, p, ephemeral, m, v);
    case DeliverStep(p, c, binding) => DeliverKeeps(w, p, c, binding, v);
    case ReloadStep(p, order) => ReloadKeeps(w, p, order, v);
  }

  // ------------------------------------------------------------------------ runs

  ghost predicate Begun(w: World) {
    exists aIdentity: nat, aEphemeral: nat, bIdentity: nat, bPrekey: nat, binding: Bytes ::
      Starts(w, aIdentity, aEphemeral, bIdentity, bPrekey, binding)
  }

  /** A run starts with a handshake and goes on step by step.  That each world satisfies `Inv`,
      which gives `Takes` its meaning, is what RunInv shows; it is not assumed. */
  ghost predicate IsRun(ws: seq<World>, steps: seq<Step>) {
    var holds :=
      && |ws| == |steps| + 1
      && Begun(ws[0])
      && forall i :: 0 <= i < |steps| && Inv(ws[i]) ==> Takes(ws[i], steps[i], ws[i + 1]);
    holds
  }

  lemma {:induction false} RunInv(ws: seq<World>, steps: seq<Step>, j: nat)
    requires IsRun(ws, steps) && j < |ws|
    ensures Inv(ws[j])
  {
    if j == 0 {
      var aIdentity: nat, aEphemeral: nat, bIdentity: nat, bPrekey: nat, binding: Bytes :|
        Starts(ws[0], aIdentity, aEphemeral, bIdentity, bPrekey, binding);
      StartInv(ws[0], aIdentity, aEphemeral, bIdentity, bPrekey, binding);
    } else {
      RunInv(ws, steps, j - 1);
      StepKeeps(ws[j - 1], steps[j - 1], ws[j]);
    }
  }

  /** Conservation: at every point of every run each party's skipped list holds one correct key
      for each message below its high-water mark it has not opened, and nothing else; and the
      decoder accepts the state. */
  lemma RunConserves(ws: seq<World>, steps: seq<Step>, j: nat, p: nat)
    requires IsRun(ws, steps) && j < |ws| && p < 2
    ensures Inv(ws[j])
    ensures SkippedExact(ws[j].book, ws[j].party[p], p)
    ensures Loadable(ws[j].party[p])
  {
    RunInv(ws, steps, j);
    InvLoadable(ws[j].book, ws[j].party[p], p);
  }

  /** Delivery, for every run: a message sent at any earlier point and not yet opened opens now,
      to its plaintext, exactly when the keys to be set aside fit the bound. */
  lemma RunDelivers(ws: seq<World>, steps: seq<Step>, j: nat, p: nat, id: MessageId)
    requires IsRun(ws, steps) && j < |ws| && p < 2 && Undelivered(ws[j].book, p, id)
    ensures Inv(ws[j])
    ensures var b, s := ws[j].book, ws[j].party[p];
            var ct := CiphertextAt(b, id);
            var r := Open(s, ct, b.log[id].binding);
            if |s.skipped| + Needed(s, ct.header) <= MAX_SKIPPED
            then r.Ok? && r.value.0 == b.log[id].plaintext
            else r == Err(BeyondSkippedBound)
  {
    RunInv(ws, steps, j);
    Delivery(ws[j].book, ws[j].party[p], p, id);
  }

  lemma RunTakes(ws: seq<World>, steps: seq<Step>, j: nat)
    requires IsRun(ws, steps) && j < |steps|
    ensures Inv(ws[j]) && Takes(ws[j], steps[j], ws[j + 1])
  {
    RunInv(ws, steps, j);
  }

  /** Authenticity, for every run: what opens was sent to this party, is unaltered, and opens
      for the first time. */
  lemma RunOpensOnlySent(ws: seq<World>, steps: seq<Step>, j: nat, p: nat, c: Ciphertext, binding: Bytes)
    requires IsRun(ws, steps) && j < |steps| && steps[j] == DeliverStep(p, c, binding)
    ensures Inv(ws[j]) && p < 2
    ensures Open(ws[j].party[p], c, binding).Ok? ==> OpensSent(ws[j], p, c, binding, ws[j + 1])
  {
    RunTakes(ws, steps, j);
    DeliversSent(ws[j], p, c, binding, ws[j + 1]);
  }

  /** The ciphertext is one the peer sent to p; p had not opened it, and now has. */
  ghost predicate OpensSent(w: World, p: nat, c: Ciphertext, binding: Bytes, v: World)
    requires Inv(w) && p < 2 && Open(w.party[p], c, binding).Ok?
  {
    && c.Ciphertext? && c.body.Sealed?
    && var id := IdOf(c.body.key);
      && Undelivered(w.book, p, id) && id in v.book.delivered
      && c == CiphertextAt(w.book, id) && binding == w.book.log[id].binding
      && Open(w.party[p], c, binding).value.0 == w.book.log[id].plaintext
  }

  lemma DeliversSent(w: World, p: nat, c: Ciphertext, binding: Bytes, v: World)
    requires Inv(w) && p < 2 && Takes(w, DeliverStep(p, c, binding), v)
    ensures Open(w.party[p], c, binding).Ok? ==> OpensSent(w, p, c, binding, v)
  {
    if Open(w.party[p], c, binding).Ok? {
      OpenAuthentic(w.book, w.party[p], p, c, binding);
    }
  }

  // -------------------------------------------------------- message-key uniqueness

  ghost predicate Seals(w: World, step: Step) {
    && step.SealStep? && step.actor < |w.party|
    && Seal(w.party[step.actor], step.ephemeral, step.message.plaintext, step.message.binding).Ok?
  }

  ghost function SealedKey(w: World, step: Step): MessageKey
    requires Seals(w, step)
  {
    Seal(w.party[step.actor], step.ephemeral, step.message.plaintext, step.message.binding).value.0.body.key
  }

  /** A seal uses the key of a message that was not logged before and is logged afterwards. */
  lemma SealIsNew(w: World, step: Step, v: World)
    requires Inv(w) && Takes(w, step, v) && Seals(w, step)
    ensures var id := IdOf(SealedKey(w, step)); id !in w.book.log && id in v.book.log
  {
    var b, s := w.book, w.party[step.actor];
    SealOutcome(b, s, step.actor, step.ephemeral, step.message);
    IdOfKeyAt(SealedBook(b, s, step.ephemeral, step.message).schedule, SealedId(b, s));
  }

  lemma StepLogs(w: World, step: Step, v: World)
    requires Inv(w) && Takes(w, step, v)
    ensures w.book.log.Keys <= v.book.log.Keys
  {
    if Seals(w, step) { SealOutcome(w.book, w.party[step.actor], step.actor, step.ephemeral, step.message); }
  }

  lemma RunStepLogs(ws: seq<World>, steps: seq<Step>, j: nat)
    requires IsRun(ws, steps) && j < |steps|
    ensures ws[j].book.log.Keys <= ws[j + 1].book.log.Keys
  {
    RunTakes(ws, steps, j);
    StepLogs(ws[j], steps[j], ws[j + 1]);
  }

  lemma {:induction false} RunLogs(ws: seq<World>, steps: seq<Step>, i: nat, j: nat)
    requires IsRun(ws, steps) && i <= j < |ws|
    ensures ws[i].book.log.Keys <= ws[j].book.log.Keys
  {
    if i < j {
      RunLogs(ws, steps, i, j - 1);
      RunStepLogs(ws, steps, j - 1);
    }
  }

  /** No two seals of a run, by either party, across any number of chain resets, use the same
      message key, and so the same AEAD key and nonce. */
  lemma KeysUnique(ws: seq<World>, steps: seq<Step>, i: nat, j: nat)
    requires IsRun(ws, steps) && i < j < |steps|
    requires Seals(ws[i], steps[i]) && Seals(ws[j], steps[j])
    ensures SealedKey(ws[i], steps[i]) != SealedKey(ws[j], steps[j])
  {
    RunTakes(ws, steps, i);
    RunTakes(ws, steps, j);
    SealIsNew(ws[i], steps[i], ws[i + 1]);
    SealIsNew(ws[j], steps[j], ws[j + 1]);
    RunLogs(ws, steps, i + 1, j);
  }
}
