/** What Open does in an honest world: exactly which deliveries succeed, and with what result. */
module RatchetDelivery {
  import opened Foundation
  import opened SymbolicCrypto
  import opened Ratchet
  import opened RatchetSchedule
  import opened RatchetWorld
  import RatchetReplay

  // ---------------------------------------------------------------- authenticity

  /** Derived from this session's handshake; nobody else can seal under its keys. */
  ghost predicate Descends(b: Book, c: Chain) {
    Origin(c).Some? && Seed(Origin(c).value) == b.schedule.seed
  }

  /** What the network can produce: any bytes, any header on any body, any body sealed under a
      key of its own, and copies of bodies that were really sent. */
  ghost predicate Deliverable(b: Book, c: Ciphertext)
    requires Shape(b)
  {
    c.Ciphertext? && c.body.Sealed? && Descends(b, c.body.key.chain) ==>
      var id := IdOf(c.body.key);
      id in b.log && c.body == CiphertextAt(b, id).body
  }

  lemma BehindMessage(b: Book, s: State, id: MessageId)
    requires Shape(b) && Aligned(b, s) && 1 <= id.chain <= Turn(s.root)
    requires id.chain == ReceiveChainIndex(s) ==> id.number < s.receiveNumber
    ensures RatchetReplay.Behind(s, KeyAt(b.schedule, id))
  {
    var c, receive := b.schedule, ReceiveChainIndex(s);
    IdOfKeyAt(c, id);
    RootAtTurn(c, id.chain);
    if receive > 0 { IdOfKeyAt(c, MessageId(receive, s.receiveNumber)); RootAtTurn(c, receive); }
  }

  lemma NotHeld(c: Schedule, skipped: seq<SkippedKey>, ids: iset<MessageId>, id: MessageId)
    requires c.seed.InitialRoot? && HoldsExactly(c, skipped, ids) && InSchedule(c, id) && id !in ids
    ensures !RatchetReplay.Holds(skipped, KeyAt(c, id))
  {
    IdOfKeyAt(c, id);
    forall i | 0 <= i < |skipped| ensures skipped[i].key != KeyAt(c, id) {
      assert skipped[i] in skipped;
    }
  }

  /** Party p sent this message itself, or has already opened it. */
  lemma SpentMessage(b: Book, s: State, p: nat, id: MessageId)
    requires PartyInv(b, s, p) && id in b.log
    requires Owner(id.chain) == p || id in b.delivered
    ensures RatchetReplay.Spent(s, KeyAt(b.schedule, id))
  {
    Parity(b, s, p);
    BehindMessage(b, s, id);
    NotHeld(b.schedule, s.skipped, PendingSet(b, s, p), id);
  }

  lemma InvSound(b: Book, s: State, p: nat)
    requires PartyInv(b, s, p)
    ensures RatchetReplay.Sound(s)
  {
    var c, receive := b.schedule, ReceiveChainIndex(s);
    if receive > 0 { IdOfKeyAt(c, MessageId(receive, s.receiveNumber)); RootAtTurn(c, receive); }
    forall i | 0 <= i < |s.skipped| ensures RatchetReplay.Behind(s, s.skipped[i].key) {
      assert s.skipped[i] in s.skipped;
      var id := IdOf(s.skipped[i].key);
      assert Pending(b, s, p, id);
      BehindMessage(b, s, id);
    }
    forall i, j | 0 <= i < j < |s.skipped| ensures s.skipped[i].key != s.skipped[j].key {
      assert s.skipped[i] in s.skipped && s.skipped[j] in s.skipped;
    }
  }

  lemma ReceiveDescends(b: Book, s: State, header: Header)
    requires Shape(b) && Aligned(b, s) && Turned(s, header).Ok? && Turned(s, header).value.hasReceive
    ensures Descends(b, Turned(s, header).value.receiveChain)
  {
    if header.public == s.peerPublic {
      var receive := ReceiveChainIndex(s);
      RootAtTurn(b.schedule, receive);
      AdvanceMeasures(ChainOf(RootAt(b.schedule, receive)), s.receiveNumber);
    } else {
      SkipLoopClosed(s, header.previousNumber);
      RootAtTurn(b.schedule, Turn(s.root));
    }
  }

  lemma OpenNextKey(t: State, c: Ciphertext, binding: Bytes)
    requires c.Ciphertext? && OpenNext(t, c, binding).Ok?
    ensures t.hasReceive && c.body.Sealed? && Origin(c.body.key.chain) == Origin(t.receiveChain)
    ensures c.body.header == c.header && c.body.binding == binding
    ensures OpenNext(t, c, binding).value.0 == c.body.plaintext
  {
    SkipLoopClosed(t, c.header.number);
    AdvanceMeasures(t.receiveChain, c.header.number - t.receiveNumber);
  }

  /** A successful Open used a key descending from this session's handshake. */
  lemma OpenUsesSecret(b: Book, s: State, p: nat, c: Ciphertext, binding: Bytes)
    requires PartyInv(b, s, p) && Open(s, c, binding).Ok?
    ensures c.Ciphertext? && c.body.Sealed? && Descends(b, c.body.key.chain)
    ensures c.body.header == c.header && c.body.binding == binding
    ensures Open(s, c, binding).value.0 == c.body.plaintext
  {
    var i := FindSkipped(s.skipped, c.header.public, c.header.number);
    if i < |s.skipped| {
      assert s.skipped[i] in s.skipped;
      var id := IdOf(s.skipped[i].key);
      IdOfKeyAt(b.schedule, id);
      RootAtTurn(b.schedule, id.chain);
    } else {
      OpenNextKey(Turned(s, c.header).value, c, binding);
      ReceiveDescends(b, s, c.header);
    }
  }

  /** Whatever the network delivers, Open succeeds only on a message the other party really sent
      to p, complete and unaltered, under its own binding, and not yet opened. */
  lemma OpenAuthentic(b: Book, s: State, p: nat, c: Ciphertext, binding: Bytes)
    requires PartyInv(b, s, p) && Deliverable(b, c) && Open(s, c, binding).Ok?
    ensures c.Ciphertext? && c.body.Sealed?
    ensures var id := IdOf(c.body.key);
            && id in b.log && id !in b.delivered && Owner(id.chain) != p
            && c == CiphertextAt(b, id)
            && binding == b.log[id].binding
            && Open(s, c, binding).value.0 == b.log[id].plaintext
  {
    OpenUsesSecret(b, s, p, c, binding);
    var id := IdOf(c.body.key);
    assert c == CiphertextAt(b, id);
    if Owner(id.chain) == p || id in b.delivered {
      SpentMessage(b, s, p, id);
      InvSound(b, s, p);
      RatchetReplay.OpenSpends(s, c, binding);
      assert false;
    }
  }

  // ------------------------------------------------------------------- outcomes

  /** How many keys Open must set aside to reach the message of this header. */
  ghost function Needed(s: State, header: Header): int {
    if FindSkipped(s.skipped, header.public, header.number) < |s.skipped| then 0
    else if header.public == s.peerPublic then header.number - s.receiveNumber
    else (header.previousNumber - s.receiveNumber) + header.number
  }

  /** The state after taking message number n from receiving chain k. */
  function Received(c: Schedule, t: State, k: nat, n: Uint32, d: CiphertextDigest): State
    requires 1 <= k < |c.keys| && t.receiveNumber <= n < UINT32_LIMIT - 1
  {
    t.(skipped := t.skipped + SkippedRun(t.peerPublic, t.receiveChain, t.receiveNumber, n),
       receiveChain := ChainAt(c, k, n + 1),
       receiveNumber := n + 1,
       seen := Remember(t.seen, d))
  }

  lemma OpenNextOutcome(c: Schedule, t: State, k: nat, ct: Ciphertext, binding: Bytes)
    requires c.seed.InitialRoot? && 1 <= k < |c.keys| && ct.Ciphertext? && ct.body.Sealed?
    requires t.hasReceive && t.receiveChain == ChainAt(c, k, t.receiveNumber)
    requires t.receiveNumber <= ct.header.number < UINT32_LIMIT - 1
    requires ct.body.key == KeyAt(c, MessageId(k, ct.header.number))
    requires ct.body.header == ct.header && ct.body.binding == binding
    requires |t.seen| <= MAX_SEEN
    ensures OpenNext(t, ct, binding) ==
            if |t.skipped| + (ct.header.number - t.receiveNumber) > MAX_SKIPPED then Err(BeyondSkippedBound)
            else Ok((ct.body.plaintext, Received(c, t, k, ct.header.number, CiphertextDigest(ct))))
  {
    var n := ct.header.number;
    SkipLoopClosed(t, n);
    AdvanceAdds(ChainOf(RootAt(c, k)), t.receiveNumber, n - t.receiveNumber);
  }

  /** The receiver after a message of the peer's next chain turned its ratchet. */
  ghost function Closed(b: Book, s: State): State
    requires Shape(b) && Aligned(b, s) && ReceiveChainIndex(s) + 2 < |b.counts|
  {
    var receive := ReceiveChainIndex(s);
    var root := RootAt(b.schedule, receive + 2);
    s.(skipped := s.skipped + SkippedRun(s.peerPublic, s.receiveChain, s.receiveNumber, b.counts[receive]),
       root := root, receiveChain := ChainOf(root), hasReceive := true,
       peerPublic := Pub(b.schedule.keys[receive + 2]), receiveNumber := 0, hasSend := false, sendChain := NoChain)
  }

  lemma TurnedOutcome(b: Book, s: State, header: Header)
    requires Shape(b) && Aligned(b, s)
    requires ReceiveChainIndex(s) + 2 == |b.counts| - 1
    requires Turn(s.root) == SendChainIndex(s) == |b.counts| - 2
    requires header.public == Pub(b.schedule.keys[|b.counts| - 1])
    requires header.previousNumber == b.counts[|b.counts| - 3]
    ensures header.public != s.peerPublic
    ensures Turned(s, header) ==
            if |s.skipped| + (header.previousNumber - s.receiveNumber) > MAX_SKIPPED then Err(BeyondSkippedBound)
            else Ok(Closed(b, s))
  {
    var c, receive := b.schedule, ReceiveChainIndex(s);
    SkipLoopClosed(s, header.previousNumber);
    EcdhAgrees(c.keys[receive + 1], c.keys[receive + 2]);
    assert NextRoot(s.root, Ecdh(s.self, header.public).value) == RootAt(c, receive + 2);
  }

  /** Delivered to p for the first time. */
  ghost predicate Undelivered(b: Book, p: nat, id: MessageId) {
    id in b.log && Owner(id.chain) != p && id !in b.delivered
  }

  /** The state Open leaves behind for message `id`, in each of the three cases. */
  ghost function Outcome(b: Book, s: State, p: nat, id: MessageId): State
    requires PartyInv(b, s, p) && Undelivered(b, p, id)
  {
    var d := CiphertextDigest(CiphertextAt(b, id));
    if Pending(b, s, p, id) then
      var i := FindSkipped(s.skipped, Pub(b.schedule.keys[id.chain]), id.number);
      FindHeld(b.schedule, s.skipped, PendingSet(b, s, p), id);
      s.(skipped := s.skipped[..i] + s.skipped[i + 1..], seen := Remember(s.seen, d))
    else if id.chain <= ReceiveChainIndex(s) then Received(b.schedule, s, id.chain, id.number, d)
    else
      NextChainIndex(b, s, p, id.chain);
      Received(b.schedule, Closed(b, s), id.chain, id.number, d)
  }

  lemma NotSeen(b: Book, s: State, id: MessageId)
    requires Shape(b) && SeenHonest(b, s) && id in b.log && id !in b.delivered
    ensures CiphertextDigest(CiphertextAt(b, id)) !in s.seen
  {
    IdOfKeyAt(b.schedule, id);
  }

  /** Past the replay and skipped-key checks, Open goes on with the receiving chain. */
  lemma OpenGoesOn(b: Book, s: State, p: nat, id: MessageId)
    requires PartyInv(b, s, p) && Undelivered(b, p, id) && !Pending(b, s, p, id)
    ensures var ct := CiphertextAt(b, id);
            && FindSkipped(s.skipped, ct.header.public, ct.header.number) == |s.skipped|
            && Open(s, ct, b.log[id].binding) ==
               (match Turned(s, ct.header)
                case Err(e) => Err(e)
                case Ok(t) => OpenNext(t, ct, b.log[id].binding))
  {
    InvLoadable(b, s, p);
    NotSeen(b, s, id);
    FindHeld(b.schedule, s.skipped, PendingSet(b, s, p), id);
  }

  lemma OpenHeld(s: State, i: nat, ct: Ciphertext, binding: Bytes)
    requires Loadable(s) && CiphertextDigest(ct) !in s.seen && ct.Ciphertext? && ct.body.Sealed?
    requires i == FindSkipped(s.skipped, ct.header.public, ct.header.number) < |s.skipped|
    requires s.skipped[i].key == ct.body.key && ct.body.header == ct.header && ct.body.binding == binding
    ensures Open(s, ct, binding) ==
            Ok((ct.body.plaintext,
                s.(skipped := s.skipped[..i] + s.skipped[i + 1..], seen := Remember(s.seen, CiphertextDigest(ct)))))
  {
  }

  lemma DeliverySkipped(b: Book, s: State, p: nat, id: MessageId)
    requires PartyInv(b, s, p) && Undelivered(b, p, id) && Pending(b, s, p, id)
    ensures var ct := CiphertextAt(b, id);
            && Needed(s, ct.header) == 0
            && Open(s, ct, b.log[id].binding) == Ok((b.log[id].plaintext, Outcome(b, s, p, id)))
  {
    var ct := CiphertextAt(b, id);
    InvLoadable(b, s, p);
    NotSeen(b, s, id);
    FindHeld(b.schedule, s.skipped, PendingSet(b, s, p), id);
    OpenHeld(s, FindSkipped(s.skipped, ct.header.public, ct.header.number), ct, b.log[id].binding);
  }

  lemma DeliveryCurrent(b: Book, s: State, p: nat, id: MessageId)
    requires PartyInv(b, s, p) && Undelivered(b, p, id) && !Pending(b, s, p, id)
    requires id.chain <= ReceiveChainIndex(s)
    ensures var ct := CiphertextAt(b, id);
            Open(s, ct, b.log[id].binding) ==
            if |s.skipped| + Needed(s, ct.header) <= MAX_SKIPPED
            then Ok((b.log[id].plaintext, Outcome(b, s, p, id)))
            else Err(BeyondSkippedBound)
  {
    OpenGoesOn(b, s, p, id);
    assert id.chain == ReceiveChainIndex(s);
    OpenNextOutcome(b.schedule, s, id.chain, CiphertextAt(b, id), b.log[id].binding);
  }

  lemma DeliveryNext(b: Book, s: State, p: nat, id: MessageId)
    requires PartyInv(b, s, p) && Undelivered(b, p, id) && id.chain > ReceiveChainIndex(s)
    ensures var ct := CiphertextAt(b, id);
            Open(s, ct, b.log[id].binding) ==
            if |s.skipped| + Needed(s, ct.header) <= MAX_SKIPPED
            then Ok((b.log[id].plaintext, Outcome(b, s, p, id)))
            else Err(BeyondSkippedBound)
  {
    var ct := CiphertextAt(b, id);
    OpenGoesOn(b, s, p, id);
    NextChainIndex(b, s, p, id.chain);
    TurnedOutcome(b, s, ct.header);
    OpenNextOutcome(b.schedule, Closed(b, s), id.chain, ct, b.log[id].binding);
  }

  /** Ratchet delivery.  The first delivery of a message, in whatever order and however late,
      opens to its plaintext if and only if the keys it makes the receiver set aside fit the bound. */
  lemma Delivery(b: Book, s: State, p: nat, id: MessageId)
    requires PartyInv(b, s, p) && Undelivered(b, p, id)
    ensures var ct := CiphertextAt(b, id);
            Open(s, ct, b.log[id].binding) ==
            if |s.skipped| + Needed(s, ct.header) <= MAX_SKIPPED
            then Ok((b.log[id].plaintext, Outcome(b, s, p, id)))
            else Err(BeyondSkippedBound)
  {
    if Pending(b, s, p, id) {
      DeliverySkipped(b, s, p, id);
    } else if id.chain <= ReceiveChainIndex(s) {
      DeliveryCurrent(b, s, p, id);
    } else {
      DeliveryNext(b, s, p, id);
    }
  }
}
