/** Every step keeps the invariant, and what follows for whole runs. */
module RatchetRuns {
  import opened Foundation
  import opened SymbolicCrypto
  import opened Ratchet
  import opened RatchetSchedule
  import opened RatchetWorld
  import opened RatchetDelivery

  // -------------------------------------------------------------- frame lemmas

  /** Later books keep the ciphertext of every message logged so far. */
  ghost predicate Grows(a: Book, b: Book) {
    && Shape(a) && Shape(b)
    && Extends(a.schedule, b.schedule)
    && a.delivered <= b.delivered && a.log.Keys <= b.log.Keys
    && (forall id :: id in a.log ==> CiphertextAt(b, id) == CiphertextAt(a, id))
  }

  /** The new state and book leave a party's inbox as it was. */
  ghost predicate SameInbox(a: Book, b: Book, s: State, t: State, p: nat) {
    && |a.counts| <= |b.counts|
    && ReceiveChainIndex(t) == ReceiveChainIndex(s) < |a.counts|
    && t.receiveNumber == s.receiveNumber && t.skipped == s.skipped && t.seen == s.seen
    && (forall k :: 0 <= k < ReceiveChainIndex(s) ==> b.counts[k] == a.counts[k])
    && (forall id: MessageId :: Owner(id.chain) != p ==> (id in b.delivered <==> id in a.delivered))
  }

  lemma InboxFrame(a: Book, b: Book, s: State, t: State, p: nat)
    requires PartyInv(a, s, p) && Grows(a, b) && SameInbox(a, b, s, t, p)
    requires Aligned(b, t) && InStep(b, t, p)
    ensures PartyInv(b, t, p)
  {
    PendingFrame(a, b, s, t, p);
    HoldsExtends(a.schedule, b.schedule, s.skipped, PendingSet(a, s, p));
    SeenGrows(a, b, s, t);
  }

  lemma PendingFrame(a: Book, b: Book, s: State, t: State, p: nat)
    requires SameInbox(a, b, s, t, p)
    ensures PendingSet(b, t, p) == PendingSet(a, s, p)
  {
    forall id: MessageId ensures Pending(b, t, p, id) <==> Pending(a, s, p, id) {}
  }

  lemma SeenGrows(a: Book, b: Book, s: State, t: State)
    requires Grows(a, b) && SeenHonest(a, s) && t.seen == s.seen
    ensures SeenHonest(b, t)
  {
    forall d | d in t.seen ensures IsSeen(b, d) { assert IsSeen(a, d); }
  }

  /** A party whose own chains and state did not change stays aligned. */
  lemma AlignedFrame(a: Book, b: Book, s: State, p: nat)
    requires Shape(a) && Shape(b) && p < 2 && Aligned(a, s) && InStep(a, s, p)
    requires Extends(a.schedule, b.schedule)
    requires forall k :: 0 <= k < |a.counts| && Owner(k) == p ==> b.counts[k] == a.counts[k]
    requires b.counts[ReceiveChainIndex(s)] >= a.counts[ReceiveChainIndex(s)]
    ensures Aligned(b, s)
  {
    var send, receive := SendChainIndex(s), ReceiveChainIndex(s);
    Parity(a, s, p);
    RootAtExtends(a.schedule, b.schedule, Turn(s.root));
    if receive > 0 { RootAtExtends(a.schedule, b.schedule, receive); }
    assert b.schedule.keys[..|a.schedule.keys|][send] == b.schedule.keys[send];
    assert b.schedule.keys[..|a.schedule.keys|][receive] == b.schedule.keys[receive];
  }

  // ------------------------------------------------------------ seal on a chain

  ghost function OnChainBook(b: Book, k: nat, m: Sent): Book
    requires k < |b.counts|
  {
    b.(counts := b.counts[k := b.counts[k] + 1], log := b.log[MessageId(k, b.counts[k]) := m])
  }

  lemma OnChainGrows(b: Book, k: nat, m: Sent)
    requires Shape(b) && 1 <= k < |b.counts| <= k + 2 && b.counts[k] < UINT32_LIMIT - 1
    ensures Grows(b, OnChainBook(b, k, m))
  {
    var c := OnChainBook(b, k, m);
    forall id | id in b.log ensures CiphertextAt(c, id) == CiphertextAt(b, id) {}
  }

  function OnChainState(s: State): State
    requires s.sendNumber < UINT32_LIMIT - 1
  {
    s.(sendChain := NextChain(s.sendChain), sendNumber := s.sendNumber + 1)
  }

  lemma OnChainSender(b: Book, s: State, p: nat, m: Sent)
    requires PartyInv(b, s, p) && s.hasSend && s.sendNumber < UINT32_LIMIT - 1
    ensures PartyInv(OnChainBook(b, SendChainIndex(s), m), OnChainState(s), p)
  {
    var k := SendChainIndex(s);
    OnChainGrows(b, k, m);
    Parity(b, s, p);
    InboxFrame(b, OnChainBook(b, k, m), s, OnChainState(s), p);
  }

  lemma OnChainPeer(b: Book, s: State, p: nat, k: nat, m: Sent)
    requires PartyInv(b, s, p) && 1 <= k < |b.counts| <= k + 2 && Owner(k) != p && ReceiveChainIndex(s) <= k
    requires b.counts[k] < UINT32_LIMIT - 1
    ensures PartyInv(OnChainBook(b, k, m), s, p)
  {
    OnChainGrows(b, k, m);
    AlignedFrame(b, OnChainBook(b, k, m), s, p);
    InboxFrame(b, OnChainBook(b, k, m), s, s, p);
  }

  // ---------------------------------------------------------- seal on a new chain

  ghost function NewChainBook(b: Book, ephemeral: nat, m: Sent): Book {
    b.(schedule := b.schedule.(keys := b.schedule.keys + [ephemeral]),
       counts := b.counts + [1],
       log := b.log[MessageId(|b.counts|, 0) := m])
  }

  lemma NewChainGrows(b: Book, ephemeral: nat, m: Sent)
    requires Shape(b) && ephemeral !in b.schedule.keys
    ensures Grows(b, NewChainBook(b, ephemeral, m))
  {
    var c := NewChainBook(b, ephemeral, m);
    assert Extends(b.schedule, c.schedule);
    assert Shape(c);
    forall id | id in b.log ensures CiphertextAt(c, id) == CiphertextAt(b, id) {
      RootAtExtends(b.schedule, c.schedule, id.chain);
    }
  }

  function NewChainState(s: State, ephemeral: nat): State
    requires s.peerPublic.Pub?
  {
    var root := NextRoot(s.root, Ecdh(ephemeral, s.peerPublic).value);
    s.(previousSendNumber := s.sendNumber, sendNumber := 1, root := root, sendChain := NextChain(ChainOf(root)),
       hasSend := true, self := ephemeral, selfPublic := Pub(ephemeral))
  }

  lemma NewChainAligned(b: Book, s: State, p: nat, ephemeral: nat, m: Sent)
    requires Shape(b) && Aligned(b, s) && InStep(b, s, p) && p < 2
    requires !s.hasSend && ephemeral !in b.schedule.keys
    ensures var c, t := NewChainBook(b, ephemeral, m), NewChainState(s, ephemeral);
            Shape(c) && Aligned(c, t) && InStep(c, t, p)
  {
    var c, k := NewChainBook(b, ephemeral, m), |b.counts|;
    NewChainGrows(b, ephemeral, m);
    RootAtExtends(b.schedule, c.schedule, k - 1);
    assert Advance(ChainOf(RootAt(c.schedule, k)), 1) == NextChain(Advance(ChainOf(RootAt(c.schedule, k)), 0));
  }

  lemma NewChainSender(b: Book, s: State, p: nat, ephemeral: nat, m: Sent)
    requires PartyInv(b, s, p) && !s.hasSend && ephemeral !in b.schedule.keys
    ensures PartyInv(NewChainBook(b, ephemeral, m), NewChainState(s, ephemeral), p)
  {
    NewChainGrows(b, ephemeral, m);
    NewChainAligned(b, s, p, ephemeral, m);
    InboxFrame(b, NewChainBook(b, ephemeral, m), s, NewChainState(s, ephemeral), p);
  }

  lemma NewChainPeer(b: Book, s: State, p: nat, ephemeral: nat, m: Sent)
    requires PartyInv(b, s, p) && Owner(|b.counts| - 1) == p && ephemeral !in b.schedule.keys
    ensures PartyInv(NewChainBook(b, ephemeral, m), s, p)
  {
    NewChainGrows(b, ephemeral, m);
    AlignedFrame(b, NewChainBook(b, ephemeral, m), s, p);
    InboxFrame(b, NewChainBook(b, ephemeral, m), s, s, p);
  }

  // -------------------------------------------------------------------- deliver

  ghost function DeliveredBook(b: Book, id: MessageId): Book {
    b.(delivered := b.delivered + {id})
  }

  lemma DeliveredGrows(b: Book, id: MessageId)
    requires Shape(b) && id in b.log
    ensures Grows(b, DeliveredBook(b, id))
  {
  }

  lemma DeliveredPeer(b: Book, s: State, p: nat, id: MessageId)
    requires PartyInv(b, s, p) && id in b.log && Owner(id.chain) == p
    ensures PartyInv(DeliveredBook(b, id), s, p)
  {
    DeliveredGrows(b, id);
    AlignedFrame(b, DeliveredBook(b, id), s, p);
    InboxFrame(b, DeliveredBook(b, id), s, s, p);
  }

  lemma SeenRemember(b: Book, s: State, t: State, id: MessageId)
    requires Shape(b) && SeenHonest(b, s) && id in b.log && id !in b.delivered
    requires t.seen == Remember(s.seen, CiphertextDigest(CiphertextAt(b, id)))
    ensures Shape(DeliveredBook(b, id)) && SeenHonest(DeliveredBook(b, id), t)
  {
    var c, d := DeliveredBook(b, id), CiphertextDigest(CiphertextAt(b, id));
    DeliveredGrows(b, id);
    NotSeen(b, s, id);
    IdOfKeyAt(b.schedule, id);
    forall e | e in t.seen ensures IsSeen(c, e) {
      if e != d { assert e in s.seen; assert IsSeen(b, e); }
    }
  }

  /** The receiver's position only moves forward, and now covers message `id`. */
  ghost predicate Advances(b: Book, s: State, t: State, p: nat, id: MessageId) {
    && (forall k :: 0 <= k < |b.counts| && Owner(k) != p && k <= ReceiveChainIndex(s) ==>
          k <= ReceiveChainIndex(t) && HighWater(b, s, k) <= HighWater(b, t, k))
    && id.chain < |b.counts| && id.chain <= ReceiveChainIndex(t) && id.number < HighWater(b, t, id.chain)
  }

  lemma DeliveredBelow(b: Book, s: State, t: State, p: nat, id: MessageId)
    requires Shape(b) && OpenedBelow(b, s, p) && id in b.log && Advances(b, s, t, p, id)
    ensures Shape(DeliveredBook(b, id)) && OpenedBelow(DeliveredBook(b, id), t, p)
  {
    DeliveredGrows(b, id);
    var c := DeliveredBook(b, id);
    forall x: MessageId | x in c.delivered && Owner(x.chain) != p
      ensures x.chain <= ReceiveChainIndex(t) && x.number < HighWater(c, t, x.chain)
    {
      if x != id {
        assert x in b.delivered;
        assert HighWater(b, s, x.chain) <= HighWater(b, t, x.chain);
      }
    }
  }

  /** Assembling the receiver's invariant after it opened message `id`. */
  lemma DeliveredParty(b: Book, s: State, t: State, p: nat, id: MessageId, ids: iset<MessageId>)
    requires PartyInv(b, s, p) && Undelivered(b, p, id)
    requires Aligned(b, t) && InStep(b, t, p) && |t.skipped| <= MAX_SKIPPED && Advances(b, s, t, p, id)
    requires t.seen == Remember(s.seen, CiphertextDigest(CiphertextAt(b, id)))
    requires HoldsExactly(b.schedule, t.skipped, ids) && ids == PendingSet(DeliveredBook(b, id), t, p)
    ensures PartyInv(DeliveredBook(b, id), t, p)
  {
    SeenRemember(b, s, t, id);
    DeliveredBelow(b, s, t, p, id);
    DeliveredAligned(b, t, id);
  }

  lemma DeliveredAligned(b: Book, t: State, id: MessageId)
    requires Shape(b) && Aligned(b, t) && id in b.log
    ensures Shape(DeliveredBook(b, id)) && Aligned(DeliveredBook(b, id), t)
  {
    var c := DeliveredBook(b, id);
    assert c.schedule == b.schedule && c.counts == b.counts;
  }

  lemma AlignedLists(b: Book, s: State, skipped: seq<SkippedKey>, seen: seq<CiphertextDigest>)
    requires Shape(b) && Aligned(b, s)
    ensures Aligned(b, s.(skipped := skipped, seen := seen))
  {
  }

  lemma DeliveredSkipped(b: Book, s: State, p: nat, id: MessageId)
    requires PartyInv(b, s, p) && Undelivered(b, p, id) && Pending(b, s, p, id)
    ensures PartyInv(DeliveredBook(b, id), Outcome(b, s, p, id), p)
  {
    var t := Outcome(b, s, p, id);
    var i := FindSkipped(s.skipped, Pub(b.schedule.keys[id.chain]), id.number);
    FindHeld(b.schedule, s.skipped, PendingSet(b, s, p), id);
    IdOfKeyAt(b.schedule, id);
    HoldsRemove(b.schedule, s.skipped, PendingSet(b, s, p), i);
    AlignedLists(b, s, t.skipped, t.seen);
    PendingTaken(b, s, t, p, id);
    DeliveredParty(b, s, t, p, id, PendingSet(b, s, p) - iset{id});
  }

  lemma PendingTaken(b: Book, s: State, t: State, p: nat, id: MessageId)
    requires t.receiveNumber == s.receiveNumber && ReceiveChainIndex(t) == ReceiveChainIndex(s)
    ensures PendingSet(DeliveredBook(b, id), t, p) == PendingSet(b, s, p) - iset{id}
  {
    var c := DeliveredBook(b, id);
    forall x: MessageId ensures Pending(c, t, p, x) <==> Pending(b, s, p, x) && x != id {}
  }

  /** Receiving number n of the present chain leaves the skipped numbers below n pending. */
  lemma PendingReceived(b: Book, s: State, t: State, p: nat, id: MessageId)
    requires Shape(b) && OpenedBelow(b, s, p) && Owner(id.chain) != p && 1 <= id.chain < |b.counts|
    requires id.chain == ReceiveChainIndex(s) == ReceiveChainIndex(t)
    requires s.receiveNumber <= id.number && t.receiveNumber == id.number + 1
    ensures PendingSet(DeliveredBook(b, id), t, p) == PendingSet(b, s, p) + Run(id.chain, s.receiveNumber, id.number)
    ensures PendingSet(b, s, p) !! Run(id.chain, s.receiveNumber, id.number)
  {
    var c := DeliveredBook(b, id);
    forall x: MessageId
      ensures Pending(c, t, p, x) <==> Pending(b, s, p, x) || x in Run(id.chain, s.receiveNumber, id.number)
    {
    }
  }

  lemma DeliveredCurrent(b: Book, s: State, p: nat, id: MessageId)
    requires PartyInv(b, s, p) && Undelivered(b, p, id) && !Pending(b, s, p, id)
    requires id.chain <= ReceiveChainIndex(s)
    requires |s.skipped| + (id.number - s.receiveNumber) <= MAX_SKIPPED
    ensures PartyInv(DeliveredBook(b, id), Outcome(b, s, p, id), p)
  {
    var t := Outcome(b, s, p, id);
    assert id.chain == ReceiveChainIndex(s);
    PendingReceived(b, s, t, p, id);
    HoldsAppend(b.schedule, s.skipped, PendingSet(b, s, p), id.chain, s.receiveNumber, id.number);
    ReceivedAligned(b, s, id);
    DeliveredParty(b, s, t, p, id, PendingSet(b, s, p) + Run(id.chain, s.receiveNumber, id.number));
  }

  lemma ReceivedAligned(b: Book, s: State, id: MessageId)
    requires Shape(b) && Aligned(b, s) && id in b.log && id.chain == ReceiveChainIndex(s)
    requires s.receiveNumber <= id.number
    ensures Aligned(b, Received(b.schedule, s, id.chain, id.number, CiphertextDigest(CiphertextAt(b, id))))
  {
  }

  // ------------------------------------- deliver the first message of the next chain

  lemma ClosedAligned(b: Book, s: State, p: nat)
    requires Shape(b) && Aligned(b, s) && InStep(b, s, p) && p < 2
    requires ReceiveChainIndex(s) + 2 == |b.counts| - 1 && Turn(s.root) == SendChainIndex(s) == |b.counts| - 2
    ensures Aligned(b, Closed(b, s)) && InStep(b, Closed(b, s), p)
    ensures ReceiveChainIndex(Closed(b, s)) == |b.counts| - 1
  {
    var k := |b.counts| - 1;
    RootAtTurn(b.schedule, k);
    assert ChainAt(b.schedule, k, 0) == ChainOf(RootAt(b.schedule, k));
  }

  /** Closing a chain at the sender's final count sets aside every message of it still missing. */
  lemma PendingClosed(b: Book, s: State, t: State, p: nat, k: nat)
    requires Shape(b) && OpenedBelow(b, s, p) && p < 2
    requires k == ReceiveChainIndex(s) < |b.counts| && ReceiveChainIndex(t) == k + 2 && Owner(k) != p
    requires s.receiveNumber <= b.counts[k] && t.receiveNumber == 0
    ensures PendingSet(b, t, p) == PendingSet(b, s, p) + Run(k, s.receiveNumber, b.counts[k])
    ensures PendingSet(b, s, p) !! Run(k, s.receiveNumber, b.counts[k])
    ensures OpenedBelow(b, t, p)
  {
    forall x: MessageId
      ensures Pending(b, t, p, x) <==> Pending(b, s, p, x) || x in Run(k, s.receiveNumber, b.counts[k])
    {
    }
  }

  lemma ClosedHolds(b: Book, s: State, p: nat)
    requires PartyInv(b, s, p)
    requires ReceiveChainIndex(s) + 2 == |b.counts| - 1 && Turn(s.root) == SendChainIndex(s) == |b.counts| - 2
    ensures var t := Closed(b, s);
            HoldsExactly(b.schedule, t.skipped, PendingSet(b, t, p)) && OpenedBelow(b, t, p)
  {
    var t, k := Closed(b, s), ReceiveChainIndex(s);
    ClosedAligned(b, s, p);
    Parity(b, s, p);
    PendingClosed(b, s, t, p, k);
    if k > 0 {
      HoldsAppend(b.schedule, s.skipped, PendingSet(b, s, p), k, s.receiveNumber, b.counts[k]);
    } else {
      assert t.skipped == s.skipped;
      assert PendingSet(b, t, p) == PendingSet(b, s, p);
    }
  }

  lemma DeliveredNext(b: Book, s: State, p: nat, id: MessageId)
    requires PartyInv(b, s, p) && Undelivered(b, p, id) && id.chain > ReceiveChainIndex(s)
    requires |s.skipped| + (PreviousCount(b.counts, id.chain) - s.receiveNumber) + id.number <= MAX_SKIPPED
    ensures PartyInv(DeliveredBook(b, id), Outcome(b, s, p, id), p)
  {
    NextChainIndex(b, s, p, id.chain);
    var u, t := Closed(b, s), Outcome(b, s, p, id);
    ClosedAligned(b, s, p);
    ClosedHolds(b, s, p);
    PendingReceived(b, u, t, p, id);
    HoldsAppend(b.schedule, u.skipped, PendingSet(b, u, p), id.chain, 0, id.number);
    ReceivedAligned(b, u, id);
    DeliveredParty(b, s, t, p, id, PendingSet(b, u, p) + Run(id.chain, 0, id.number));
  }
}
