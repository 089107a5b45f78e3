/** Two honest parties, a network that drops, reorders, duplicates and tampers, and the
    invariant that holds in every world they reach. */
module RatchetWorld {
  import opened Foundation
  import opened SymbolicCrypto
  import opened Ratchet
  import opened RatchetSchedule

  datatype Sent = Sent(plaintext: Bytes, binding: Bytes)

  /** What has happened so far: `counts[k]` messages were sealed on chain k, `log` records them,
      and `delivered` holds those their recipient has opened. */
  datatype Book = Book(
    schedule: Schedule,
    counts: seq<nat>,
    log: map<MessageId, Sent>,
    delivered: set<MessageId>)

  datatype World = World(book: Book, party: seq<State>)

  // ------------------------------------------------------------------- positions

  /** The newest chain a party sends on, and the newest it receives on. */
  function SendChainIndex(s: State): nat {
    if s.hasSend then Turn(s.root) else Turn(s.root) - 1
  }

  function ReceiveChainIndex(s: State): nat {
    if s.hasSend then Turn(s.root) - 1 else Turn(s.root)
  }

  /** How many messages the sender's previous chain carried. */
  function PreviousCount(counts: seq<nat>, k: nat): nat
    requires k < |counts|
  {
    if k >= 2 then counts[k - 2] else 0
  }

  ghost function CiphertextAt(b: Book, id: MessageId): Ciphertext
    requires Shape(b) && id in b.log
  {
    var header := Header(Pub(b.schedule.keys[id.chain]), PreviousCount(b.counts, id.chain), id.number);
    Ciphertext(header, Sealed(KeyAt(b.schedule, id), b.log[id].plaintext, header, b.log[id].binding))
  }

  /** Every message of a superseded chain, and those below the receive counter of the newest. */
  function HighWater(b: Book, s: State, k: nat): nat
    requires k < |b.counts|
  {
    if k < ReceiveChainIndex(s) then b.counts[k] else s.receiveNumber
  }

  /** Messages sent to party p below its high-water mark that it has not opened. */
  ghost predicate Pending(b: Book, s: State, p: nat, id: MessageId) {
    && 1 <= id.chain <= ReceiveChainIndex(s) && Owner(id.chain) != p && id.chain < |b.counts|
    && id.number < HighWater(b, s, id.chain)
    && id !in b.delivered
  }

  ghost function PendingSet(b: Book, s: State, p: nat): iset<MessageId> {
    iset id | Pending(b, s, p, id)
  }

  // ------------------------------------------------------------------- invariant

  ghost predicate Shape(b: Book) {
    && ValidSchedule(b.schedule)
    && |b.counts| == |b.schedule.keys|
    && b.counts[0] == 0
    && (forall k :: 0 <= k < |b.counts| ==> b.counts[k] < UINT32_LIMIT)
    && (forall id :: id in b.log <==> 1 <= id.chain < |b.counts| && id.number < b.counts[id.chain])
    && b.delivered <= b.log.Keys
  }

  /** Party p is on the newest chain, or one turn behind when that chain is its peer's; it holds
      the sending turn exactly when the chain it is on is its own. */
  ghost predicate InStep(b: Book, s: State, p: nat) {
    && |b.counts| >= 2
    && |b.counts| - 2 <= Turn(s.root) <= |b.counts| - 1
    && (Owner(|b.counts| - 1) == p ==> Turn(s.root) == |b.counts| - 1)
    && s.hasSend == (Owner(Turn(s.root)) == p)
  }

  /** Keys, chains and counters of a party follow from the schedule. */
  ghost predicate Aligned(b: Book, s: State)
    requires Shape(b)
  {
    var send, receive, c := SendChainIndex(s), ReceiveChainIndex(s), b.schedule;
    && 0 <= send < |c.keys| && 0 <= receive < |c.keys| && 1 <= Turn(s.root) < |c.keys|
    && s.root == RootAt(c, Turn(s.root))
    && s.self == c.keys[send] && s.selfPublic == Pub(c.keys[send]) && s.peerPublic == Pub(c.keys[receive])
    && s.sendNumber == b.counts[send]
    && s.previousSendNumber == PreviousCount(b.counts, send)
    && s.sendChain == (if s.hasSend then ChainAt(c, send, b.counts[send]) else NoChain)
    && s.hasReceive == (receive > 0)
    && s.receiveNumber <= b.counts[receive]
    && s.receiveChain == (if receive > 0 then ChainAt(c, receive, s.receiveNumber) else NoChain)
  }

  /** Skipped-key conservation. */
  ghost predicate SkippedExact(b: Book, s: State, p: nat) {
    |s.skipped| <= MAX_SKIPPED && HoldsExactly(b.schedule, s.skipped, PendingSet(b, s, p))
  }

  /** The seen list holds digests of opened messages, each once. */
  ghost predicate SeenHonest(b: Book, s: State)
    requires Shape(b)
  {
    |s.seen| <= MAX_SEEN && Distinct(s.seen) && forall d :: d in s.seen ==> IsSeen(b, d)
  }

  ghost predicate IsSeen(b: Book, d: CiphertextDigest)
    requires Shape(b)
  {
    && d.of.Ciphertext? && d.of.body.Sealed?
    && var id := IdOf(d.of.body.key);
      id in b.delivered && d.of == CiphertextAt(b, id)
  }

  /** What p has opened lies below its high-water mark. */
  ghost predicate OpenedBelow(b: Book, s: State, p: nat)
    requires Shape(b)
  {
    forall id :: id in b.delivered && Owner(id.chain) != p ==>
      id.chain <= ReceiveChainIndex(s) && id.number < HighWater(b, s, id.chain)
  }

  ghost predicate PartyInv(b: Book, s: State, p: nat) {
    var holds :=
      && p < 2 && Shape(b) && InStep(b, s, p) && Aligned(b, s)
      && SkippedExact(b, s, p) && SeenHonest(b, s) && OpenedBelow(b, s, p);
    holds
  }

  ghost predicate Inv(w: World) {
    |w.party| == 2 && forall p :: 0 <= p < 2 ==> PartyInv(w.book, w.party[p], p)
  }

  // --------------------------------------------------------------- first facts

  lemma Parity(b: Book, s: State, p: nat)
    requires InStep(b, s, p) && p < 2
    ensures Owner(SendChainIndex(s)) == p && Owner(ReceiveChainIndex(s)) == 1 - p
    ensures SendChainIndex(s) <= |b.counts| - 1 && ReceiveChainIndex(s) <= |b.counts| - 1
    ensures SendChainIndex(s) >= |b.counts| - 3 && ReceiveChainIndex(s) >= |b.counts| - 3
  {
  }

  /** Only the chain after the next can be news to party p, and then it holds the sending turn. */
  lemma NextChainIndex(b: Book, s: State, p: nat, k: nat)
    requires InStep(b, s, p) && p < 2 && ReceiveChainIndex(s) < k < |b.counts| && Owner(k) != p
    ensures k == ReceiveChainIndex(s) + 2 == |b.counts| - 1
    ensures Turn(s.root) == SendChainIndex(s) == k - 1
  {
  }

  /** The newest chain p received is the newest its peer sent, or the one before. */
  lemma ChainsInStep(b: Book, s: State, q: State, p: nat)
    requires p < 2 && InStep(b, s, p) && InStep(b, q, 1 - p)
    ensures ReceiveChainIndex(s) == SendChainIndex(q) || ReceiveChainIndex(s) == SendChainIndex(q) - 2
    ensures |b.counts| - 2 <= SendChainIndex(s) <= |b.counts| - 1
  {
  }

  /** The decoder's checks never refuse a state of an honest run. */
  lemma InvLoadable(b: Book, s: State, p: nat)
    requires PartyInv(b, s, p)
    ensures Loadable(s)
  {
    HoldsIdentities(b.schedule, s.skipped, PendingSet(b, s, p));
  }
}
