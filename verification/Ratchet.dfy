/** The Double Ratchet session of pkg/e2ee/default_suite.go as functions on state values. */
module Ratchet {
  import opened Foundation
  import opened SymbolicCrypto

  const MAX_SKIPPED: nat := 1024
  const MAX_SEEN: nat := 1024

  datatype Error = Replayed | NotAuthentic | SessionExpired | StateUnusable | BeyondSkippedBound | KeyUnusable

  datatype SkippedKey = SkippedKey(public: PublicKey, number: Uint32, key: MessageKey)

  datatype State = State(
    root: Root,
    self: nat,
    selfPublic: PublicKey,
    peerPublic: PublicKey,
    sendChain: Chain,
    receiveChain: Chain,
    hasSend: bool,
    hasReceive: bool,
    sendNumber: Uint32,
    receiveNumber: Uint32,
    previousSendNumber: Uint32,
    skipped: seq<SkippedKey>,
    seen: seq<CiphertextDigest>)

  // ---------------------------------------------------------------- handshake

  /** Initiate: the initiator's first state.  `self` is the ephemeral key. */
  function Initiate(identity: nat, self: nat, peerIdentity: PublicKey, peerPrekey: PublicKey, binding: Bytes)
    : Result<State, Error>
  {
    match (Ecdh(identity, peerPrekey), Ecdh(self, peerIdentity), Ecdh(self, peerPrekey))
    case (Some(first), Some(second), Some(third)) =>
      var root := InitialRoot(first, second, third, binding);
      Ok(State(root, self, Pub(self), peerPrekey, ChainOf(root), NoChain, true, false, 0, 0, 0, [], []))
    case _ => Err(NotAuthentic)
  }

  /** Accept: the responder's first state, from the initiator's public ephemeral key. */
  function Accept(identity: nat, prekey: nat, remoteIdentity: PublicKey, peer: PublicKey, binding: Bytes)
    : Result<State, Error>
  {
    match (Ecdh(prekey, remoteIdentity), Ecdh(identity, peer), Ecdh(prekey, peer))
    case (Some(first), Some(second), Some(third)) =>
      var root := InitialRoot(first, second, third, binding);
      Ok(State(root, prekey, Pub(prekey), peer, NoChain, ChainOf(root), false, true, 0, 0, 0, [], []))
    case _ => Err(NotAuthentic)
  }

  // ------------------------------------------------------- persisted form checks

  /** What decodeRatchetState demands beyond field widths. */
  ghost predicate Loadable(s: State) {
    && |s.skipped| <= MAX_SKIPPED
    && |s.seen| <= MAX_SEEN
    && Distinct(s.seen)
    && Distinct(Identities(s.skipped))
    && s.selfPublic == Pub(s.self)
    && (!s.hasSend ==> s.sendChain == NoChain)
    && (!s.hasReceive ==> s.receiveChain == NoChain)
  }

  /** What a skipped key is looked up by. */
  function Identities(skipped: seq<SkippedKey>): (r: seq<(PublicKey, Uint32)>)
    ensures |r| == |skipped|
  {
    seq(|skipped|, i requires 0 <= i < |skipped| => (skipped[i].public, skipped[i].number))
  }

  // -------------------------------------------------------------- list handling

  function SkipLoop(s: State, number: Uint32): (r: State)
    requires s.receiveNumber <= number
    decreases number - s.receiveNumber
  {
    if s.receiveNumber == number then s
    else
      SkipLoop(s.(skipped := s.skipped + [SkippedKey(s.peerPublic, s.receiveNumber, MessageKey(s.receiveChain))],
                  receiveChain := NextChain(s.receiveChain),
                  receiveNumber := s.receiveNumber + 1),
               number)
  }

  function SkipTo(s: State, number: Uint32): Result<State, Error> {
    if number < s.receiveNumber then Err(Replayed)
    else
      var gap := number - s.receiveNumber;
      if gap > MAX_SKIPPED || |s.skipped| + gap > MAX_SKIPPED then Err(BeyondSkippedBound)
      else if gap > 0 && !s.hasReceive then Err(NotAuthentic)
      else Ok(SkipLoop(s, number))
  }

  /** Index of the first skipped key with this identity, or the length when there is none. */
  function FindSkipped(skipped: seq<SkippedKey>, public: PublicKey, number: Uint32): (i: nat)
    ensures i <= |skipped|
    ensures i < |skipped| ==> skipped[i].public == public && skipped[i].number == number
    ensures forall j :: 0 <= j < i ==> !(skipped[j].public == public && skipped[j].number == number)
  {
    if skipped == [] then 0
    else if skipped[0].public == public && skipped[0].number == number then 0
    else 1 + FindSkipped(skipped[1..], public, number)
  }

  /** The bounded first-in-first-out list of opened ciphertexts. */
  function Remember(seen: seq<CiphertextDigest>, d: CiphertextDigest): (r: seq<CiphertextDigest>) {
    if |seen| == MAX_SEEN then seen[1..] + [d] else seen + [d]
  }

  // -------------------------------------------------------------- ratchet turns

  function AdvanceSending(s: State, ephemeral: nat): Result<State, Error> {
    match Ecdh(ephemeral, s.peerPublic)
    case None => Err(KeyUnusable)
    case Some(shared) =>
      var root := NextRoot(s.root, shared);
      Ok(s.(previousSendNumber := s.sendNumber, sendNumber := 0, root := root, sendChain := ChainOf(root),
            hasSend := true, self := ephemeral, selfPublic := Pub(ephemeral)))
  }

  function AdvanceReceiving(s: State, public: PublicKey): Result<State, Error> {
    match Ecdh(s.self, public)
    case None => Err(KeyUnusable)
    case Some(shared) =>
      var root := NextRoot(s.root, shared);
      Ok(s.(root := root, receiveChain := ChainOf(root), hasReceive := true, peerPublic := public,
            receiveNumber := 0, hasSend := false, sendChain := NoChain))
  }

  // ------------------------------------------------------------------ Seal, Open

  function CheckBounds<T>(s: State, value: T): Result<(T, State), Error> {
    if |s.skipped| > MAX_SKIPPED || |s.seen| > MAX_SEEN then Err(StateUnusable) else Ok((value, s))
  }

  ghost function Seal(s: State, ephemeral: nat, plaintext: Bytes, binding: Bytes): Result<(Ciphertext, State), Error> {
    if !Loadable(s) then Err(StateUnusable)
    else
      var turned := if s.hasSend then Ok(s) else AdvanceSending(s, ephemeral);
      match turned
      case Err(e) => Err(e)
      case Ok(t) =>
        if t.sendNumber == UINT32_LIMIT - 1 then Err(SessionExpired)
        else
          var header := Header(t.selfPublic, t.previousSendNumber, t.sendNumber);
          var sealed := Sealed(MessageKey(t.sendChain), plaintext, header, binding);
          CheckBounds(t.(sendChain := NextChain(t.sendChain), sendNumber := t.sendNumber + 1),
                      Ciphertext(header, sealed))
  }

  /** The receiving state after any ratchet turn a header asks for. */
  function Turned(s: State, header: Header): Result<State, Error> {
    if header.public == s.peerPublic then Ok(s)
    else
      match SkipTo(s, header.previousNumber)
      case Err(e) => Err(e)
      case Ok(closed) =>
        match AdvanceReceiving(closed, header.public)
        case Err(_) => Err(NotAuthentic)
        case Ok(t) => Ok(t)
  }

  /** Open with a key that was kept when the message was skipped. */
  function OpenSkipped(s: State, i: nat, c: Ciphertext, binding: Bytes): Result<(Bytes, State), Error>
    requires c.Ciphertext? && i < |s.skipped|
  {
    match OpenBody(s.skipped[i].key, c.body, c.header, binding)
    case None => Err(NotAuthentic)
    case Some(plaintext) =>
      CheckBounds(s.(skipped := s.skipped[..i] + s.skipped[i + 1..], seen := Remember(s.seen, CiphertextDigest(c))),
                  plaintext)
  }

  /** Open with the next key of the receiving chain, after skipping to the message. */
  function OpenNext(s: State, c: Ciphertext, binding: Bytes): Result<(Bytes, State), Error>
    requires c.Ciphertext?
  {
    if c.header.number < s.receiveNumber then Err(Replayed)
    else
      match SkipTo(s, c.header.number)
      case Err(e) => Err(e)
      case Ok(t) =>
        if !t.hasReceive then Err(NotAuthentic)
        else
          match OpenBody(MessageKey(t.receiveChain), c.body, c.header, binding)
          case None => Err(NotAuthentic)
          case Some(plaintext) =>
            CheckBounds(t.(receiveChain := NextChain(t.receiveChain),
                           receiveNumber := (t.receiveNumber + 1) % UINT32_LIMIT,
                           seen := Remember(t.seen, CiphertextDigest(c))),
                        plaintext)
  }

  ghost function Open(s: State, c: Ciphertext, binding: Bytes): Result<(Bytes, State), Error> {
    if !Loadable(s) then Err(StateUnusable)
    else if CiphertextDigest(c) in s.seen then Err(Replayed)
    else if c.Malformed? then Err(NotAuthentic)
    else
      var i := FindSkipped(s.skipped, c.header.public, c.header.number);
      if i < |s.skipped| then OpenSkipped(s, i, c, binding)
      else
        match Turned(s, c.header)
        case Err(e) => Err(e)
        case Ok(t) => OpenNext(t, c, binding)
  }

  // ------------------------------------------------------------- closed forms

  /** The keys a run of skipping adds. */
  function SkippedRun(public: PublicKey, chain: Chain, from: Uint32, to: Uint32): (r: seq<SkippedKey>)
    requires from <= to
    ensures |r| == to - from
  {
    seq(to - from, i requires 0 <= i < to - from => SkippedKey(public, from + i, MessageKey(Advance(chain, i))))
  }

  lemma SkippedRunFirst(public: PublicKey, chain: Chain, from: Uint32, to: Uint32)
    requires from < to
    ensures SkippedRun(public, chain, from, to)
         == [SkippedKey(public, from, MessageKey(chain))] + SkippedRun(public, NextChain(chain), from + 1, to)
  {
    assert Advance(chain, 1) == NextChain(chain);
    var whole := SkippedRun(public, chain, from, to);
    var rest := SkippedRun(public, NextChain(chain), from + 1, to);
    forall i: nat | i < to - from - 1 ensures whole[i + 1] == rest[i] {
      AdvanceAdds(chain, 1, i);
    }
  }

  lemma {:induction false} SkipLoopClosed(s: State, number: Uint32)
    requires s.receiveNumber <= number
    ensures SkipLoop(s, number) ==
            s.(skipped := s.skipped + SkippedRun(s.peerPublic, s.receiveChain, s.receiveNumber, number),
               receiveChain := Advance(s.receiveChain, number - s.receiveNumber),
               receiveNumber := number)
    decreases number - s.receiveNumber
  {
    var run := SkippedRun(s.peerPublic, s.receiveChain, s.receiveNumber, number);
    if s.receiveNumber < number {
      var first := [SkippedKey(s.peerPublic, s.receiveNumber, MessageKey(s.receiveChain))];
      var chain := NextChain(s.receiveChain);
      var one := s.(skipped := s.skipped + first, receiveChain := chain, receiveNumber := s.receiveNumber + 1);
      SkipLoopClosed(one, number);
      SkippedRunFirst(s.peerPublic, s.receiveChain, s.receiveNumber, number);
      AdvanceAdds(s.receiveChain, 1, number - s.receiveNumber - 1);
      assert Advance(s.receiveChain, 1) == chain;
      var rest := SkippedRun(s.peerPublic, chain, one.receiveNumber, number);
      assert s.skipped + first + rest == s.skipped + (first + rest);
    } else {
      assert s.skipped + run == s.skipped;
    }
  }
}
