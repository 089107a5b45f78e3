/** The ratchet state as the source keeps it: one record whose fields and lists are updated in
    place, with Seal and Open working on a private copy decoded from the stored state. */
module RatchetMachine {
  import opened Foundation
  import opened SymbolicCrypto
  import opened Ratchet

  class RatchetState {
    var root: Root
    var self: nat
    var selfPublic: PublicKey
    var peerPublic: PublicKey
    var sendChain: Chain
    var receiveChain: Chain
    var hasSend: bool
    var hasReceive: bool
    var sendNumber: Uint32
    var receiveNumber: Uint32
    var previousSendNumber: Uint32
    var skipped: seq<SkippedKey>
    var seen: seq<CiphertextDigest>

    function Value(): State
      reads this
    {
      State(root, self, selfPublic, peerPublic, sendChain, receiveChain, hasSend, hasReceive,
            sendNumber, receiveNumber, previousSendNumber, skipped, seen)
    }

    constructor (s: State)
      ensures Value() == s
    {
      root, self, selfPublic, peerPublic := s.root, s.self, s.selfPublic, s.peerPublic;
      sendChain, receiveChain, hasSend, hasReceive := s.sendChain, s.receiveChain, s.hasSend, s.hasReceive;
      sendNumber, receiveNumber, previousSendNumber := s.sendNumber, s.receiveNumber, s.previousSendNumber;
      skipped, seen := s.skipped, s.seen;
    }

    /** Store the keys of every message before `number`.  A refusal changes nothing. */
    method SkipTo(number: Uint32) returns (failure: Option<Error>)
      modifies this
      ensures match Ratchet.SkipTo(old(Value()), number)
              case Err(e) => failure == Some(e) && Value() == old(Value())
              case Ok(t) => failure == None && Value() == t
    {
      if number < receiveNumber { return Some(Replayed); }
      var gap := number - receiveNumber;
      if gap > MAX_SKIPPED || |skipped| + gap > MAX_SKIPPED { return Some(BeyondSkippedBound); }
      if gap > 0 && !hasReceive { return Some(NotAuthentic); }
      while receiveNumber < number
        invariant receiveNumber <= number
        invariant SkipLoop(Value(), number) == SkipLoop(old(Value()), number)
        decreases number - receiveNumber
      {
        skipped := skipped + [SkippedKey(peerPublic, receiveNumber, MessageKey(receiveChain))];
        receiveChain := NextChain(receiveChain);
        receiveNumber := receiveNumber + 1;
      }
      failure := None;
    }

    /** Remove and return the key kept for a skipped message, if there is one. */
    method TakeSkipped(public: PublicKey, number: Uint32) returns (key: Option<MessageKey>)
      modifies this
      ensures var i := FindSkipped(old(skipped), public, number);
              if i < |old(skipped)|
              then key == Some(old(skipped)[i].key)
                   && Value() == old(Value()).(skipped := old(skipped)[..i] + old(skipped)[i + 1..])
              else key == None && Value() == old(Value())
    {
      var index := 0;
      while index < |skipped|
        invariant 0 <= index <= |skipped| && Value() == old(Value())
        invariant FindSkipped(skipped, public, number) == index + FindSkipped(skipped[index..], public, number)
      {
        if skipped[index].public == public && skipped[index].number == number {
          key := Some(skipped[index].key);
          skipped := skipped[..index] + skipped[index + 1..];
          return;
        }
        assert skipped[index..][1..] == skipped[index + 1..];
        index := index + 1;
      }
      key := None;
    }

    method HasSeen(d: CiphertextDigest) returns (found: bool)
      ensures found <==> d in seen
    {
      for i := 0 to |seen|
        invariant d !in seen[..i]
      {
        if seen[i] == d { return true; }
      }
      return false;
    }

    /** Append to the seen list, dropping the oldest entry when it is full. */
    method Remember(d: CiphertextDigest)
      modifies this
      ensures Value() == old(Value()).(seen := Ratchet.Remember(old(seen), d))
      ensures d in seen
      ensures old(|seen|) <= MAX_SEEN ==> |seen| <= MAX_SEEN
    {
      if |seen| == MAX_SEEN {
        seen := seen[1..] + [d];
      } else {
        seen := seen + [d];
      }
    }

    method AdvanceSending(ephemeral: nat) returns (failure: Option<Error>)
      modifies this
      ensures match Ratchet.AdvanceSending(old(Value()), ephemeral)
              case Err(e) => failure == Some(e) && Value() == old(Value())
              case Ok(t) => failure == None && Value() == t
    {
      var shared := Ecdh(ephemeral, peerPublic);
      if shared.None? { return Some(KeyUnusable); }
      previousSendNumber := sendNumber;
      sendNumber := 0;
      root := NextRoot(root, shared.value);
      sendChain := ChainOf(root);
      hasSend := true;
      self, selfPublic := ephemeral, Pub(ephemeral);
      failure := None;
    }

    method AdvanceReceiving(public: PublicKey) returns (failure: Option<Error>)
      modifies this
      ensures match Ratchet.AdvanceReceiving(old(Value()), public)
              case Err(e) => failure == Some(e) && Value() == old(Value())
              case Ok(t) => failure == None && Value() == t
    {
      var shared := Ecdh(self, public);
      if shared.None? { return Some(KeyUnusable); }
      root := NextRoot(root, shared.value);
      receiveChain := ChainOf(root);
      hasReceive := true;
      peerPublic := public;
      receiveNumber := 0;
      hasSend := false;
      sendChain := NoChain;
      failure := None;
    }
  }

  // ------------------------------------------------------------- stored-form checks

  method CheckLoadable(s: State) returns (ok: bool)
    ensures ok <==> Loadable(s)
  {
    if |s.skipped| > MAX_SKIPPED || |s.seen| > MAX_SEEN { return false; }
    var distinct := AllDistinct(s.seen);
    if !distinct || s.selfPublic != Pub(s.self) { return false; }
    if (!s.hasSend && s.sendChain != NoChain) || (!s.hasReceive && s.receiveChain != NoChain) { return false; }
    ok := AllDistinct(Identities(s.skipped));
  }

  // ---------------------------------------------------------------------- Seal, Open

  method SealMessage(raw: State, ephemeral: nat, plaintext: Bytes, binding: Bytes)
    returns (r: Result<(Ciphertext, State), Error>)
    ensures r == Seal(raw, ephemeral, plaintext, binding)
  {
    var loadable := CheckLoadable(raw);
    if !loadable { return Err(StateUnusable); }
    var state := new RatchetState(raw);
    if !state.hasSend {
      var failure := state.AdvanceSending(ephemeral);
      if failure.Some? { return Err(failure.value); }
    }
    if state.sendNumber == UINT32_LIMIT - 1 { return Err(SessionExpired); }
    var header := Header(state.selfPublic, state.previousSendNumber, state.sendNumber);
    var key := MessageKey(state.sendChain);
    state.sendChain := NextChain(state.sendChain);
    state.sendNumber := state.sendNumber + 1;
    r := CheckBounds(state.Value(), Ciphertext(header, Sealed(key, plaintext, header, binding)));
  }

  /** Open past the skipped keys: on the receiving chain, after any ratchet turn. */
  method OpenOnChain(state: RatchetState, c: Ciphertext, binding: Bytes) returns (r: Result<(Bytes, State), Error>)
    requires c.Ciphertext?
    modifies state
    ensures r == OpenNext(old(state.Value()), c, binding)
  {
    if c.header.number < state.receiveNumber { return Err(Replayed); }
    var failure := state.SkipTo(c.header.number);
    if failure.Some? { return Err(failure.value); }
    if !state.hasReceive { return Err(NotAuthentic); }
    var plaintext := OpenBody(MessageKey(state.receiveChain), c.body, c.header, binding);
    if plaintext.None? { return Err(NotAuthentic); }
    state.receiveChain := NextChain(state.receiveChain);
    state.receiveNumber := (state.receiveNumber + 1) % UINT32_LIMIT;
    state.Remember(CiphertextDigest(c));
    r := CheckBounds(state.Value(), plaintext.value);
  }

  method OpenMessage(raw: State, c: Ciphertext, binding: Bytes) returns (r: Result<(Bytes, State), Error>)
    ensures r == Open(raw, c, binding)
  {
    var loadable := CheckLoadable(raw);
    if !loadable { return Err(StateUnusable); }
    var state := new RatchetState(raw);
    var replayed := state.HasSeen(CiphertextDigest(c));
    if replayed { return Err(Replayed); }
    if c.Malformed? { return Err(NotAuthentic); }
    var key := state.TakeSkipped(c.header.public, c.header.number);
    if key.Some? {
      var kept := OpenBody(key.value, c.body, c.header, binding);
      if kept.None? { return Err(NotAuthentic); }
      state.Remember(CiphertextDigest(c));
      return CheckBounds(state.Value(), kept.value);
    }
    if c.header.public != state.peerPublic {
      var refused := state.SkipTo(c.header.previousNumber);
      if refused.Some? { return Err(refused.value); }
      refused := state.AdvanceReceiving(c.header.public);
      if refused.Some? { return Err(NotAuthentic); }
    }
    r := OpenOnChain(state, c, binding);
  }
}
