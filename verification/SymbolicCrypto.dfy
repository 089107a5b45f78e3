/** Ideal cryptography for the Double Ratchet suite, as free terms.

    A derivation is a constructor, so two keys are equal exactly when they were derived in
    the same way from equal inputs.  Only Diffie-Hellman has an equation: the two ends of a
    key agreement obtain the same secret.  One HKDF call yields a root and a chain from one
    64-byte output; `ChainOf(r)` is the chain half of the output whose root half is `r`. */
module SymbolicCrypto {
  import opened Foundation

  datatype PublicKey = Pub(id: nat) | LowOrder(point: nat)

  datatype Shared = Shared(lo: nat, hi: nat)

  /** X25519.  A low-order point makes the agreement fail. */
  function Ecdh(self: nat, peer: PublicKey): (r: Option<Shared>)
    ensures r.Some? <==> peer.Pub?
  {
    match peer
    case Pub(id) => Some(if self <= id then Shared(self, id) else Shared(id, self))
    case LowOrder(_) => None
  }

  lemma EcdhAgrees(a: nat, b: nat)
    ensures Ecdh(a, Pub(b)) == Ecdh(b, Pub(a))
  {
  }

  datatype Root =
    | InitialRoot(first: Shared, second: Shared, third: Shared, binding: Bytes)
    | NextRoot(previous: Root, shared: Shared)

  datatype Chain =
    | NoChain
    | ChainOf(root: Root)
    | NextChain(previous: Chain)

  datatype MessageKey = MessageKey(chain: Chain)

  datatype Header = Header(public: PublicKey, previousNumber: Uint32, number: Uint32)

  /** An AEAD output names everything it commits to.  `Noise` is any other byte string. */
  datatype Body =
    | Sealed(key: MessageKey, plaintext: Bytes, header: Header, binding: Bytes)
    | Noise(raw: Bytes)

  /** `Malformed` is a byte string whose header does not parse. */
  datatype Ciphertext =
    | Ciphertext(header: Header, body: Body)
    | Malformed(raw: Bytes)

  datatype CiphertextDigest = CiphertextDigest(of: Ciphertext)

  /** Ratchet turns since the handshake, counting the handshake as turn 1. */
  function Turn(r: Root): (n: nat)
    ensures n >= 1
  {
    match r
    case InitialRoot(_, _, _, _) => 1
    case NextRoot(p, _) => 1 + Turn(p)
  }

  /** The root a chain was started from and how often it has been advanced. */
  function Origin(c: Chain): Option<Root> {
    match c
    case NoChain => None
    case ChainOf(r) => Some(r)
    case NextChain(p) => Origin(p)
  }

  function Position(c: Chain): nat {
    match c
    case NoChain => 0
    case ChainOf(_) => 0
    case NextChain(p) => 1 + Position(p)
  }

  function Advance(c: Chain, n: nat): Chain {
    if n == 0 then c else NextChain(Advance(c, n - 1))
  }

  lemma {:induction false} AdvanceAdds(c: Chain, m: nat, n: nat)
    ensures Advance(Advance(c, m), n) == Advance(c, m + n)
  {
    if n > 0 { AdvanceAdds(c, m, n - 1); }
  }

  lemma {:induction false} AdvanceMeasures(c: Chain, n: nat)
    ensures Origin(Advance(c, n)) == Origin(c)
    ensures Position(Advance(c, n)) == Position(c) + n
  {
    if n > 0 { AdvanceMeasures(c, n - 1); }
  }

  /** openMessage: AEAD decryption under a message key and associated data. */
  function OpenBody(key: MessageKey, body: Body, header: Header, binding: Bytes): Option<Bytes> {
    if body.Sealed? && body.key == key && body.header == header && body.binding == binding
    then Some(body.plaintext)
    else None
  }
}
