/** At-most-once opening, against any sender and any network.

    No assumption is made about where ciphertexts come from.  A message key is spent once it
    lies behind the receiver's frontier and is no longer among the skipped keys; a spent key
    stays spent, whatever is sealed, opened, refused, reloaded or forgotten afterwards. */
module RatchetReplay {
  import opened Foundation
  import opened SymbolicCrypto
  import opened Ratchet

  /** The key was derived no later than the receiver's present position. */
  ghost predicate Behind(s: State, k: MessageKey) {
    && Origin(k.chain).Some?
    && Turn(Origin(k.chain).value) <= Turn(s.root)
    && (Origin(k.chain) == Origin(s.receiveChain) ==> Position(k.chain) < Position(s.receiveChain))
  }

  ghost predicate Holds(skipped: seq<SkippedKey>, k: MessageKey) {
    exists i :: 0 <= i < |skipped| && skipped[i].key == k
  }

  ghost predicate Spent(s: State, k: MessageKey) {
    Behind(s, k) && !Holds(s.skipped, k)
  }

  /** What every receiver keeps, whoever it talks to. */
  ghost predicate Sound(s: State) {
    && (s.hasReceive ==> Origin(s.receiveChain).Some? && Turn(Origin(s.receiveChain).value) <= Turn(s.root))
    && (forall i :: 0 <= i < |s.skipped| ==> Behind(s, s.skipped[i].key))
    && (forall i, j :: 0 <= i < j < |s.skipped| ==> s.skipped[i].key != s.skipped[j].key)
  }

  /** From one state to the next: sound stays sound and spent stays spent. */
  ghost predicate Keeps(s: State, t: State) {
    Sound(t) && forall k :: Spent(s, k) ==> Spent(t, k)
  }

  lemma SkipToKeeps(s: State, number: Uint32)
    requires Sound(s) && SkipTo(s, number).Ok?
    ensures Keeps(s, SkipTo(s, number).value)
    ensures SkipTo(s, number).value.hasReceive == s.hasReceive
    ensures SkipTo(s, number).value.root == s.root
  {
    var t := SkipTo(s, number).value;
    SkipLoopClosed(s, number);
    var gap := number - s.receiveNumber;
    var run := SkippedRun(s.peerPublic, s.receiveChain, s.receiveNumber, number);
    AdvanceMeasures(s.receiveChain, gap);
    forall i | 0 <= i < gap
      ensures Origin(run[i].key.chain) == Origin(s.receiveChain)
      ensures Position(run[i].key.chain) == Position(s.receiveChain) + i
    {
      AdvanceMeasures(s.receiveChain, i);
    }
    forall i | 0 <= i < |t.skipped| ensures Behind(t, t.skipped[i].key) {
      if i >= |s.skipped| { assert t.skipped[i] == run[i - |s.skipped|]; }
    }
    forall k | Spent(s, k) ensures Spent(t, k) {
      forall i | 0 <= i < |t.skipped| ensures t.skipped[i].key != k {
        if i >= |s.skipped| { assert t.skipped[i] == run[i - |s.skipped|]; }
      }
    }
  }

  lemma AdvanceReceivingKeeps(s: State, public: PublicKey)
    requires Sound(s) && AdvanceReceiving(s, public).Ok?
    ensures Keeps(s, AdvanceReceiving(s, public).value)
  {
  }

  lemma SealKeeps(s: State, ephemeral: nat, plaintext: Bytes, binding: Bytes)
    requires Sound(s) && Seal(s, ephemeral, plaintext, binding).Ok?
    ensures Keeps(s, Seal(s, ephemeral, plaintext, binding).value.1)
  {
  }

  lemma OpenSkippedSpends(s: State, i: nat, c: Ciphertext, binding: Bytes)
    requires Sound(s) && c.Ciphertext? && i < |s.skipped| && OpenSkipped(s, i, c, binding).Ok?
    ensures c.body.Sealed? && !Spent(s, c.body.key)
    ensures Keeps(s, OpenSkipped(s, i, c, binding).value.1)
    ensures Spent(OpenSkipped(s, i, c, binding).value.1, c.body.key)
  {
    var t := OpenSkipped(s, i, c, binding).value.1;
    assert Holds(s.skipped, s.skipped[i].key);
    forall j | 0 <= j < |t.skipped| ensures t.skipped[j] == s.skipped[if j < i then j else j + 1] {}
  }

  lemma OpenNextSpends(s: State, c: Ciphertext, binding: Bytes)
    requires Sound(s) && c.Ciphertext? && OpenNext(s, c, binding).Ok?
    ensures c.body.Sealed? && !Spent(s, c.body.key)
    ensures Keeps(s, OpenNext(s, c, binding).value.1)
    ensures Spent(OpenNext(s, c, binding).value.1, c.body.key)
  {
    SkipToKeeps(s, c.header.number);
    var t := SkipTo(s, c.header.number).value;
    assert c.body.key == MessageKey(t.receiveChain);
    assert !Behind(t, c.body.key);
  }

  /** One successful Open: its key was not spent before and is spent afterwards. */
  lemma OpenSpends(s: State, c: Ciphertext, binding: Bytes)
    requires Sound(s) && Open(s, c, binding).Ok?
    ensures c.Ciphertext? && c.body.Sealed?
    ensures !Spent(s, c.body.key)
    ensures Keeps(s, Open(s, c, binding).value.1)
    ensures Spent(Open(s, c, binding).value.1, c.body.key)
  {
    var i := FindSkipped(s.skipped, c.header.public, c.header.number);
    if i < |s.skipped| {
      OpenSkippedSpends(s, i, c, binding);
    } else {
      if c.header.public != s.peerPublic {
        SkipToKeeps(s, c.header.previousNumber);
        AdvanceReceivingKeeps(SkipTo(s, c.header.previousNumber).value, c.header.public);
      }
      OpenNextSpends(Turned(s, c.header).value, c, binding);
    }
  }

  /** Everything that may happen to one session state.  `Reload` is a trip through storage,
      which reorders the skipped keys; `Forget` drops the list of seen ciphertexts. */
  datatype Action =
    | DoSeal(ephemeral: nat, plaintext: Bytes, binding: Bytes)
    | DoOpen(ciphertext: Ciphertext, binding: Bytes)
    | Reload(order: seq<SkippedKey>)
    | Forget

  ghost predicate Moves(s: State, a: Action, t: State) {
    match a
    case DoSeal(ephemeral, plaintext, binding) =>
      var r := Seal(s, ephemeral, plaintext, binding);
      t == if r.Ok? then r.value.1 else s
    case DoOpen(c, binding) =>
      var r := Open(s, c, binding);
      t == if r.Ok? then r.value.1 else s
    case Reload(order) => multiset(order) == multiset(s.skipped) && t == s.(skipped := order)
    case Forget => t == s.(seen := [])
  }

  lemma ReloadKeeps(s: State, order: seq<SkippedKey>)
    requires Sound(s) && multiset(order) == multiset(s.skipped)
    ensures Keeps(s, s.(skipped := order))
  {
    var t := s.(skipped := order);
    PermutationMembers(order, s.skipped);
    forall i | 0 <= i < |order| ensures Behind(t, order[i].key) {
      assert order[i] in s.skipped;
    }
    assert Distinct(s.skipped);
    PermutationDistinct(s.skipped, order);
    forall i, j | 0 <= i < j < |order| ensures order[i].key != order[j].key {
      assert order[i] in s.skipped && order[j] in s.skipped;
    }
    forall k | Spent(s, k) ensures Spent(t, k) {
      forall i | 0 <= i < |order| ensures order[i].key != k {
        assert order[i] in s.skipped;
      }
    }
  }

  lemma MoveKeeps(s: State, a: Action, t: State)
    requires Sound(s) && Moves(s, a, t)
    ensures Keeps(s, t)
  {
    match a
    case DoSeal(ephemeral, plaintext, binding) =>
      if Seal(s, ephemeral, plaintext, binding).Ok? { SealKeeps(s, ephemeral, plaintext, binding); }
    case DoOpen(c, binding) =>
      if Open(s, c, binding).Ok? { OpenSpends(s, c, binding); }
    case Reload(order) => ReloadKeeps(s, order);
    case Forget =>
  }

  /** A session begins with Initiate or Accept. */
  ghost predicate Begins(s: State) {
    || (exists identity: nat, self: nat, peerIdentity: PublicKey, peerPrekey: PublicKey, binding: Bytes ::
          Initiate(identity, self, peerIdentity, peerPrekey, binding) == Ok(s))
    || (exists identity: nat, prekey: nat, remoteIdentity: PublicKey, peer: PublicKey, binding: Bytes ::
          Accept(identity, prekey, remoteIdentity, peer, binding) == Ok(s))
  }

  ghost predicate History(states: seq<State>, actions: seq<Action>) {
    var holds :=
      && |states| == |actions| + 1
      && Begins(states[0])
      && forall i :: 0 <= i < |actions| ==> Moves(states[i], actions[i], states[i + 1]);
    holds
  }

  lemma {:induction false} HistorySound(states: seq<State>, actions: seq<Action>, j: nat)
    requires History(states, actions) && j < |states|
    ensures Sound(states[j])
  {
    if j > 0 {
      HistorySound(states, actions, j - 1);
      MoveKeeps(states[j - 1], actions[j - 1], states[j]);
    }
  }

  lemma {:induction false} SpentForever(states: seq<State>, actions: seq<Action>, i: nat, j: nat, k: MessageKey)
    requires History(states, actions) && i <= j < |states| && Spent(states[i], k)
    ensures Spent(states[j], k)
  {
    if i < j {
      SpentForever(states, actions, i, j - 1, k);
      HistorySound(states, actions, j - 1);
      MoveKeeps(states[j - 1], actions[j - 1], states[j]);
    }
  }

  /** No ciphertext opens twice along one receiver's history, under any binding, even after its
      digest has been evicted or the whole seen list dropped, and after any ratchet turns. */
  lemma AtMostOnce(states: seq<State>, actions: seq<Action>, i: nat, j: nat, c: Ciphertext, first: Bytes, again: Bytes)
    requires History(states, actions) && i < j < |states|
    requires actions[i] == DoOpen(c, first) && Open(states[i], c, first).Ok?
    ensures Open(states[j], c, again).Err?
  {
    HistorySound(states, actions, i);
    OpenSpends(states[i], c, first);
    SpentForever(states, actions, i + 1, j, c.body.key);
    HistorySound(states, actions, j);
    if Open(states[j], c, again).Ok? {
      OpenSpends(states[j], c, again);
      assert false;
    }
  }

  /** Every successful Open of a history uses a message key no other successful Open uses. */
  lemma KeyOpensOnce(states: seq<State>, actions: seq<Action>, i: nat, j: nat)
    requires History(states, actions) && i < j < |actions|
    requires actions[i].DoOpen? && Open(states[i], actions[i].ciphertext, actions[i].binding).Ok?
    requires actions[j].DoOpen? && Open(states[j], actions[j].ciphertext, actions[j].binding).Ok?
    ensures actions[i].ciphertext.Ciphertext? && actions[i].ciphertext.body.Sealed?
    ensures actions[j].ciphertext.Ciphertext? && actions[j].ciphertext.body.Sealed?
    ensures actions[i].ciphertext.body.key != actions[j].ciphertext.body.key
  {
    HistorySound(states, actions, i);
    OpenSpends(states[i], actions[i].ciphertext, actions[i].binding);
    SpentForever(states, actions, i + 1, j, actions[i].ciphertext.body.key);
    HistorySound(states, actions, j);
    OpenSpends(states[j], actions[j].ciphertext, actions[j].binding);
  }
}
