/** The schedule of an honest session: which key starts which chain, and so every message key.

    Chains alternate.  Party 1 is the initiator: it owns chain 1, the handshake chain.  Index 0
    stands for the responder's prekey, on which no chain is ever sent. */
module RatchetSchedule {
  import opened Foundation
  import opened SymbolicCrypto
  import opened Ratchet

  datatype Schedule = Schedule(seed: Root, keys: seq<nat>)

  datatype MessageId = MessageId(chain: nat, number: nat)

  /** The party that sends on chain k. */
  function Owner(k: nat): (p: nat)
    ensures p < 2
  {
    if k == 0 then 0 else 1 - Owner(k - 1)
  }

  ghost predicate ValidSchedule(c: Schedule) {
    && c.seed.InitialRoot?
    && |c.keys| >= 2
    && Distinct(c.keys)
  }

  ghost predicate InSchedule(c: Schedule, id: MessageId) {
    1 <= id.chain < |c.keys| && id.number < UINT32_LIMIT
  }

  function RootAt(c: Schedule, k: nat): Root
    requires 1 <= k < |c.keys|
  {
    if k == 1 then c.seed else NextRoot(RootAt(c, k - 1), Ecdh(c.keys[k], Pub(c.keys[k - 1])).value)
  }

  function ChainAt(c: Schedule, k: nat, n: nat): Chain
    requires 1 <= k < |c.keys|
  {
    Advance(ChainOf(RootAt(c, k)), n)
  }

  function KeyAt(c: Schedule, id: MessageId): MessageKey
    requires 1 <= id.chain < |c.keys|
  {
    MessageKey(ChainAt(c, id.chain, id.number))
  }

  function SkipFor(c: Schedule, id: MessageId): SkippedKey
    requires InSchedule(c, id)
  {
    SkippedKey(Pub(c.keys[id.chain]), id.number, KeyAt(c, id))
  }

  /** The message a key belongs to can be read off the key. */
  function IdOf(k: MessageKey): MessageId {
    match Origin(k.chain)
    case None => MessageId(0, 0)
    case Some(r) => MessageId(Turn(r), Position(k.chain))
  }

  /** The handshake root a root descends from. */
  function Seed(r: Root): Root {
    match r
    case InitialRoot(_, _, _, _) => r
    case NextRoot(p, _) => Seed(p)
  }

  lemma {:induction false} RootAtTurn(c: Schedule, k: nat)
    requires c.seed.InitialRoot? && 1 <= k < |c.keys|
    ensures Turn(RootAt(c, k)) == k && Seed(RootAt(c, k)) == c.seed
  {
    if k > 1 { RootAtTurn(c, k - 1); }
  }

  /** Message keys are pairwise different over all chains and numbers of a session. */
  lemma IdOfKeyAt(c: Schedule, id: MessageId)
    requires c.seed.InitialRoot? && 1 <= id.chain < |c.keys|
    ensures Origin(KeyAt(c, id).chain) == Some(RootAt(c, id.chain))
    ensures Position(KeyAt(c, id).chain) == id.number
    ensures IdOf(KeyAt(c, id)) == id
  {
    RootAtTurn(c, id.chain);
    AdvanceMeasures(ChainOf(RootAt(c, id.chain)), id.number);
  }

  ghost predicate Extends(c: Schedule, d: Schedule) {
    c.seed == d.seed && |c.keys| <= |d.keys| && d.keys[..|c.keys|] == c.keys
  }

  lemma {:induction false} RootAtExtends(c: Schedule, d: Schedule, k: nat)
    requires Extends(c, d) && 1 <= k < |c.keys|
    ensures RootAt(c, k) == RootAt(d, k)
  {
    if k > 1 { RootAtExtends(c, d, k - 1); }
    assert d.keys[..|c.keys|][k] == d.keys[k] && d.keys[..|c.keys|][k - 1] == d.keys[k - 1];
  }

  lemma SkipForExtends(c: Schedule, d: Schedule, id: MessageId)
    requires Extends(c, d) && InSchedule(c, id)
    ensures InSchedule(d, id) && SkipFor(c, id) == SkipFor(d, id)
  {
    RootAtExtends(c, d, id.chain);
    assert d.keys[..|c.keys|][id.chain] == d.keys[id.chain];
  }

  // ----------------------------------------------- exact content of a skipped list

  /** The list holds one correct key for each message of `ids`, and nothing else. */
  ghost predicate HoldsExactly(c: Schedule, skipped: seq<SkippedKey>, ids: iset<MessageId>) {
    && (forall id :: id in ids ==> InSchedule(c, id))
    && Distinct(skipped)
    && (forall x :: x in skipped ==> IdOf(x.key) in ids && x == SkipFor(c, IdOf(x.key)))
    && (forall id :: id in ids ==> SkipFor(c, id) in skipped)
  }

  lemma HoldsExtends(c: Schedule, d: Schedule, skipped: seq<SkippedKey>, ids: iset<MessageId>)
    requires Extends(c, d) && HoldsExactly(c, skipped, ids)
    ensures HoldsExactly(d, skipped, ids)
  {
    forall id | id in ids ensures InSchedule(d, id) && SkipFor(c, id) == SkipFor(d, id) {
      SkipForExtends(c, d, id);
    }
  }

  lemma HoldsPermuted(c: Schedule, skipped: seq<SkippedKey>, order: seq<SkippedKey>, ids: iset<MessageId>)
    requires HoldsExactly(c, skipped, ids) && multiset(order) == multiset(skipped)
    ensures HoldsExactly(c, order, ids)
  {
    PermutationMembers(order, skipped);
    PermutationDistinct(skipped, order);
  }

  ghost function Run(k: nat, from: nat, to: nat): iset<MessageId> {
    iset id: MessageId | id.chain == k && from <= id.number < to
  }

  lemma HoldsAppend(c: Schedule, skipped: seq<SkippedKey>, ids: iset<MessageId>, k: nat, from: Uint32, to: Uint32)
    requires c.seed.InitialRoot? && HoldsExactly(c, skipped, ids) && 1 <= k < |c.keys| && from <= to
    requires ids !! Run(k, from, to)
    ensures HoldsExactly(c, skipped + SkippedRun(Pub(c.keys[k]), ChainAt(c, k, from), from, to), ids + Run(k, from, to))
  {
    var run := SkippedRun(Pub(c.keys[k]), ChainAt(c, k, from), from, to);
    forall i: nat | i < |run| ensures run[i] == SkipFor(c, MessageId(k, from + i)) {
      AdvanceAdds(ChainOf(RootAt(c, k)), from, i);
    }
    var all, grown := skipped + run, ids + Run(k, from, to);
    forall id | InSchedule(c, id) ensures IdOf(SkipFor(c, id).key) == id { IdOfKeyAt(c, id); }
    forall x | x in all ensures IdOf(x.key) in grown && InSchedule(c, IdOf(x.key)) && x == SkipFor(c, IdOf(x.key)) {
      if x !in skipped {
        var i :| 0 <= i < |run| && run[i] == x;
        assert MessageId(k, from + i) in Run(k, from, to);
      }
    }
    forall id | id in grown ensures SkipFor(c, id) in all {
      if id !in ids { assert run[id.number - from] == SkipFor(c, id); }
    }
    forall i, j | 0 <= i < j < |all| ensures all[i] != all[j] {
      if j >= |skipped| {
        var b := MessageId(k, from + (j - |skipped|));
        assert all[j] == run[j - |skipped|] == SkipFor(c, b);
        assert b in Run(k, from, to);
        if i >= |skipped| {
          assert all[i] == run[i - |skipped|] == SkipFor(c, MessageId(k, from + (i - |skipped|)));
        } else {
          assert all[i] in skipped;
        }
      }
    }
  }

  lemma HoldsRemove(c: Schedule, skipped: seq<SkippedKey>, ids: iset<MessageId>, i: nat)
    requires c.seed.InitialRoot? && HoldsExactly(c, skipped, ids) && i < |skipped|
    ensures HoldsExactly(c, skipped[..i] + skipped[i + 1..], ids - iset{IdOf(skipped[i].key)})
  {
    DistinctRemove(skipped, i);
    var gone := IdOf(skipped[i].key);
    var rest := skipped[..i] + skipped[i + 1..];
    assert skipped[i] in skipped;
    forall id | id in ids && id != gone ensures SkipFor(c, id) in rest {
      IdOfKeyAt(c, id);
    }
    forall x | x in rest ensures IdOf(x.key) != gone {
      assert x in skipped;
    }
  }

  /** In a session whose public keys differ, an identity is found exactly when its message is held. */
  lemma FindHeld(c: Schedule, skipped: seq<SkippedKey>, ids: iset<MessageId>, id: MessageId)
    requires ValidSchedule(c) && HoldsExactly(c, skipped, ids) && InSchedule(c, id)
    ensures var i := FindSkipped(skipped, Pub(c.keys[id.chain]), id.number);
            if id in ids then i < |skipped| && skipped[i] == SkipFor(c, id) else i == |skipped|
  {
    var i := FindSkipped(skipped, Pub(c.keys[id.chain]), id.number);
    if i < |skipped| {
      assert skipped[i] in skipped;
      var found := IdOf(skipped[i].key);
      assert skipped[i] == SkipFor(c, found);
      assert c.keys[found.chain] == c.keys[id.chain];
      assert found == id;
    }
  }

  lemma HoldsIdentities(c: Schedule, skipped: seq<SkippedKey>, ids: iset<MessageId>)
    requires ValidSchedule(c) && HoldsExactly(c, skipped, ids)
    ensures Distinct(Identities(skipped))
  {
    var identities := Identities(skipped);
    forall i, j | 0 <= i < j < |identities| ensures identities[i] != identities[j] {
      assert skipped[i] in skipped && skipped[j] in skipped;
      var a, b := IdOf(skipped[i].key), IdOf(skipped[j].key);
      assert skipped[i] == SkipFor(c, a) && skipped[j] == SkipFor(c, b);
    }
  }
}
