/** Every state of an honest run survives a trip through storage.

    An interpretation gives each symbolic term its 32 bytes.  All that is asked of it is that
    it does not identify, within one state, public keys or digests that differ, and that public
    keys belong to their private keys. */
module RatchetStorage {
  import opened Foundation
  import opened SymbolicCrypto
  import opened Ratchet
  import opened RatchetCodec
  import opened RatchetWorld
  import opened RatchetProtocol

  datatype Interpretation = Interpretation(
    root: Root -> Word,
    private: nat -> Word,
    public: PublicKey -> Word,
    chain: Chain -> Word,
    key: MessageKey -> Word,
    digest: CiphertextDigest -> Word,
    publicOf: Word -> Word)

  function Entry(i: Interpretation): SkippedKey -> SkippedRecord {
    (x: SkippedKey) => SkippedRecord(i.public(x.public), x.number, i.key(x.key))
  }

  function Map<S, T>(f: S -> T, s: seq<S>): (r: seq<T>)
    ensures |r| == |s|
    ensures forall k :: 0 <= k < |s| ==> r[k] == f(s[k])
  {
    if s == [] then [] else [f(s[0])] + Map(f, s[1..])
  }

  /** The record the source holds for a symbolic state. */
  function Concrete(i: Interpretation, s: State): Record {
    Record(i.root(s.root), i.private(s.self), i.public(s.selfPublic), i.public(s.peerPublic),
           i.chain(s.sendChain), i.chain(s.receiveChain), s.hasSend, s.hasReceive,
           s.sendNumber, s.receiveNumber, s.previousSendNumber,
           Map(Entry(i), s.skipped), Map(i.digest, s.seen))
  }

  ghost predicate Faithful(i: Interpretation, s: State) {
    && i.chain(NoChain) == ZERO
    && i.publicOf(i.private(s.self)) == i.public(Pub(s.self))
    && (forall a, b :: 0 <= a < |s.skipped| && 0 <= b < |s.skipped| ==>
          i.public(s.skipped[a].public) == i.public(s.skipped[b].public) ==> s.skipped[a].public == s.skipped[b].public)
    && (forall a, b :: 0 <= a < |s.seen| && 0 <= b < |s.seen| ==>
          i.digest(s.seen[a]) == i.digest(s.seen[b]) ==> s.seen[a] == s.seen[b])
  }

  lemma {:induction false} InsertCommutes(f: SkippedKey -> SkippedRecord, x: SkippedKey, s: seq<SkippedKey>)
    ensures Map(f, InsertBy(f, x, s)) == InsertBy(y => y, f(x), Map(f, s))
  {
    if s != [] && !Leq(f(x), f(s[0])) {
      InsertCommutes(f, x, s[1..]);
      assert Map(f, s)[1..] == Map(f, s[1..]);
      assert Map(f, [s[0]] + InsertBy(f, x, s[1..])) == [f(s[0])] + Map(f, InsertBy(f, x, s[1..]));
    } else {
      assert Map(f, [x] + s) == [f(x)] + Map(f, s);
    }
  }

  /** Sorting the records is reordering the symbolic keys. */
  lemma {:induction false} SortCommutes(f: SkippedKey -> SkippedRecord, s: seq<SkippedKey>)
    ensures Map(f, SortBy(f, s)) == Sort(Map(f, s))
  {
    if s != [] {
      SortCommutes(f, s[1..]);
      assert Map(f, s)[1..] == Map(f, s[1..]);
      InsertCommutes(f, s[0], SortBy(f, s[1..]));
    }
  }

  lemma ConcreteAcceptable(i: Interpretation, s: State)
    requires Loadable(s) && Faithful(i, s)
    ensures Acceptable(Concrete(i, s), i.publicOf)
  {
    var r := Concrete(i, s);
    forall a, b | 0 <= a < b < |r.skipped| ensures RatchetCodec.Identities(r.skipped)[a] != RatchetCodec.Identities(r.skipped)[b] {
      assert Ratchet.Identities(s.skipped)[a] != Ratchet.Identities(s.skipped)[b];
    }
    assert Distinct(r.seen);
  }

  lemma ReorderedFaithful(i: Interpretation, s: State, order: seq<SkippedKey>)
    requires Loadable(s) && Faithful(i, s) && multiset(order) == multiset(s.skipped)
    ensures var t := s.(skipped := order); Loadable(t) && Faithful(i, t)
  {
    PermutationMembers(order, s.skipped);
    forall x | x in order ensures x in s.skipped {}
    IdentitiesPermuted(s.skipped, order);
    forall a, b | 0 <= a < |order| && 0 <= b < |order| && i.public(order[a].public) == i.public(order[b].public)
      ensures order[a].public == order[b].public
    {
      assert order[a] in s.skipped && order[b] in s.skipped;
      var c :| 0 <= c < |s.skipped| && s.skipped[c] == order[a];
      var d :| 0 <= d < |s.skipped| && s.skipped[d] == order[b];
    }
  }

  lemma IdentitiesPermuted(s: seq<SkippedKey>, order: seq<SkippedKey>)
    requires Distinct(Ratchet.Identities(s)) && multiset(order) == multiset(s)
    ensures Distinct(Ratchet.Identities(order))
  {
    PermutationMembers(order, s);
    forall a, b | 0 <= a < b < |s| ensures s[a] != s[b] {
      assert Ratchet.Identities(s)[a] != Ratchet.Identities(s)[b];
    }
    PermutationDistinct(s, order);
    forall a, b | 0 <= a < b < |order| ensures Ratchet.Identities(order)[a] != Ratchet.Identities(order)[b] {
      assert order[a] in s && order[b] in s;
      var c :| 0 <= c < |s| && s[c] == order[a];
      var d :| 0 <= d < |s| && s[d] == order[b];
      assert Ratchet.Identities(s)[c] != Ratchet.Identities(s)[d];
    }
  }

  /** A loadable state is stored within its bound and read back as itself, its skipped keys in
      sorted order: storage is a Reload step. */
  lemma Survives(i: Interpretation, s: State)
    requires Loadable(s) && Faithful(i, s)
    ensures var order := SortBy(Entry(i), s.skipped);
            && multiset(order) == multiset(s.skipped)
            && Encode(Concrete(i, s)).Ok?
            && Decode(Encode(Concrete(i, s)).value, i.publicOf) == Ok(Concrete(i, s.(skipped := order)))
            && Encode(Concrete(i, s.(skipped := order))) == Encode(Concrete(i, s))
  {
    var order := SortBy(Entry(i), s.skipped);
    SortPermutes(Entry(i), s.skipped);
    SortCommutes(Entry(i), s.skipped);
    ReorderedFaithful(i, s, order);
    ConcreteAcceptable(i, s.(skipped := order));
    StoreLoad(Concrete(i, s), i.publicOf);
    SortSorts(Concrete(i, s).skipped);
    SortFixed(Sort(Concrete(i, s).skipped));
  }

  /** No state an honest run reaches is ever refused by storage, and loading it is a step of the
      run that changes nothing but the order of the skipped keys. */
  lemma RunSurvivesStorage(ws: seq<World>, steps: seq<Step>, j: nat, p: nat, i: Interpretation)
    requires IsRun(ws, steps) && j < |ws| && p < 2
    requires |ws[j].party| == 2 && Faithful(i, ws[j].party[p])
    ensures Inv(ws[j])
    ensures var s := ws[j].party[p];
            var order := SortBy(Entry(i), s.skipped);
            && Encode(Concrete(i, s)).Ok?
            && Decode(Encode(Concrete(i, s)).value, i.publicOf) == Ok(Concrete(i, s.(skipped := order)))
            && Takes(ws[j], ReloadStep(p, order), Assembled(ws[j].book, p, s.(skipped := order), ws[j].party[1 - p]))
  {
    RunConserves(ws, steps, j, p);
    Survives(i, ws[j].party[p]);
  }
}
