/** Shared vocabulary: bytes, machine words and result types.

    A note on style, for all modules: a predicate that is mostly passed on from one lemma to the
    next is written `var holds := ...; holds`.  A conjunction on its face is split into one proof
    obligation a conjunct wherever it is required or ensured; named first, it is one fact. */
module Foundation {

  newtype byte = x: int | 0 <= x < 256

  type Bytes = seq<byte>

  const UINT32_LIMIT: nat := 0x1_0000_0000
  const UINT64_LIMIT: nat := 0x1_0000_0000_0000_0000

  type Uint32 = n: int | 0 <= n < UINT32_LIMIT
  type Uint64 = n: int | 0 <= n < UINT64_LIMIT

  /** The bytes of a plain ASCII text. */
  function Ascii(s: string): (b: Bytes)
    ensures |b| == |s|
  {
    seq(|s|, i requires 0 <= i < |s| => (s[i] as int % 256) as byte)
  }

  /** True of an all-zero (also an empty) byte string. */
  predicate IsZero(b: Bytes) {
    forall i :: 0 <= i < |b| ==> b[i] == 0
  }

  function Min(a: int, b: int): int {
    if a < b then a else b
  }

  /** Nanoseconds in a second. */
  const SECOND: nat := 1_000_000_000

  /** Instants are nanoseconds; everything signed or stored is in whole seconds. */
  function Unix(t: int): int {
    t / SECOND
  }

  datatype Option<+T> = None | Some(value: T)

  datatype Result<+T, +E> = Ok(value: T) | Err(error: E)

  /** True when no value occurs at two positions. */
  ghost predicate Distinct<T>(s: seq<T>) {
    forall i, j :: 0 <= i < j < |s| ==> s[i] != s[j]
  }

  /** Removing one position of a distinct list removes exactly that value. */
  lemma DistinctRemove<T>(s: seq<T>, i: nat)
    requires i < |s| && Distinct(s)
    ensures Distinct(s[..i] + s[i + 1..])
    ensures s[i] !in s[..i] + s[i + 1..]
    ensures forall x :: x in s[..i] + s[i + 1..] <==> x in s && x != s[i]
  {
    var r := s[..i] + s[i + 1..];
    forall x | x in s && x != s[i] ensures x in r {
      var k :| 0 <= k < |s| && s[k] == x;
      assert r[if k < i then k else k - 1] == x;
    }
  }

  /** Reordering a list changes neither its members nor whether it repeats one. */
  lemma PermutationMembers<T>(s: seq<T>, t: seq<T>)
    requires multiset(s) == multiset(t)
    ensures |s| == |t|
    ensures forall x :: x in s <==> x in t
  {
    assert |multiset(s)| == |s| && |multiset(t)| == |t|;
    forall x ensures x in s <==> x in t {
      assert x in s <==> x in multiset(s);
      assert x in t <==> x in multiset(t);
    }
  }

  lemma DistinctCounts<T>(s: seq<T>)
    requires Distinct(s)
    ensures forall x :: multiset(s)[x] <= 1
  {
    if s != [] {
      var front, last := s[..|s| - 1], s[|s| - 1];
      assert s == front + [last];
      DistinctCounts(front);
    }
  }

  lemma CountsDistinct<T>(s: seq<T>)
    requires forall x :: multiset(s)[x] <= 1
    ensures Distinct(s)
  {
    forall i, j | 0 <= i < j < |s| ensures s[i] != s[j] {
      assert s == s[..j] + s[j..];
      assert multiset(s)[s[j]] == multiset(s[..j])[s[j]] + multiset(s[j..])[s[j]];
      assert s[i] in s[..j] && s[j] in s[j..];
    }
  }

  lemma PermutationDistinct<T>(s: seq<T>, t: seq<T>)
    requires multiset(s) == multiset(t) && Distinct(s)
    ensures Distinct(t)
  {
    DistinctCounts(s);
    CountsDistinct(t);
  }

  lemma DistinctSnoc<T>(s: seq<T>, x: T)
    ensures Distinct(s + [x]) <==> Distinct(s) && x !in s
  {
    var t := s + [x];
    if Distinct(t) {
      forall i | 0 <= i < |s| ensures s[i] != x { assert t[i] != t[|s|]; }
      forall i, j | 0 <= i < j < |s| ensures s[i] != s[j] { assert t[i] != t[j]; }
    }
  }

  /** Taking everything takes the sequence: the fact without its extensional proof. */
  lemma TakeAll<T>(s: seq<T>)
    ensures s[..|s|] == s
  {
  }

  lemma DistinctSlice<T>(s: seq<T>, start: nat, end: nat)
    requires start <= end <= |s| && Distinct(s)
    ensures Distinct(s[start..end])
  {
  }

  /** The sum of a measure over a list. */
  function SumOf<T>(measure: T -> nat, s: seq<T>): nat {
    if s == [] then 0 else SumOf(measure, s[..|s| - 1]) + measure(s[|s| - 1])
  }

  /** What a reader has so far, in front of what it goes on to read. */
  function Prepended<T>(front: seq<T>, r: Option<(seq<T>, Bytes)>): Option<(seq<T>, Bytes)> {
    if r.None? then None else Some((front + r.value.0, r.value.1))
  }

  lemma PrependedEmpty<T>(r: Option<(seq<T>, Bytes)>)
    ensures Prepended([], r) == r
  {
    if r.Some? { assert [] + r.value.0 == r.value.0; }
  }

  lemma PrependedAgain<T>(a: seq<T>, b: seq<T>, r: Option<(seq<T>, Bytes)>)
    ensures Prepended(a, Prepended(b, r)) == Prepended(a + b, r)
  {
    if r.Some? { assert a + (b + r.value.0) == (a + b) + r.value.0; }
  }

  /** Duplicate detection with a set of the values met so far. */
  method AllDistinct<T(==)>(s: seq<T>) returns (ok: bool)
    ensures ok <==> Distinct(s)
  {
    var met: set<T> := {};
    for i := 0 to |s|
      invariant forall x :: x in met <==> x in s[..i]
      invariant Distinct(s[..i])
    {
      if s[i] in met {
        var j :| 0 <= j < i && s[..i][j] == s[i];
        assert s[j] == s[i];
        return false;
      }
      met := met + {s[i]};
      assert s[..i + 1] == s[..i] + [s[i]];
    }
    assert s[..|s|] == s;
    return true;
  }
}
