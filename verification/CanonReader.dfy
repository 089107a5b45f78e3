/** The stateful reader of internal/canon/reader.go: a buffer, an offset and a latched error. */
module CanonReader {
  import opened Foundation
  import BigEndian
  import opened Canon

  /** What a read yields from a reader in state `st`: nothing once an error is latched. */
  function Next(st: Option<Bytes>, k: Kind): Option<(Value, Bytes)> {
    if st.None? then None else Read(st.value, k)
  }

  /** The state a read leaves. */
  function Left(got: Option<(Value, Bytes)>): Option<Bytes> {
    if got.None? then None else Some(got.value.1)
  }

  function NextAll(st: Option<Bytes>, ks: seq<Kind>): Option<(seq<Value>, Bytes)> {
    if st.None? then None else ReadAll(st.value, ks)
  }

  function NextRows(st: Option<Bytes>, row: seq<Kind>, n: nat): Option<(seq<Row>, Bytes)> {
    if st.None? then None else ReadRows(st.value, row, n)
  }

  class Reader {
    const buffer: Bytes
    var offset: nat
    var failed: bool

    predicate Valid()
      reads this
    {
      offset <= |buffer|
    }

    /** The unread bytes, or None once an error is latched. */
    function State(): Option<Bytes>
      requires Valid()
      reads this
    {
      if failed then None else Some(buffer[offset..])
    }

    constructor (domain: Bytes, preimage: Bytes)
      ensures Valid()
      ensures State() == if domain <= preimage then Some(preimage[|domain|..]) else None
    {
      buffer := preimage;
      if |preimage| < |domain| || preimage[..|domain|] != domain {
        failed := true;
        offset := 0;
      } else {
        failed := false;
        offset := |domain|;
      }
    }

    method Take(count: nat) returns (raw: Option<Bytes>)
      requires Valid()
      modifies this
      ensures Valid()
      ensures old(State()).Some? && count <= |old(State()).value|
              ==> raw == Some(old(State()).value[..count]) && State() == Some(old(State()).value[count..])
      ensures !(old(State()).Some? && count <= |old(State()).value|)
              ==> raw == None && State() == None && offset == old(offset)
    {
      if failed {
        return None;
      }
      if offset + count > |buffer| {
        failed := true;
        return None;
      }
      assert buffer[offset..][..count] == buffer[offset..offset + count];
      assert buffer[offset..][count..] == buffer[offset + count..];
      raw := Some(buffer[offset..offset + count]);
      offset := offset + count;
    }

    method Uint8() returns (n: byte)
      requires Valid()
      modifies this
      ensures Valid() && State() == Left(Next(old(State()), Number8))
      ensures State().Some? ==> N8(n) == Next(old(State()), Number8).value.0
      ensures State().None? ==> n == 0
    {
      var raw := Take(1);
      n := if raw.None? then 0 else raw.value[0];
    }

    method Uint32() returns (n: Uint32)
      requires Valid()
      modifies this
      ensures Valid() && State() == Left(Next(old(State()), Number32))
      ensures State().Some? ==> N32(n) == Next(old(State()), Number32).value.0
      ensures State().None? ==> n == 0
    {
      var raw := Take(4);
      if raw.None? {
        return 0;
      }
      NumberFits(raw.value);
      n := BigEndian.Decode(raw.value);
    }

    method Uint64() returns (n: Uint64)
      requires Valid()
      modifies this
      ensures Valid() && State() == Left(Next(old(State()), Number64))
      ensures State().Some? ==> N64(n) == Next(old(State()), Number64).value.0
      ensures State().None? ==> n == 0
    {
      var raw := Take(8);
      if raw.None? {
        return 0;
      }
      NumberFits(raw.value);
      n := BigEndian.Decode(raw.value);
    }

    method BlobField(max: nat) returns (x: Option<Bytes>)
      requires Valid()
      modifies this
      ensures Valid() && State() == Left(Next(old(State()), Blob(max)))
      ensures State().Some? ==> x.Some? && B(x.value) == Next(old(State()), Blob(max)).value.0
      ensures State().None? ==> x == None
    {
      var length := Uint32();
      if failed {
        return None;
      }
      if length > max {
        failed := true;
        return None;
      }
      x := Take(length);
    }

    method TextField(max: nat) returns (t: Bytes)
      requires Valid()
      modifies this
      ensures Valid() && State() == Left(Next(old(State()), Text(max)))
      ensures State().Some? ==> T(t) == Next(old(State()), Text(max)).value.0
      ensures State().None? ==> t == []
    {
      var raw := BlobField(max);
      if raw.None? {
        return [];
      }
      if !ValidUtf8(raw.value) {
        failed := true;
        return [];
      }
      t := raw.value;
    }

    method Hash32() returns (h: Bytes)
      requires Valid()
      modifies this
      ensures Valid() && State() == Left(Next(old(State()), Hash))
      ensures State().Some? ==> H(h) == Next(old(State()), Hash).value.0
      ensures State().None? ==> h == []
    {
      var raw := BlobField(32);
      if raw.None? {
        return [];
      }
      if |raw.value| != 32 {
        failed := true;
        return [];
      }
      h := raw.value;
    }

    /** A length prefix within the bound, or zero: a caller that loops on it regardless reads
        nothing after a failure. */
    method Count(max: nat) returns (n: Uint32)
      requires Valid()
      modifies this
      ensures Valid() && n <= max
      ensures State().Some? ==> Next(old(State()), Number32) == Some((N32(n), State().value))
      ensures State().None? ==> n == 0
      ensures State().None? <==> Next(old(State()), Number32).None? || Next(old(State()), Number32).value.0.n32 > max
    {
      n := Uint32();
      if failed {
        return 0;
      }
      if n > max {
        failed := true;
        return 0;
      }
    }

    method Done() returns (ok: bool)
      requires Valid()
      ensures ok <==> State() == Some([])
    {
      assert offset == |buffer| <==> buffer[offset..] == [];
      ok := !failed && offset == |buffer|;
    }

    /** A decoder that never looks at an error until Done: the latch makes that safe. */
    method Field(k: Kind) returns (v: Value)
      requires Valid()
      modifies this
      ensures Valid() && State() == Left(Next(old(State()), k))
      ensures State().Some? ==> v == Next(old(State()), k).value.0
      decreases k, 0, 0
    {
      match k {
        case Number8 => var n := Uint8(); v := N8(n);
        case Number32 => var n := Uint32(); v := N32(n);
        case Number64 => var n := Uint64(); v := N64(n);
        case Blob(max) => var x := BlobField(max); v := B(if x.Some? then x.value else []);
        case Text(max) => var t := TextField(max); v := T(t);
        case Hash => var h := Hash32(); v := H(h);
        case Repeated(max, row) =>
          var n := Count(max);
          var rows := RowFields(row, n);
          v := Rows(rows);
      }
    }

    method Fields(ks: seq<Kind>) returns (vs: seq<Value>)
      requires Valid()
      modifies this
      ensures Valid()
      ensures State() == (var got := NextAll(old(State()), ks); if got.None? then None else Some(got.value.1))
      ensures State().Some? ==> vs == NextAll(old(State()), ks).value.0
      decreases ks, 0, 0
    {
      if ks == [] {
        return [];
      }
      var v := Field(ks[0]);
      var rest := Fields(ks[1..]);
      vs := [v] + rest;
    }

    method RowFields(row: seq<Kind>, n: nat) returns (rows: seq<Row>)
      requires Valid()
      modifies this
      ensures Valid()
      ensures State() == (var got := NextRows(old(State()), row, n); if got.None? then None else Some(got.value.1))
      ensures State().Some? ==> rows == NextRows(old(State()), row, n).value.0
      decreases row, 1, 0
    {
      rows := [];
      PrependedEmpty(NextRows(State(), row, n));
      for i := 0 to n
        invariant Valid()
        invariant NextRows(old(State()), row, n) == Prepended(rows, NextRows(State(), row, n - i))
      {
        ghost var before, start := rows, State();
        var cells := Fields(row);
        rows := rows + [Row(cells)];
        RowsGrow(before, start, row, n - i);
      }
    }
  }

  lemma RowsGrow(before: seq<Row>, st: Option<Bytes>, row: seq<Kind>, n: nat)
    requires n > 0
    ensures var got := NextAll(st, row);
            Prepended(before, NextRows(st, row, n)) ==
            if got.None? then None else Prepended(before + [Row(got.value.0)], NextRows(Some(got.value.1), row, n - 1))
  {
    var got := NextAll(st, row);
    if got.Some? {
      PrependedAgain(before, [Row(got.value.0)], NextRows(Some(got.value.1), row, n - 1));
    }
  }

  /** Read every field without a look at any error, then ask Done. */
  method Decode(domain: Bytes, preimage: Bytes, ks: seq<Kind>) returns (r: Option<seq<Value>>)
    ensures r == Parse(domain, preimage, ks)
    ensures r.Some? ==> FitAll(r.value, ks) && preimage == domain + WriteAll(r.value)
  {
    var reader := new Reader(domain, preimage);
    var vs := reader.Fields(ks);
    var ok := reader.Done();
    r := if ok then Some(vs) else None;
    if r.Some? {
      ParseIsExact(domain, preimage, ks);
    }
  }
}
