/** Fixed-width big-endian numbers, as encoding/binary writes and reads them. */
module BigEndian {
  import opened Foundation

  function Power(width: nat): (p: nat)
    ensures p >= 1
  {
    if width == 0 then 1 else 256 * Power(width - 1)
  }

  function Encode(n: nat, width: nat): (b: Bytes)
    ensures |b| == width
  {
    if width == 0 then [] else Encode(n / 256, width - 1) + [(n % 256) as byte]
  }

  function Decode(b: Bytes): nat {
    if b == [] then 0 else 256 * Decode(b[..|b| - 1]) + b[|b| - 1] as nat
  }

  lemma {:induction false} DecodeEncode(n: nat, width: nat)
    requires n < Power(width)
    ensures Decode(Encode(n, width)) == n
  {
    if width > 0 {
      DecodeEncode(n / 256, width - 1);
      assert Encode(n, width)[..width - 1] == Encode(n / 256, width - 1);
    }
  }

  lemma {:induction false} EncodeDecode(b: Bytes)
    ensures Decode(b) < Power(|b|) && Encode(Decode(b), |b|) == b
  {
    if b != [] {
      var front := b[..|b| - 1];
      EncodeDecode(front);
      assert Decode(b) / 256 == Decode(front);
      assert b == front + [b[|b| - 1]];
    }
  }

  lemma Limits()
    ensures Power(2) == 0x1_0000 && Power(4) == UINT32_LIMIT && Power(8) == UINT64_LIMIT
  {
    assert Power(1) == 256;
    assert Power(2) == 256 * Power(1);
    assert Power(3) == 256 * Power(2);
    assert Power(4) == 256 * Power(3);
    assert Power(5) == 256 * Power(4);
    assert Power(6) == 256 * Power(5);
    assert Power(7) == 256 * Power(6);
  }

  /** Equal-width encodings of numbers in range are equal only for equal numbers. */
  lemma EncodeInjective(m: nat, n: nat, width: nat)
    requires m < Power(width) && n < Power(width) && Encode(m, width) == Encode(n, width)
    ensures m == n
  {
    DecodeEncode(m, width);
    DecodeEncode(n, width);
  }
}
