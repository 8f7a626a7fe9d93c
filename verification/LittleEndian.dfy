/** Fixed-width little-endian numbers. */
module LittleEndian {
  import opened Primitives

  type U16 = n: nat | n < 0x1_0000

  type U32 = n: nat | n < 0x1_0000_0000

  type U64 = n: nat | n < 0x1_0000_0000_0000_0000

  /** Little-endian bytes of a number below 256^k. */
  function ToLE(n: nat, k: nat): (bytes: seq<Byte>)
    ensures |bytes| == k
  {
    if k == 0 then [] else [n % 256] + ToLE(n / 256, k - 1)
  }

  function FromLE(bytes: seq<Byte>): nat {
    if bytes == [] then 0 else bytes[0] + 256 * FromLE(bytes[1..])
  }

  function Pow256(k: nat): nat {
    if k == 0 then 1 else 256 * Pow256(k - 1)
  }

  lemma {:induction false} LERoundTrip(n: nat, k: nat)
    requires n < Pow256(k)
    ensures FromLE(ToLE(n, k)) == n
  {
    if k != 0 {
      LERoundTrip(n / 256, k - 1);
      assert ToLE(n, k)[1..] == ToLE(n / 256, k - 1);
    }
  }

  lemma {:induction false} LEBounded(bytes: seq<Byte>)
    ensures FromLE(bytes) < Pow256(|bytes|)
  {
    if bytes != [] {
      LEBounded(bytes[1..]);
    }
  }

  lemma {:induction false} LEInverse(bytes: seq<Byte>)
    ensures ToLE(FromLE(bytes), |bytes|) == bytes
  {
    if bytes != [] {
      LEInverse(bytes[1..]);
      LowByte(bytes[0], FromLE(bytes[1..]));
      assert [bytes[0]] + bytes[1..] == bytes;
    }
  }

  /** Four bytes as a number, the lowest first. */
  function Four(a: int, b: int, c: int, d: int): int {
    a + 0x100 * b + 0x1_0000 * c + 0x100_0000 * d
  }

  function FourAt(bytes: seq<Byte>, at: nat): int
    requires at + 4 <= |bytes|
  {
    Four(bytes[at], bytes[at + 1], bytes[at + 2], bytes[at + 3])
  }

  lemma Unfold(bytes: seq<Byte>)
    requires bytes != []
    ensures FromLE(bytes) == bytes[0] + 256 * FromLE(bytes[1..])
  {
  }

  lemma ReadTwo(bytes: seq<Byte>)
    requires |bytes| == 2
    ensures FromLE(bytes) == Four(bytes[0], bytes[1], 0, 0)
  {
    Unfold(bytes);
    Unfold(bytes[1..]);
    assert bytes[1..][1..] == [];
  }

  lemma ReadFour(bytes: seq<Byte>)
    requires |bytes| == 4
    ensures FromLE(bytes) == FourAt(bytes, 0)
  {
    Unfold(bytes);
    Unfold(bytes[1..]);
    assert bytes[1..][1..] == bytes[2..];
    ReadTwo(bytes[2..]);
  }

  lemma ReadEight(bytes: seq<Byte>)
    requires |bytes| == 8
    ensures FromLE(bytes) == FourAt(bytes, 0) + 0x1_0000_0000 * FourAt(bytes, 4)
  {
    Unfold(bytes);
    Unfold(bytes[1..]);
    assert bytes[1..][1..] == bytes[2..];
    Unfold(bytes[2..]);
    assert bytes[2..][1..] == bytes[3..];
    Unfold(bytes[3..]);
    assert bytes[3..][1..] == bytes[4..];
    ReadFour(bytes[4..]);
  }

  /** What is written for a number are the bytes that make it up, and no others. */
  lemma WriteTwo(bytes: seq<Byte>, n: U16)
    requires |bytes| == 2
    ensures bytes == ToLE(n, 2) <==> Four(bytes[0], bytes[1], 0, 0) == n
  {
    Written(bytes, n);
    ReadTwo(bytes);
  }

  lemma WriteFour(bytes: seq<Byte>, n: U32)
    requires |bytes| == 4
    ensures bytes == ToLE(n, 4) <==> FourAt(bytes, 0) == n
  {
    Written(bytes, n);
    ReadFour(bytes);
  }

  lemma WriteEight(bytes: seq<Byte>, n: U64)
    requires |bytes| == 8
    ensures bytes == ToLE(n, 8) <==> FourAt(bytes, 0) + 0x1_0000_0000 * FourAt(bytes, 4) == n
  {
    Written(bytes, n);
    ReadEight(bytes);
  }

  lemma Written(bytes: seq<Byte>, n: nat)
    requires (|bytes| == 2 && n < 0x1_0000) || (|bytes| == 4 && n < 0x1_0000_0000)
             || (|bytes| == 8 && n < 0x1_0000_0000_0000_0000)
    ensures bytes == ToLE(n, |bytes|) <==> FromLE(bytes) == n
  {
    Ranges();
    LERoundTrip(n, |bytes|);
    LEInverse(bytes);
  }

  lemma LowByte(low: Byte, rest: nat)
    ensures (low + 256 * rest) % 256 == low && (low + 256 * rest) / 256 == rest
  {
  }

  lemma Ranges()
    ensures Pow256(2) == 0x1_0000 && Pow256(4) == 0x1_0000_0000 && Pow256(8) == 0x1_0000_0000_0000_0000
  {
    assert Pow256(2) == 0x1_0000;
    assert Pow256(4) == 0x1_0000_0000;
    assert Pow256(6) == 0x1_0000_0000_0000;
  }
}
