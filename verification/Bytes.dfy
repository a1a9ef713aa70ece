/** Bytes and big-endian numbers. */
module Bytes {

  type byte = bv8

  lemma CastAndBack(n: nat)
    requires n < 256
    ensures ToNat(n as bv8) == n
  {
  }

  function ByteOf(n: nat): (b: byte)
    requires n < 256
    ensures ToNat(b) == n
  {
    CastAndBack(n);
    n as bv8
  }

  function ToNat(b: byte): (n: nat)
    ensures n < 256
  {
    b as nat
  }

  const U16 := 0x1_0000

  /** Two bytes, most significant first. */
  function BigEndian16(n: nat): (b: seq<byte>)
    requires n < U16
    ensures |b| == 2
    ensures Number16(b) == n
  {
    [ByteOf(n / 256), ByteOf(n % 256)]
  }

  lemma ByteAndBack(b: byte)
    ensures ByteOf(ToNat(b)) == b
  {
    SameNumberSameByte(ByteOf(ToNat(b)), b);
  }

  lemma SameNumberSameByte(a: byte, b: byte)
    requires ToNat(a) == ToNat(b)
    ensures a == b
  {
    assert ToNat(a) as bv8 == a && ToNat(b) as bv8 == b;
  }

  lemma TwoBytes(b: seq<byte>)
    requires |b| == 2
    ensures BigEndian16(Number16(b)) == b
  {
    var n := Number16(b);
    assert n / 256 == ToNat(b[0]) && n % 256 == ToNat(b[1]);
    ByteAndBack(b[0]);
    ByteAndBack(b[1]);
  }

  function Number16(b: seq<byte>): (n: nat)
    requires |b| == 2
    ensures n < U16
  {
    ToNat(b[0]) * 256 + ToNat(b[1])
  }

  /** `k` bytes, most significant first. */
  function BigEndian(n: nat, k: nat): (b: seq<byte>)
    ensures |b| == k
  {
    if k == 0 then [] else BigEndian(n / 256, k - 1) + [ByteOf(n % 256)]
  }

  function Power256(k: nat): (p: nat)
    ensures p > 0
  {
    if k == 0 then 1 else 256 * Power256(k - 1)
  }

  function Number(b: seq<byte>): nat {
    if b == [] then 0 else 256 * Number(b[..|b| - 1]) + ToNat(b[|b| - 1])
  }

  /** Reading back what was written yields the number, as long as it fits. */
  lemma {:induction false} NumberOfBigEndian(n: nat, k: nat)
    requires n < Power256(k)
    ensures Number(BigEndian(n, k)) == n
  {
    if k > 0 {
      var b := BigEndian(n, k);
      assert b[..k - 1] == BigEndian(n / 256, k - 1);
      NumberOfBigEndian(n / 256, k - 1);
    }
  }

  /** Digit `i` of a number in base 256, counted from the least significant. */
  function Digit(n: nat, i: nat): (d: nat)
    ensures d < 256
  {
    if i == 0 then n % 256 else Digit(n / 256, i - 1)
  }

  /** Byte `i` of `k`, counted from the front, is digit `k - 1 - i`. */
  lemma {:induction false} BigEndianAt(n: nat, k: nat, i: nat)
    requires i < k
    ensures BigEndian(n, k)[i] == ByteOf(Digit(n, k - 1 - i))
  {
    if i < k - 1 {
      BigEndianAt(n / 256, k - 1, i);
    }
  }

  /** The bytes of a text in ASCII. */
  function Ascii(s: string): (b: seq<byte>)
    requires forall i :: 0 <= i < |s| ==> s[i] < 128 as char
    ensures |b| == |s|
  {
    seq(|s|, i requires 0 <= i < |s| => ByteOf(s[i] as int))
  }

  function Xor(a: seq<byte>, b: seq<byte>): (c: seq<byte>)
    requires |a| == |b|
    ensures |c| == |a|
  {
    seq(|a|, i requires 0 <= i < |a| => a[i] ^ b[i])
  }

  lemma XorByteTwice(a: byte, b: byte)
    ensures a ^ (a ^ b) == b
  {
  }

  /** Masking with the same bytes is undone by masking again. */
  lemma XorTwice(a: seq<byte>, b: seq<byte>)
    requires |a| == |b|
    ensures Xor(a, Xor(a, b)) == b
  {
    forall i | 0 <= i < |b| ensures Xor(a, Xor(a, b))[i] == b[i] {
      XorByteTwice(a[i], b[i]);
    }
  }

  function Concat(parts: seq<seq<byte>>): seq<byte> {
    if parts == [] then [] else parts[0] + Concat(parts[1..])
  }
}
