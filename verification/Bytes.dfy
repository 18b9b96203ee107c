/** Bytes, and the little-endian 32-bit length fields of the two wire formats. */
module Bytes {

  type Byte = x: int | 0 <= x < 256

  function Limit(k: nat): (n: nat)
    ensures n > 0
  {
    if k == 0 then 1 else 256 * Limit(k - 1)
  }

  function Digits(n: nat, k: nat): (b: seq<Byte>)
    ensures |b| == k
  {
    if k == 0 then [] else [n % 256] + Digits(n / 256, k - 1)
  }

  function Number(b: seq<Byte>): (n: nat)
    ensures n < Limit(|b|)
  {
    if b == [] then 0 else b[0] as int + 256 * Number(b[1..])
  }

  const U32_LIMIT := 0x1_0000_0000

  // struct.pack("<I", n), for the lengths it accepts
  function PackU32(n: nat): (b: seq<Byte>)
    requires n < U32_LIMIT
    ensures |b| == 4
  {
    Digits(n, 4)
  }

  // struct.unpack("<I", b)
  function UnpackU32(b: seq<Byte>): (n: nat)
    requires |b| == 4
    ensures n < U32_LIMIT
  {
    LimitOf4();
    Number(b)
  }

  lemma LimitOf4()
    ensures Limit(4) == U32_LIMIT
  {
    assert Limit(2) == 65536;
  }

  lemma {:induction false} NumberOfDigits(n: nat, k: nat)
    requires n < Limit(k)
    ensures Number(Digits(n, k)) == n
  {
    if k > 0 {
      NumberOfDigits(n / 256, k - 1);
      assert Digits(n, k)[1..] == Digits(n / 256, k - 1);
    }
  }

  lemma {:induction false} DigitsOfNumber(b: seq<Byte>)
    ensures Digits(Number(b), |b|) == b
  {
    if b != [] {
      DigitsOfNumber(b[1..]);
      var first: int := b[0];
      assert (first + 256 * Number(b[1..])) / 256 == Number(b[1..]);
    }
  }

  lemma UnpackPacked(n: nat)
    requires n < U32_LIMIT
    ensures UnpackU32(PackU32(n)) == n
  {
    LimitOf4();
    NumberOfDigits(n, 4);
  }

  lemma PackUnpacked(b: seq<Byte>)
    requires |b| == 4
    ensures PackU32(UnpackU32(b)) == b
  {
    DigitsOfNumber(b);
  }

  // The lowest byte comes first.
  lemma LittleEndian(b: seq<Byte>)
    requires |b| == 4
    ensures UnpackU32(b) == b[0] as int + 0x100 * b[1] as int + 0x1_0000 * b[2] as int + 0x100_0000 * b[3] as int
  {
    assert b[1..][1..] == b[2..] && b[2..][1..] == b[3..] && b[3..][1..] == [];
    assert Number(b[3..]) == b[3] as int;
    assert Number(b[2..]) == b[2] as int + 256 * Number(b[3..]);
    assert Number(b[1..]) == b[1] as int + 256 * Number(b[2..]);
  }
}
