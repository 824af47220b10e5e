/** Bytes and little-endian unsigned integers, as the packed message structs hold them. */
module Words {
  type Byte = bv8
  type u32 = x: int | 0 <= x < 0x1_0000_0000

  /** `static_cast<std::uint32_t>` of a larger unsigned value. */
  function Low32(n: nat): u32 { n % 0x1_0000_0000 }

  function ToByte(d: int): Byte
    requires 0 <= d < 256
  {
    d as bv8
  }

  function FromByte(b: Byte): (d: int)
    ensures 0 <= d < 256
  {
    b as int
  }

  lemma Successor(b: Byte)
    requires b != 255
    ensures (b + 1) as int == b as int + 1
  {
  }

  lemma {:induction false} SomeByteIs(d: int) returns (b: Byte)
    requires 0 <= d < 256
    ensures b as int == d
    decreases d
  {
    if d == 0 {
      b := 0;
    } else {
      b := SomeByteIs(d - 1);
      Successor(b);
      b := b + 1;
    }
  }

  lemma ByteBackAndThere(b: Byte)
    ensures ToByte(FromByte(b)) == b
  {
  }

  lemma ByteThereAndBack(d: int)
    requires 0 <= d < 256
    ensures FromByte(ToByte(d)) == d
  {
    var b := SomeByteIs(d);
    ByteBackAndThere(b);
  }

  /** Byte `i` of `n`, least significant first. */
  function Digit(n: u32, i: nat): Byte
    requires i < 4
  {
    if i == 0 then ToByte(n % 256)
    else if i == 1 then ToByte(n / 0x100 % 256)
    else if i == 2 then ToByte(n / 0x100 / 0x100 % 256)
    else ToByte(n / 0x100 / 0x100 / 0x100)
  }

  function Put32(n: u32): (s: seq<Byte>)
    ensures |s| == 4
  {
    [Digit(n, 0), Digit(n, 1), Digit(n, 2), Digit(n, 3)]
  }

  function Value(a: Byte, b: Byte, c: Byte, d: Byte): u32 {
    FromByte(a) + 0x100 * FromByte(b) + 0x1_0000 * FromByte(c) + 0x100_0000 * FromByte(d)
  }

  function Get32(s: seq<Byte>, at: nat): u32
    requires at + 4 <= |s|
  {
    Value(s[at], s[at + 1], s[at + 2], s[at + 3])
  }

  /** Every 32-bit value survives being written and read back. */
  lemma ValueOfDigits(n: u32)
    ensures Value(Digit(n, 0), Digit(n, 1), Digit(n, 2), Digit(n, 3)) == n
  {
    hide ToByte, FromByte;
    ByteThereAndBack(n % 256);
    ByteThereAndBack(n / 0x100 % 256);
    ByteThereAndBack(n / 0x100 / 0x100 % 256);
    ByteThereAndBack(n / 0x100 / 0x100 / 0x100);
  }

  lemma DigitsOfSum(a: int, b: int, c: int, d: int)
    requires 0 <= a < 256 && 0 <= b < 256 && 0 <= c < 256 && 0 <= d < 256
    ensures var n := a + 0x100 * b + 0x1_0000 * c + 0x100_0000 * d;
            n % 256 == a && n / 0x100 % 256 == b && n / 0x100 / 0x100 % 256 == c && n / 0x100 / 0x100 / 0x100 == d
  {
    var n := a + 0x100 * b + 0x1_0000 * c + 0x100_0000 * d;
    assert n / 0x100 == b + 0x100 * c + 0x1_0000 * d;
    assert n / 0x100 / 0x100 == c + 0x100 * d;
  }

  lemma DigitsOfValue(a: Byte, b: Byte, c: Byte, d: Byte)
    ensures Digit(Value(a, b, c, d), 0) == a && Digit(Value(a, b, c, d), 1) == b
    ensures Digit(Value(a, b, c, d), 2) == c && Digit(Value(a, b, c, d), 3) == d
  {
    hide ToByte, FromByte;
    ByteBackAndThere(a); ByteBackAndThere(b); ByteBackAndThere(c); ByteBackAndThere(d);
    DigitsOfSum(FromByte(a), FromByte(b), FromByte(c), FromByte(d));
  }

  lemma ZeroDigits()
    ensures Digit(0, 0) == Digit(0, 1) == Digit(0, 2) == Digit(0, 3) == 0
  {
  }
}
