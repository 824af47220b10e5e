/** CRC-32 bit by bit: reflected polynomial 0xEDB88320, complemented on entry and on exit
    (section 8 of RFC 1952). This is the meaning that the table loop of `src/util.cpp` refines. */
module BitwiseCrc {
  function Bit(x: bv32): bv32 {
    if x & 1 == 1 then (x >> 1) ^ 0xedb88320 else x >> 1
  }

  function Bits(x: bv32, n: nat): bv32
    decreases n
  {
    if n == 0 then x else Bits(Bit(x), n - 1)
  }

  function CrcStep(crc: bv32, b: bv8): bv32 {
    Bits(Xor(crc, b as bv32), 8)
  }

  function Fold(crc: bv32, s: seq<bv8>): bv32 {
    if s == [] then crc else CrcStep(Fold(crc, s[..|s| - 1]), s[|s| - 1])
  }

  /** CRC-32 of `s`, continued from `seed`. */
  function Crc32(s: seq<bv8>, seed: bv32): bv32 {
    Not(Fold(Not(seed), s))
  }

  /** The checksum as the unsigned integer that travels in messages. */
  function Checksum(s: seq<bv8>): (r: int)
    ensures 0 <= r < 0x1_0000_0000
  {
    Crc32(s, 0) as int
  }

  // Named so that proofs can treat them as uninterpreted operations.
  function Xor(a: bv32, b: bv32): bv32 { a ^ b }

  function Not(a: bv32): bv32 { !a }

  // ---- Eight bit steps at once: the low byte selects, the rest shifts down ----

  function Halves(h: bv32, n: nat): bv32
    decreases n
  {
    if n == 0 then h else Halves(h >> 1, n - 1)
  }

  ghost predicate LowBitsClear(h: bv32, n: nat)
    decreases n
  {
    n == 0 || (h & 1 == 0 && LowBitsClear(h >> 1, n - 1))
  }

  function Odd(x: bv32): bool { x & 1 == 1 }

  function Half(x: bv32): bv32 { x >> 1 }

  const POLYNOMIAL: bv32 := 0xedb88320

  lemma BitNamed(x: bv32)
    ensures Bit(x) == if Odd(x) then Xor(Half(x), POLYNOMIAL) else Half(x)
  {
  }

  lemma HalfXor(x: bv32, h: bv32)
    ensures Half(Xor(x, h)) == Xor(Half(x), Half(h))
  {
  }

  lemma OddXor(x: bv32, h: bv32)
    requires h & 1 == 0
    ensures Odd(Xor(x, h)) == Odd(x)
  {
  }

  lemma XorSwap(a: bv32, b: bv32, c: bv32)
    ensures Xor(Xor(a, b), c) == Xor(Xor(a, c), b)
  {
    XorAssociative(a, b, c);
    XorAssociative(a, c, b);
    assert Xor(b, c) == Xor(c, b);
    hide Xor;
  }

  lemma BitXor(x: bv32, h: bv32)
    requires h & 1 == 0
    ensures Bit(Xor(x, h)) == Xor(Bit(x), h >> 1)
  {
    assert Half(h) == h >> 1;
    hide *;
    BitNamed(x);
    BitNamed(Xor(x, h));
    HalfXor(x, h);
    OddXor(x, h);
    XorSwap(Half(x), Half(h), POLYNOMIAL);
  }

  lemma {:induction false} BitsXor(x: bv32, h: bv32, n: nat)
    requires LowBitsClear(h, n)
    ensures Bits(Xor(x, h), n) == Xor(Bits(x, n), Halves(h, n))
    decreases n
  {
    hide Bit, Xor;
    if n > 0 {
      BitXor(x, h);
      BitsXor(Bit(x), h >> 1, n - 1);
    }
  }

  lemma ByteHalves(h: bv32)
    ensures Halves(h, 8) == h >> 8
  {
    assert Halves(h, 8) == Halves(h >> 1 >> 1, 6);
    assert Halves(h >> 1 >> 1, 6) == Halves(h >> 1 >> 1 >> 1 >> 1, 4);
    assert Halves(h >> 1 >> 1 >> 1 >> 1, 4) == Halves(h >> 1 >> 1 >> 1 >> 1 >> 1 >> 1, 2);
  }

  lemma NibbleClear(h: bv32, n: nat)
    requires h & 0xf == 0 && LowBitsClear(h >> 1 >> 1 >> 1 >> 1, n)
    ensures LowBitsClear(h, n + 4)
  {
    assert LowBitsClear(h >> 1 >> 1 >> 1, n + 1);
    assert LowBitsClear(h >> 1 >> 1, n + 2);
    assert LowBitsClear(h >> 1, n + 3);
  }

  lemma ByteMask(h: bv32)
    requires h & 0xff == 0
    ensures h & 0xf == 0 && (h >> 1 >> 1 >> 1 >> 1) & 0xf == 0
  {
  }

  lemma ByteClear(h: bv32)
    requires h & 0xff == 0
    ensures LowBitsClear(h, 8)
  {
    ByteMask(h);
    NibbleClear(h >> 1 >> 1 >> 1 >> 1, 0);
    hide LowBitsClear;
    NibbleClear(h, 4);
  }

  /** A term with a clear low byte passes through eight bit steps as a shift. */
  lemma ByteXor(x: bv32, h: bv32)
    requires h & 0xff == 0
    ensures Bits(Xor(x, h), 8) == Xor(Bits(x, 8), h >> 8)
  {
    hide Bits, Halves, LowBitsClear, Xor;
    ByteClear(h);
    ByteHalves(h);
    BitsXor(x, h, 8);
  }

  lemma LowAndHigh(x: bv32)
    ensures x == Xor(x & 0xff, x & 0xffffff00)
    ensures (x & 0xffffff00) >> 8 == x >> 8 && (x & 0xffffff00) & 0xff == 0
  {
  }

  lemma ByteSplit(x: bv32)
    ensures Bits(x, 8) == Xor(Bits(x & 0xff, 8), x >> 8)
  {
    LowAndHigh(x);
    hide Bits, Xor;
    ByteXor(x & 0xff, x & 0xffffff00);
  }

  // ---- Continuing a checksum ----

  lemma {:induction false} FoldConcat(crc: bv32, a: seq<bv8>, b: seq<bv8>)
    ensures Fold(crc, a + b) == Fold(Fold(crc, a), b)
  {
    hide CrcStep;
    if b == [] {
      assert a + b == a;
    } else {
      assert (a + b)[..|a + b| - 1] == a + b[..|b| - 1];
      FoldConcat(crc, a, b[..|b| - 1]);
    }
  }

  /** Checksumming in pieces, each continued from the last, is checksumming the whole. */
  lemma Continue(a: seq<bv8>, b: seq<bv8>, seed: bv32)
    ensures Crc32(a + b, seed) == Crc32(b, Crc32(a, seed))
  {
    hide Fold;
    NotNot(Fold(Not(seed), a));
    hide Not;
    FoldConcat(Not(seed), a, b);
  }

  lemma EmptyCrc(seed: bv32)
    ensures Crc32([], seed) == seed
  {
    NotNot(seed);
  }

  lemma NotNot(x: bv32)
    ensures Not(Not(x)) == x
  {
  }

  lemma NotInjective(x: bv32, y: bv32)
    ensures Not(x) == Not(y) ==> x == y
  {
  }

  // ---- Nothing is lost: each step is injective ----

  lemma BitInjective(x: bv32, y: bv32)
    requires Bit(x) == Bit(y)
    ensures x == y
  {
  }

  lemma {:induction false} BitsInjective(x: bv32, y: bv32, n: nat)
    requires Bits(x, n) == Bits(y, n)
    ensures x == y
    decreases n
  {
    hide Bit;
    if n > 0 {
      BitsInjective(Bit(x), Bit(y), n - 1);
      BitInjective(x, y);
    }
  }

  lemma {:induction false} FoldInjective(c: bv32, d: bv32, s: seq<bv8>)
    requires Fold(c, s) == Fold(d, s)
    ensures c == d
  {
    hide Bits, Xor;
    if s != [] {
      var t, b := s[..|s| - 1], s[|s| - 1] as bv32;
      BitsInjective(Xor(Fold(c, t), b), Xor(Fold(d, t), b), 8);
      XorCancel(Fold(c, t), Fold(d, t), b);
      FoldInjective(c, d, t);
    }
  }

  lemma XorCancel(c: bv32, d: bv32, b: bv32)
    ensures Xor(c, b) == Xor(d, b) ==> c == d
  {
  }

  // ---- Four bytes enter the state as one word ----

  function WordOf(a: bv8, b: bv8, c: bv8, d: bv8): bv32 {
    Xor(Xor(Xor(a as bv32, b as bv32 << 8), c as bv32 << 16), d as bv32 << 24)
  }

  function Word(m: seq<bv8>): bv32
    requires |m| == 4
  {
    WordOf(m[0], m[1], m[2], m[3])
  }

  lemma WordBytes(a: bv8, b: bv8, c: bv8, d: bv8, e: bv8, f: bv8, g: bv8, h: bv8)
    requires WordOf(a, b, c, d) == WordOf(e, f, g, h)
    ensures a == e && b == f && c == g && d == h
  {
  }

  lemma WordInjective(m: seq<bv8>, n: seq<bv8>)
    requires |m| == |n| == 4 && Word(m) == Word(n)
    ensures m == n
  {
    hide WordOf;
    WordBytes(m[0], m[1], m[2], m[3], n[0], n[1], n[2], n[3]);
  }

  lemma {:induction false} BitsPlus(x: bv32, m: nat, n: nat)
    ensures Bits(x, m + n) == Bits(Bits(x, m), n)
    decreases m
  {
    hide Bit;
    if m > 0 {
      BitsPlus(Bit(x), m - 1, n);
    }
  }

  lemma ShiftedByte(b: bv8)
    ensures (b as bv32 << 8) & 0xff == 0 && (b as bv32 << 8) >> 8 == b as bv32
    ensures (b as bv32 << 16) & 0xff == 0 && (b as bv32 << 16) >> 8 == b as bv32 << 8
    ensures (b as bv32 << 24) & 0xff == 0 && (b as bv32 << 24) >> 8 == b as bv32 << 16
  {
  }

  lemma Absorb8(x: bv32, b: bv8)
    ensures CrcStep(Bits(x, 8), b) == Bits(Xor(x, b as bv32 << 8), 16)
  {
    ShiftedByte(b);
    hide Bits, Xor;
    ByteXor(x, b as bv32 << 8);
    BitsPlus(Xor(x, b as bv32 << 8), 8, 8);
  }

  lemma Absorb16(x: bv32, b: bv8)
    ensures CrcStep(Bits(x, 16), b) == Bits(Xor(x, b as bv32 << 16), 24)
  {
    ShiftedByte(b);
    hide Bits, Xor;
    ByteXor(x, b as bv32 << 16);
    BitsPlus(x, 8, 8);
    BitsPlus(Xor(x, b as bv32 << 16), 8, 16);
    Absorb8(Bits(x, 8), b);
  }

  lemma Absorb24(x: bv32, b: bv8)
    ensures CrcStep(Bits(x, 24), b) == Bits(Xor(x, b as bv32 << 24), 32)
  {
    ShiftedByte(b);
    hide Bits, Xor;
    ByteXor(x, b as bv32 << 24);
    BitsPlus(x, 8, 16);
    BitsPlus(Xor(x, b as bv32 << 24), 8, 24);
    Absorb16(Bits(x, 8), b);
  }

  lemma XorAssociative(a: bv32, b: bv32, c: bv32)
    ensures Xor(Xor(a, b), c) == Xor(a, Xor(b, c))
  {
  }

  lemma XorWord(crc: bv32, a: bv32, b: bv32, c: bv32, d: bv32)
    ensures Xor(Xor(Xor(Xor(crc, a), b), c), d) == Xor(crc, Xor(Xor(Xor(a, b), c), d))
  {
    hide Xor;
    XorAssociative(crc, a, b);
    XorAssociative(crc, Xor(a, b), c);
    XorAssociative(crc, Xor(Xor(a, b), c), d);
  }

  lemma AbsorbedWord(c: bv32, m: seq<bv8>)
    requires |m| == 4
    ensures Xor(Xor(Xor(Xor(c, m[0] as bv32), m[1] as bv32 << 8), m[2] as bv32 << 16), m[3] as bv32 << 24)
         == Xor(c, Word(m))
  {
    hide Xor;
    XorWord(c, m[0] as bv32, m[1] as bv32 << 8, m[2] as bv32 << 16, m[3] as bv32 << 24);
  }

  lemma FoldFour(c: bv32, m: seq<bv8>)
    requires |m| == 4
    ensures Fold(c, m) == Bits(Xor(c, Word(m)), 32)
  {
    hide Bits, Xor, Word;
    var one, two, three := m[..1], m[..2], m[..3];
    assert one[..0] == [] && two[..1] == one && three[..2] == two && m[..3] == three;
    var x := Xor(c, m[0] as bv32);
    assert Fold(c, one) == Bits(x, 8);
    assert Fold(c, two) == CrcStep(Fold(c, one), m[1]);
    assert Fold(c, three) == CrcStep(Fold(c, two), m[2]);
    assert Fold(c, m) == CrcStep(Fold(c, three), m[3]);
    hide Fold, CrcStep;
    Absorb8(x, m[1]);
    Absorb16(Xor(x, m[1] as bv32 << 8), m[2]);
    Absorb24(Xor(Xor(x, m[1] as bv32 << 8), m[2] as bv32 << 16), m[3]);
    AbsorbedWord(c, m);
  }

  /** Replacing four consecutive bytes by four others always changes the checksum. */
  lemma BurstChanges(before: seq<bv8>, m: seq<bv8>, n: seq<bv8>, after: seq<bv8>, seed: bv32)
    requires |m| == |n| == 4 && m != n
    ensures Crc32(before + m + after, seed) != Crc32(before + n + after, seed)
  {
    hide Fold, Bits, Word, Not;
    var c := Fold(Not(seed), before);
    FoldConcat(Not(seed), before, m);
    FoldConcat(Not(seed), before, n);
    FoldConcat(Not(seed), before + m, after);
    FoldConcat(Not(seed), before + n, after);
    NotInjective(Fold(Not(seed), before + m + after), Fold(Not(seed), before + n + after));
    if Fold(Not(seed), before + m + after) == Fold(Not(seed), before + n + after) {
      FoldInjective(Fold(c, m), Fold(c, n), after);
      FoldFour(c, m);
      FoldFour(c, n);
      BitsInjective(Xor(c, Word(m)), Xor(c, Word(n)), 32);
      SameWord(c, Word(m), Word(n));
      WordInjective(m, n);
    }
  }

  lemma SameWord(c: bv32, v: bv32, w: bv32)
    ensures Xor(c, v) == Xor(c, w) ==> v == w
  {
  }

  lemma ChecksumInjective(s: seq<bv8>, t: seq<bv8>)
    ensures Crc32(s, 0) != Crc32(t, 0) ==> Checksum(s) != Checksum(t)
  {
    hide Crc32;
    assert (Crc32(s, 0) as int) as bv32 == Crc32(s, 0);
    assert (Crc32(t, 0) as int) as bv32 == Crc32(t, 0);
  }
}
