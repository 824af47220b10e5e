/** The CRC-32 table of `src/util.cpp`, the loop that uses it, and the chunked file form. */
module CrcTable {
  import opened Wrappers
  import opened BitwiseCrc

  // The table, sixteen entries a row.
  const ROW_0: seq<bv32> := [
    0x00000000, 0x77073096, 0xee0e612c, 0x990951ba, 0x076dc419, 0x706af48f, 0xe963a535, 0x9e6495a3,
    0x0edb8832, 0x79dcb8a4, 0xe0d5e91e, 0x97d2d988, 0x09b64c2b, 0x7eb17cbd, 0xe7b82d07, 0x90bf1d91]
  const ROW_1: seq<bv32> := [
    0x1db71064, 0x6ab020f2, 0xf3b97148, 0x84be41de, 0x1adad47d, 0x6ddde4eb, 0xf4d4b551, 0x83d385c7,
    0x136c9856, 0x646ba8c0, 0xfd62f97a, 0x8a65c9ec, 0x14015c4f, 0x63066cd9, 0xfa0f3d63, 0x8d080df5]
  const ROW_2: seq<bv32> := [
    0x3b6e20c8, 0x4c69105e, 0xd56041e4, 0xa2677172, 0x3c03e4d1, 0x4b04d447, 0xd20d85fd, 0xa50ab56b,
    0x35b5a8fa, 0x42b2986c, 0xdbbbc9d6, 0xacbcf940, 0x32d86ce3, 0x45df5c75, 0xdcd60dcf, 0xabd13d59]
  const ROW_3: seq<bv32> := [
    0x26d930ac, 0x51de003a, 0xc8d75180, 0xbfd06116, 0x21b4f4b5, 0x56b3c423, 0xcfba9599, 0xb8bda50f,
    0x2802b89e, 0x5f058808, 0xc60cd9b2, 0xb10be924, 0x2f6f7c87, 0x58684c11, 0xc1611dab, 0xb6662d3d]
  const ROW_4: seq<bv32> := [
    0x76dc4190, 0x01db7106, 0x98d220bc, 0xefd5102a, 0x71b18589, 0x06b6b51f, 0x9fbfe4a5, 0xe8b8d433,
    0x7807c9a2, 0x0f00f934, 0x9609a88e, 0xe10e9818, 0x7f6a0dbb, 0x086d3d2d, 0x91646c97, 0xe6635c01]
  const ROW_5: seq<bv32> := [
    0x6b6b51f4, 0x1c6c6162, 0x856530d8, 0xf262004e, 0x6c0695ed, 0x1b01a57b, 0x8208f4c1, 0xf50fc457,
    0x65b0d9c6, 0x12b7e950, 0x8bbeb8ea, 0xfcb9887c, 0x62dd1ddf, 0x15da2d49, 0x8cd37cf3, 0xfbd44c65]
  const ROW_6: seq<bv32> := [
    0x4db26158, 0x3ab551ce, 0xa3bc0074, 0xd4bb30e2, 0x4adfa541, 0x3dd895d7, 0xa4d1c46d, 0xd3d6f4fb,
    0x4369e96a, 0x346ed9fc, 0xad678846, 0xda60b8d0, 0x44042d73, 0x33031de5, 0xaa0a4c5f, 0xdd0d7cc9]
  const ROW_7: seq<bv32> := [
    0x5005713c, 0x270241aa, 0xbe0b1010, 0xc90c2086, 0x5768b525, 0x206f85b3, 0xb966d409, 0xce61e49f,
    0x5edef90e, 0x29d9c998, 0xb0d09822, 0xc7d7a8b4, 0x59b33d17, 0x2eb40d81, 0xb7bd5c3b, 0xc0ba6cad]
  const ROW_8: seq<bv32> := [
    0xedb88320, 0x9abfb3b6, 0x03b6e20c, 0x74b1d29a, 0xead54739, 0x9dd277af, 0x04db2615, 0x73dc1683,
    0xe3630b12, 0x94643b84, 0x0d6d6a3e, 0x7a6a5aa8, 0xe40ecf0b, 0x9309ff9d, 0x0a00ae27, 0x7d079eb1]
  const ROW_9: seq<bv32> := [
    0xf00f9344, 0x8708a3d2, 0x1e01f268, 0x6906c2fe, 0xf762575d, 0x806567cb, 0x196c3671, 0x6e6b06e7,
    0xfed41b76, 0x89d32be0, 0x10da7a5a, 0x67dd4acc, 0xf9b9df6f, 0x8ebeeff9, 0x17b7be43, 0x60b08ed5]
  const ROW_A: seq<bv32> := [
    0xd6d6a3e8, 0xa1d1937e, 0x38d8c2c4, 0x4fdff252, 0xd1bb67f1, 0xa6bc5767, 0x3fb506dd, 0x48b2364b,
    0xd80d2bda, 0xaf0a1b4c, 0x36034af6, 0x41047a60, 0xdf60efc3, 0xa867df55, 0x316e8eef, 0x4669be79]
  const ROW_B: seq<bv32> := [
    0xcb61b38c, 0xbc66831a, 0x256fd2a0, 0x5268e236, 0xcc0c7795, 0xbb0b4703, 0x220216b9, 0x5505262f,
    0xc5ba3bbe, 0xb2bd0b28, 0x2bb45a92, 0x5cb36a04, 0xc2d7ffa7, 0xb5d0cf31, 0x2cd99e8b, 0x5bdeae1d]
  const ROW_C: seq<bv32> := [
    0x9b64c2b0, 0xec63f226, 0x756aa39c, 0x026d930a, 0x9c0906a9, 0xeb0e363f, 0x72076785, 0x05005713,
    0x95bf4a82, 0xe2b87a14, 0x7bb12bae, 0x0cb61b38, 0x92d28e9b, 0xe5d5be0d, 0x7cdcefb7, 0x0bdbdf21]
  const ROW_D: seq<bv32> := [
    0x86d3d2d4, 0xf1d4e242, 0x68ddb3f8, 0x1fda836e, 0x81be16cd, 0xf6b9265b, 0x6fb077e1, 0x18b74777,
    0x88085ae6, 0xff0f6a70, 0x66063bca, 0x11010b5c, 0x8f659eff, 0xf862ae69, 0x616bffd3, 0x166ccf45]
  const ROW_E: seq<bv32> := [
    0xa00ae278, 0xd70dd2ee, 0x4e048354, 0x3903b3c2, 0xa7672661, 0xd06016f7, 0x4969474d, 0x3e6e77db,
    0xaed16a4a, 0xd9d65adc, 0x40df0b66, 0x37d83bf0, 0xa9bcae53, 0xdebb9ec5, 0x47b2cf7f, 0x30b5ffe9]
  const ROW_F: seq<bv32> := [
    0xbdbdf21c, 0xcabac28a, 0x53b39330, 0x24b4a3a6, 0xbad03605, 0xcdd70693, 0x54de5729, 0x23d967bf,
    0xb3667a2e, 0xc4614ab8, 0x5d681b02, 0x2a6f2b94, 0xb40bbe37, 0xc30c8ea1, 0x5a05df1b, 0x2d02ef8d]

  function Row(r: bv32): (row: seq<bv32>)
    requires r < 16
    ensures |row| == 16
  {
    if r < 4 then (if r < 2 then (if r < 1 then ROW_0 else ROW_1) else (if r < 3 then ROW_2 else ROW_3))
    else if r < 8 then (if r < 6 then (if r < 5 then ROW_4 else ROW_5) else (if r < 7 then ROW_6 else ROW_7))
    else if r < 12 then (if r < 10 then (if r < 9 then ROW_8 else ROW_9) else (if r < 11 then ROW_A else ROW_B))
    else (if r < 14 then (if r < 13 then ROW_C else ROW_D) else (if r < 15 then ROW_E else ROW_F))
  }

  function TableAt(i: bv32): bv32
    requires i < 256
  {
    Row(i >> 4)[(i & 15) as int]
  }

  // ---- The table agrees with the bit steps ----

  lemma Row0(i: bv32) requires 0 <= i < 16 ensures TableAt(i) == Bits(i, 8) {}
  lemma Row1(i: bv32) requires 16 <= i < 32 ensures TableAt(i) == Bits(i, 8) {}
  lemma Row2(i: bv32) requires 32 <= i < 48 ensures TableAt(i) == Bits(i, 8) {}
  lemma Row3(i: bv32) requires 48 <= i < 64 ensures TableAt(i) == Bits(i, 8) {}
  lemma Row4(i: bv32) requires 64 <= i < 80 ensures TableAt(i) == Bits(i, 8) {}
  lemma Row5(i: bv32) requires 80 <= i < 96 ensures TableAt(i) == Bits(i, 8) {}
  lemma Row6(i: bv32) requires 96 <= i < 112 ensures TableAt(i) == Bits(i, 8) {}
  lemma Row7(i: bv32) requires 112 <= i < 128 ensures TableAt(i) == Bits(i, 8) {}
  lemma Row8(i: bv32) requires 128 <= i < 144 ensures TableAt(i) == Bits(i, 8) {}
  lemma Row9(i: bv32) requires 144 <= i < 160 ensures TableAt(i) == Bits(i, 8) {}
  lemma RowA(i: bv32) requires 160 <= i < 176 ensures TableAt(i) == Bits(i, 8) {}
  lemma RowB(i: bv32) requires 176 <= i < 192 ensures TableAt(i) == Bits(i, 8) {}
  lemma RowC(i: bv32) requires 192 <= i < 208 ensures TableAt(i) == Bits(i, 8) {}
  lemma RowD(i: bv32) requires 208 <= i < 224 ensures TableAt(i) == Bits(i, 8) {}
  lemma RowE(i: bv32) requires 224 <= i < 240 ensures TableAt(i) == Bits(i, 8) {}
  lemma RowF(i: bv32) requires 240 <= i < 256 ensures TableAt(i) == Bits(i, 8) {}

  /** Each of the 256 entries is eight bit steps of its index. */
  lemma TableEntry(i: bv32)
    requires i < 256
    ensures TableAt(i) == Bits(i, 8)
  {
    hide *;
    if
    case i < 16 => Row0(i);
    case 16 <= i < 32 => Row1(i);
    case 32 <= i < 48 => Row2(i);
    case 48 <= i < 64 => Row3(i);
    case 64 <= i < 80 => Row4(i);
    case 80 <= i < 96 => Row5(i);
    case 96 <= i < 112 => Row6(i);
    case 112 <= i < 128 => Row7(i);
    case 128 <= i < 144 => Row8(i);
    case 144 <= i < 160 => Row9(i);
    case 160 <= i < 176 => RowA(i);
    case 176 <= i < 192 => RowB(i);
    case 192 <= i < 208 => RowC(i);
    case 208 <= i < 224 => RowD(i);
    case 224 <= i < 240 => RowE(i);
    case 240 <= i => RowF(i);
  }

  // ---- The loops ----

  lemma IndexInRange(x: bv32)
    ensures x & 0xff < 256
  {
  }

  function TableStep(crc: bv32, b: bv8): bv32 {
    var x := Xor(crc, b as bv32);
    IndexInRange(x);
    Xor(TableAt(x & 0xff), crc >> 8)
  }

  lemma TableRefines(crc: bv32, b: bv8)
    ensures TableStep(crc, b) == CrcStep(crc, b)
  {
    ShiftIgnoresLowByte(crc, b);
    IndexInRange(Xor(crc, b as bv32));
    hide Bits, TableAt, Xor;
    TableEntry(Xor(crc, b as bv32) & 0xff);
    ByteSplit(Xor(crc, b as bv32));
  }

  lemma ShiftIgnoresLowByte(crc: bv32, b: bv8)
    ensures Xor(crc, b as bv32) >> 8 == crc >> 8
  {
  }

  // ---- Two things every CRC-32 of this kind is known by ----

  lemma TableValue(x: bv32)
    ensures Bits(x, 8) == Xor(TableAt(x & 0xff), x >> 8)
  {
    IndexInRange(x);
    hide Bits, TableAt, Xor;
    TableEntry(x & 0xff);
    ByteSplit(x);
  }

  lemma AllOnes()
    ensures Bits(0xffff_ffff, 32) == 0xdebb_20e3
  {
    TableValue(0xffff_ffff);
    TableValue(0x2dfd_1072);
    TableValue(0xbe26_ed00);
    TableValue(0x00be_26ed);
    hide Bits;
    BitsPlus(0xffff_ffff, 8, 24);
    BitsPlus(0x2dfd_1072, 8, 16);
    BitsPlus(0xbe26_ed00, 8, 8);
  }

  lemma XorNot(c: bv32)
    ensures Xor(c, Not(c)) == 0xffff_ffff && Not(0xdebb_20e3) == 0x2144_df1c
  {
  }

  /** The residue law: any data followed by its own checksum, least significant byte first, has the
      same checksum. */
  lemma Residue(s: seq<bv8>, m: seq<bv8>)
    requires |m| == 4 && Word(m) == Crc32(s, 0)
    ensures Crc32(s + m, 0) == 0x2144_df1c
  {
    var c := Fold(Not(0), s);
    XorNot(c);
    AllOnes();
    hide Bits, Fold, Not, Xor, Word;
    FoldConcat(Not(0), s, m);
    FoldFour(c, m);
  }

  lemma NextValue(crc: bv32, s: seq<bv8>, b: bv8)
    ensures Fold(crc, s + [b]) == TableStep(Fold(crc, s), b)
  {
    hide TableStep, CrcStep;
    assert (s + [b])[..|s + [b]| - 1] == s;
    TableRefines(Fold(crc, s), b);
  }

  lemma CheckSteps()
    ensures TableStep(0xffff_ffff, 49) == 0x7c23_1048
    ensures TableStep(0x7c23_1048, 50) == 0xb0ac_bb32
    ensures TableStep(0xb0ac_bb32, 51) == 0x77b7_9c2d
    ensures TableStep(0x77b7_9c2d, 52) == 0x641c_1f5c
    ensures TableStep(0x641c_1f5c, 53) == 0x340a_c5e3
    ensures TableStep(0x340a_c5e3, 54) == 0xf68d_2c9e
    ensures TableStep(0xf68d_2c9e, 55) == 0xaffc_9660
    ensures TableStep(0xaffc_9660, 56) == 0x651f_2550
    ensures TableStep(0x651f_2550, 57) == 0x340b_c6d9
  {
  }

  lemma FoldThree(crc: bv32, a: bv8, b: bv8, c: bv8)
    ensures Fold(crc, [a, b, c]) == TableStep(TableStep(TableStep(crc, a), b), c)
  {
    assert Fold(crc, []) == crc;
    hide TableStep, Fold;
    NextValue(crc, [], a);
    NextValue(crc, [a], b);
    NextValue(crc, [a, b], c);
    assert [] + [a] == [a] && [a] + [b] == [a, b] && [a, b] + [c] == [a, b, c];
  }

  /** The check value: the checksum of the nine digits "123456789". */
  lemma CheckValue()
    ensures Crc32([49, 50, 51] + [52, 53, 54] + [55, 56, 57], 0) == 0xcbf4_3926
  {
    assert Not(0) == 0xffff_ffff && Not(0x340b_c6d9) == 0xcbf4_3926;
    CheckSteps();
    hide TableStep, Fold, Not;
    FoldThree(0xffff_ffff, 49, 50, 51);
    FoldThree(0x77b7_9c2d, 52, 53, 54);
    FoldThree(0xf68d_2c9e, 55, 56, 57);
    FoldConcat(0xffff_ffff, [49, 50, 51], [52, 53, 54]);
    FoldConcat(0xffff_ffff, [49, 50, 51] + [52, 53, 54], [55, 56, 57]);
  }

  /** `CalculateCrc32`: one table lookup a byte. */
  method CalculateCrc32(buf: array<bv8>, size: nat, crc32: bv32) returns (r: bv32)
    requires size <= buf.Length
    ensures r == Crc32(buf[..size], crc32)
  {
    hide TableStep, CrcStep, Not;
    var crc := Not(crc32);
    var i := 0;
    while i < size
      invariant 0 <= i <= size
      invariant crc == Fold(Not(crc32), buf[..i])
    {
      TableRefines(crc, buf[i]);
      assert buf[..i + 1][..i] == buf[..i];
      crc := TableStep(crc, buf[i]);
      i := i + 1;
    }
    r := Not(crc);
  }

  const READ_SIZE: nat := 4096

  /** `CalculateFileCrc32`: the checksum of the whole content, read in pieces of at most 4096 bytes;
      0 if the file is missing, cannot be opened, or is not as long as the file system said. */
  method CalculateFileCrc32(file: Option<seq<bv8>>, opens: bool, statedSize: nat) returns (r: bv32)
    ensures r == if file.Some? && opens && |file.value| == statedSize then Crc32(file.value, 0) else 0
  {
    hide Fold, CrcStep, Not, Bits, Xor;
    if file.None? {
      return 0;
    }
    if !opens {
      return 0;
    }
    var content := file.value;
    assert content[..0] == [];
    EmptyCrc(0);
    var readBuf := new bv8[READ_SIZE];
    var total := 0;
    var crc := 0;
    while total < |content|
      invariant 0 <= total <= |content|
      invariant crc == Crc32(content[..total], 0)
    {
      var got := if |content| - total < READ_SIZE then |content| - total else READ_SIZE;
      forall k | 0 <= k < got {
        readBuf[k] := content[total + k];
      }
      assert readBuf[..got] == content[total..total + got];
      assert content[..total] + readBuf[..got] == content[..total + got];
      Continue(content[..total], readBuf[..got], 0);
      crc := CalculateCrc32(readBuf, got, crc);
      total := total + got;
    }
    assert content[..total] == content;
    if statedSize != total {
      return 0;
    }
    r := crc;
  }
}
