/** The 32-bit frame check sequence of common/cmm_wep.c: the table-driven routine and the bit-serial
    definition of appendix C.3 of RFC 1662 that it computes. */
module Crc32 {
  import opened Common

  const INIT_FCS: bv32 := 0xffffffff
  const COMPLEMENT: bv32 := 0xffffffff

  // ---------- the bit-serial definition ----------

  // Words, by name.
  function Xor(a: bv32, b: bv32): bv32 { a ^ b }

  function Low(x: bv32): bv8 { (x & 0xff) as bv8 }

  function High(x: bv32): bv32 { x & 0xffffff00 }

  function Drop8(x: bv32): bv32 { x >> 8 }

  function Widen(b: bv8): bv32 { b as bv32 }

  // One bit: shift right, and subtract the reflected generator when a one falls out.
  function Shift(x: bv32): bv32 {
    if x & 1 == 1 then (x >> 1) ^ 0xedb88320 else x >> 1
  }

  function Shift8(x: bv32): bv32 {
    Shift(Shift(Shift(Shift(Shift(Shift(Shift(Shift(x))))))))
  }

  function BitSerial(fcs: bv32, data: Bytes): bv32
    decreases |data|
  {
    if data == [] then fcs else BitSerial(Shift8(Xor(fcs, Widen(data[0]))), data[1..])
  }

  // ---------- FCSTAB_32, eight entries a row ----------

  const ROW00: seq<bv32> := [
    0x00000000, 0x77073096, 0xee0e612c, 0x990951ba, 0x076dc419, 0x706af48f, 0xe963a535, 0x9e6495a3]
  const ROW01: seq<bv32> := [
    0x0edb8832, 0x79dcb8a4, 0xe0d5e91e, 0x97d2d988, 0x09b64c2b, 0x7eb17cbd, 0xe7b82d07, 0x90bf1d91]
  const ROW02: seq<bv32> := [
    0x1db71064, 0x6ab020f2, 0xf3b97148, 0x84be41de, 0x1adad47d, 0x6ddde4eb, 0xf4d4b551, 0x83d385c7]
  const ROW03: seq<bv32> := [
    0x136c9856, 0x646ba8c0, 0xfd62f97a, 0x8a65c9ec, 0x14015c4f, 0x63066cd9, 0xfa0f3d63, 0x8d080df5]
  const ROW04: seq<bv32> := [
    0x3b6e20c8, 0x4c69105e, 0xd56041e4, 0xa2677172, 0x3c03e4d1, 0x4b04d447, 0xd20d85fd, 0xa50ab56b]
  const ROW05: seq<bv32> := [
    0x35b5a8fa, 0x42b2986c, 0xdbbbc9d6, 0xacbcf940, 0x32d86ce3, 0x45df5c75, 0xdcd60dcf, 0xabd13d59]
  const ROW06: seq<bv32> := [
    0x26d930ac, 0x51de003a, 0xc8d75180, 0xbfd06116, 0x21b4f4b5, 0x56b3c423, 0xcfba9599, 0xb8bda50f]
  const ROW07: seq<bv32> := [
    0x2802b89e, 0x5f058808, 0xc60cd9b2, 0xb10be924, 0x2f6f7c87, 0x58684c11, 0xc1611dab, 0xb6662d3d]
  const ROW08: seq<bv32> := [
    0x76dc4190, 0x01db7106, 0x98d220bc, 0xefd5102a, 0x71b18589, 0x06b6b51f, 0x9fbfe4a5, 0xe8b8d433]
  const ROW09: seq<bv32> := [
    0x7807c9a2, 0x0f00f934, 0x9609a88e, 0xe10e9818, 0x7f6a0dbb, 0x086d3d2d, 0x91646c97, 0xe6635c01]
  const ROW10: seq<bv32> := [
    0x6b6b51f4, 0x1c6c6162, 0x856530d8, 0xf262004e, 0x6c0695ed, 0x1b01a57b, 0x8208f4c1, 0xf50fc457]
  const ROW11: seq<bv32> := [
    0x65b0d9c6, 0x12b7e950, 0x8bbeb8ea, 0xfcb9887c, 0x62dd1ddf, 0x15da2d49, 0x8cd37cf3, 0xfbd44c65]
  const ROW12: seq<bv32> := [
    0x4db26158, 0x3ab551ce, 0xa3bc0074, 0xd4bb30e2, 0x4adfa541, 0x3dd895d7, 0xa4d1c46d, 0xd3d6f4fb]
  const ROW13: seq<bv32> := [
    0x4369e96a, 0x346ed9fc, 0xad678846, 0xda60b8d0, 0x44042d73, 0x33031de5, 0xaa0a4c5f, 0xdd0d7cc9]
  const ROW14: seq<bv32> := [
    0x5005713c, 0x270241aa, 0xbe0b1010, 0xc90c2086, 0x5768b525, 0x206f85b3, 0xb966d409, 0xce61e49f]
  const ROW15: seq<bv32> := [
    0x5edef90e, 0x29d9c998, 0xb0d09822, 0xc7d7a8b4, 0x59b33d17, 0x2eb40d81, 0xb7bd5c3b, 0xc0ba6cad]
  const ROW16: seq<bv32> := [
    0xedb88320, 0x9abfb3b6, 0x03b6e20c, 0x74b1d29a, 0xead54739, 0x9dd277af, 0x04db2615, 0x73dc1683]
  const ROW17: seq<bv32> := [
    0xe3630b12, 0x94643b84, 0x0d6d6a3e, 0x7a6a5aa8, 0xe40ecf0b, 0x9309ff9d, 0x0a00ae27, 0x7d079eb1]
  const ROW18: seq<bv32> := [
    0xf00f9344, 0x8708a3d2, 0x1e01f268, 0x6906c2fe, 0xf762575d, 0x806567cb, 0x196c3671, 0x6e6b06e7]
  const ROW19: seq<bv32> := [
    0xfed41b76, 0x89d32be0, 0x10da7a5a, 0x67dd4acc, 0xf9b9df6f, 0x8ebeeff9, 0x17b7be43, 0x60b08ed5]
  const ROW20: seq<bv32> := [
    0xd6d6a3e8, 0xa1d1937e, 0x38d8c2c4, 0x4fdff252, 0xd1bb67f1, 0xa6bc5767, 0x3fb506dd, 0x48b2364b]
  const ROW21: seq<bv32> := [
    0xd80d2bda, 0xaf0a1b4c, 0x36034af6, 0x41047a60, 0xdf60efc3, 0xa867df55, 0x316e8eef, 0x4669be79]
  const ROW22: seq<bv32> := [
    0xcb61b38c, 0xbc66831a, 0x256fd2a0, 0x5268e236, 0xcc0c7795, 0xbb0b4703, 0x220216b9, 0x5505262f]
  const ROW23: seq<bv32> := [
    0xc5ba3bbe, 0xb2bd0b28, 0x2bb45a92, 0x5cb36a04, 0xc2d7ffa7, 0xb5d0cf31, 0x2cd99e8b, 0x5bdeae1d]
  const ROW24: seq<bv32> := [
    0x9b64c2b0, 0xec63f226, 0x756aa39c, 0x026d930a, 0x9c0906a9, 0xeb0e363f, 0x72076785, 0x05005713]
  const ROW25: seq<bv32> := [
    0x95bf4a82, 0xe2b87a14, 0x7bb12bae, 0x0cb61b38, 0x92d28e9b, 0xe5d5be0d, 0x7cdcefb7, 0x0bdbdf21]
  const ROW26: seq<bv32> := [
    0x86d3d2d4, 0xf1d4e242, 0x68ddb3f8, 0x1fda836e, 0x81be16cd, 0xf6b9265b, 0x6fb077e1, 0x18b74777]
  const ROW27: seq<bv32> := [
    0x88085ae6, 0xff0f6a70, 0x66063bca, 0x11010b5c, 0x8f659eff, 0xf862ae69, 0x616bffd3, 0x166ccf45]
  const ROW28: seq<bv32> := [
    0xa00ae278, 0xd70dd2ee, 0x4e048354, 0x3903b3c2, 0xa7672661, 0xd06016f7, 0x4969474d, 0x3e6e77db]
  const ROW29: seq<bv32> := [
    0xaed16a4a, 0xd9d65adc, 0x40df0b66, 0x37d83bf0, 0xa9bcae53, 0xdebb9ec5, 0x47b2cf7f, 0x30b5ffe9]
  const ROW30: seq<bv32> := [
    0xbdbdf21c, 0xcabac28a, 0x53b39330, 0x24b4a3a6, 0xbad03605, 0xcdd70693, 0x54de5729, 0x23d967bf]
  const ROW31: seq<bv32> := [
    0xb3667a2e, 0xc4614ab8, 0x5d681b02, 0x2a6f2b94, 0xb40bbe37, 0xc30c8ea1, 0x5a05df1b, 0x2d02ef8d]

  // The row that holds entry i.
  function Row(i: bv8): seq<bv32> {
    if i < 8 then ROW00
    else if i < 16 then ROW01
    else if i < 24 then ROW02
    else if i < 32 then ROW03
    else if i < 40 then ROW04
    else if i < 48 then ROW05
    else if i < 56 then ROW06
    else if i < 64 then ROW07
    else if i < 72 then ROW08
    else if i < 80 then ROW09
    else if i < 88 then ROW10
    else if i < 96 then ROW11
    else if i < 104 then ROW12
    else if i < 112 then ROW13
    else if i < 120 then ROW14
    else if i < 128 then ROW15
    else if i < 136 then ROW16
    else if i < 144 then ROW17
    else if i < 152 then ROW18
    else if i < 160 then ROW19
    else if i < 168 then ROW20
    else if i < 176 then ROW21
    else if i < 184 then ROW22
    else if i < 192 then ROW23
    else if i < 200 then ROW24
    else if i < 208 then ROW25
    else if i < 216 then ROW26
    else if i < 224 then ROW27
    else if i < 232 then ROW28
    else if i < 240 then ROW29
    else if i < 248 then ROW30
    else ROW31
  }

  function FcsTab(i: bv8): bv32 {
    RowLength(i);
    Row(i)[(i & 7) as int]
  }

  lemma RowLength(i: bv8)
    ensures |Row(i)| == 8 && 0 <= (i & 7) as int < 8
  {
    LowThree(i);
  }

  lemma LowThree(i: bv8)
    ensures 0 <= (i & 7) as int < 8
  {
    var k := i & 7;
    assert k == 0 || k == 1 || k == 2 || k == 3 || k == 4 || k == 5 || k == 6 || k == 7;
  }

  // RTMP_CALC_FCS32, one byte.
  function TableStep(fcs: bv32, b: bv8): bv32 {
    Xor(Drop8(fcs), FcsTab(Low(Xor(fcs, Widen(b)))))
  }

  // RTMP_CALC_FCS32
  function TableFcs(fcs: bv32, data: Bytes): bv32
    decreases |data|
  {
    if data == [] then fcs else TableFcs(TableStep(fcs, data[0]), data[1..])
  }

  // ---------- every entry of the table is eight shifts of its index ----------

  // The eight words from b on, b a multiple of 8, shifted.
  function Eight(b: bv32): seq<bv32> {
    [Shift8(b), Shift8(b | 1), Shift8(b | 2), Shift8(b | 3), Shift8(b | 4), Shift8(b | 5), Shift8(b | 6), Shift8(b | 7)]
  }

  lemma Rows00()
    ensures ROW00 == Eight(0) && ROW01 == Eight(8)
  {
  }

  lemma Rows02()
    ensures ROW02 == Eight(16) && ROW03 == Eight(24)
  {
  }

  lemma Rows04()
    ensures ROW04 == Eight(32) && ROW05 == Eight(40)
  {
  }

  lemma Rows06()
    ensures ROW06 == Eight(48) && ROW07 == Eight(56)
  {
  }

  lemma Rows08()
    ensures ROW08 == Eight(64) && ROW09 == Eight(72)
  {
  }

  lemma Rows10()
    ensures ROW10 == Eight(80) && ROW11 == Eight(88)
  {
  }

  lemma Rows12()
    ensures ROW12 == Eight(96) && ROW13 == Eight(104)
  {
  }

  lemma Rows14()
    ensures ROW14 == Eight(112) && ROW15 == Eight(120)
  {
  }

  lemma Rows16()
    ensures ROW16 == Eight(128) && ROW17 == Eight(136)
  {
  }

  lemma Rows18()
    ensures ROW18 == Eight(144) && ROW19 == Eight(152)
  {
  }

  lemma Rows20()
    ensures ROW20 == Eight(160) && ROW21 == Eight(168)
  {
  }

  lemma Rows22()
    ensures ROW22 == Eight(176) && ROW23 == Eight(184)
  {
  }

  lemma Rows24()
    ensures ROW24 == Eight(192) && ROW25 == Eight(200)
  {
  }

  lemma Rows26()
    ensures ROW26 == Eight(208) && ROW27 == Eight(216)
  {
  }

  lemma Rows28()
    ensures ROW28 == Eight(224) && ROW29 == Eight(232)
  {
  }

  lemma Rows30()
    ensures ROW30 == Eight(240) && ROW31 == Eight(248)
  {
  }

  lemma RowIsShifts(i: bv8)
    ensures Row(i) == Eight(Widen(i & 0xf8))
  {
    hide Eight;
    Rows00(); Rows02(); Rows04(); Rows06(); Rows08(); Rows10(); Rows12(); Rows14();
    Rows16(); Rows18(); Rows20(); Rows22(); Rows24(); Rows26(); Rows28(); Rows30();
  }

  /** Every entry of the table is eight bit steps of its index. */
  lemma EntryIsShifts(i: bv8)
    ensures FcsTab(i) == Shift8(Widen(i))
  {
    RowIsShifts(i);
    hide Row, Shift8;
    var k := i & 7;
    if k == 0 { assert Widen(i) == Widen(i & 0xf8); }
    else if k == 1 { assert Widen(i) == Widen(i & 0xf8) | 1; }
    else if k == 2 { assert Widen(i) == Widen(i & 0xf8) | 2; }
    else if k == 3 { assert Widen(i) == Widen(i & 0xf8) | 3; }
    else if k == 4 { assert Widen(i) == Widen(i & 0xf8) | 4; }
    else if k == 5 { assert Widen(i) == Widen(i & 0xf8) | 5; }
    else if k == 6 { assert Widen(i) == Widen(i & 0xf8) | 6; }
    else { assert Widen(i) == Widen(i & 0xf8) | 7; }
  }

  // ---------- shifting is linear ----------

  lemma ShiftXor00(x: bv32, y: bv32)
    requires x & 1 == 0 && y & 1 == 0
    ensures Shift(x ^ y) == Shift(x) ^ Shift(y)
  {
  }

  lemma ShiftXor01(x: bv32, y: bv32)
    requires x & 1 == 0 && y & 1 == 1
    ensures Shift(x ^ y) == Shift(x) ^ Shift(y)
  {
  }

  lemma ShiftXor10(x: bv32, y: bv32)
    requires x & 1 == 1 && y & 1 == 0
    ensures Shift(x ^ y) == Shift(x) ^ Shift(y)
  {
  }

  lemma ShiftXor11(x: bv32, y: bv32)
    requires x & 1 == 1 && y & 1 == 1
    ensures Shift(x ^ y) == Shift(x) ^ Shift(y)
  {
  }

  lemma LowBit(x: bv32)
    ensures x & 1 == 0 || x & 1 == 1
  {
  }

  lemma ShiftXor(x: bv32, y: bv32)
    ensures Shift(Xor(x, y)) == Xor(Shift(x), Shift(y))
  {
    LowBit(x);
    LowBit(y);
    if x & 1 == 1 {
      if y & 1 == 1 { ShiftXor11(x, y); } else { ShiftXor10(x, y); }
    } else {
      if y & 1 == 1 { ShiftXor01(x, y); } else { ShiftXor00(x, y); }
    }
  }

  lemma Shift8Xor(x: bv32, y: bv32)
    ensures Shift8(Xor(x, y)) == Xor(Shift8(x), Shift8(y))
  {
    hide Shift, Xor;
    ShiftXor(x, y);
    var x1, y1 := Shift(x), Shift(y);
    ShiftXor(x1, y1);
    var x2, y2 := Shift(x1), Shift(y1);
    ShiftXor(x2, y2);
    var x3, y3 := Shift(x2), Shift(y2);
    ShiftXor(x3, y3);
    var x4, y4 := Shift(x3), Shift(y3);
    ShiftXor(x4, y4);
    var x5, y5 := Shift(x4), Shift(y4);
    ShiftXor(x5, y5);
    var x6, y6 := Shift(x5), Shift(y5);
    ShiftXor(x6, y6);
    ShiftXor(Shift(x6), Shift(y6));
  }

  lemma Shift8High(x: bv32)
    ensures Shift8(High(x)) == Drop8(x)
  {
  }

  lemma HighLow(x: bv32)
    ensures x == Xor(High(x), Widen(Low(x)))
  {
  }

  lemma DropByte(fcs: bv32, b: bv8)
    ensures Drop8(Xor(fcs, Widen(b))) == Drop8(fcs)
  {
  }

  /** One table step is eight bit steps. */
  lemma TableStepIsShifts(fcs: bv32, b: bv8)
    ensures TableStep(fcs, b) == Shift8(Xor(fcs, Widen(b)))
  {
    hide Xor, Low, High, Drop8, Widen, Shift8, FcsTab;
    var x := Xor(fcs, Widen(b));
    HighLow(x);
    Shift8Xor(High(x), Widen(Low(x)));
    Shift8High(x);
    DropByte(fcs, b);
    EntryIsShifts(Low(x));
  }

  /** The table-driven routine computes the bit-serial check sequence, from every starting value. */
  lemma {:induction false} TableIsBitSerial(fcs: bv32, data: Bytes)
    ensures TableFcs(fcs, data) == BitSerial(fcs, data)
    decreases |data|
  {
    hide TableStep, Shift8;
    if data == [] {
    } else {
      TableStepIsShifts(fcs, data[0]);
      TableIsBitSerial(TableStep(fcs, data[0]), data[1..]);
    }
  }

  /** The check sequence of a concatenation continues from that of its first part. */
  lemma {:induction false} FcsConcat(fcs: bv32, a: Bytes, b: Bytes)
    ensures TableFcs(fcs, a + b) == TableFcs(TableFcs(fcs, a), b)
    decreases |a|
  {
    hide TableStep;
    if a == [] {
      assert a + b == b;
    } else {
      assert (a + b)[1..] == a[1..] + b && (a + b)[0] == a[0];
      FcsConcat(TableStep(fcs, a[0]), a[1..], b);
    }
  }

  // The loop of RTMP_CALC_FCS32 over part of a buffer.
  method CalcFcs(fcs: bv32, buf: array<bv8>, from: nat, len: nat) returns (r: bv32)
    requires from + len <= buf.Length
    ensures r == BitSerial(fcs, buf[from..from + len])
  {
    hide TableStep, BitSerial;
    r := fcs;
    ghost var data := buf[from..from + len];
    var k := 0;
    assert data[..0] == [];
    while k < len
      invariant k <= len && r == TableFcs(fcs, data[..k])
    {
      assert data[..k + 1] == data[..k] + [data[k]];
      FcsConcat(fcs, data[..k], [data[k]]);
      r := TableStep(r, buf[from + k]);
      k := k + 1;
    }
    assert data[..len] == data;
    TableIsBitSerial(fcs, data);
  }
}
