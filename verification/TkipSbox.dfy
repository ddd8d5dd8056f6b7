/** The substitution tables of common/cmm_tkip.c, and the mixing with them. */
module TkipSbox {
  import opened TkipMix

  // ---------- Tkip_Sbox_Upper and Tkip_Sbox_Lower as the high and low bytes of words, eight words a row ----------

  const ROW00: seq<bv16> := [0xc6a5, 0xf884, 0xee99, 0xf68d, 0xff0d, 0xd6bd, 0xdeb1, 0x9154]
  const ROW01: seq<bv16> := [0x6050, 0x0203, 0xcea9, 0x567d, 0xe719, 0xb562, 0x4de6, 0xec9a]
  const ROW02: seq<bv16> := [0x8f45, 0x1f9d, 0x8940, 0xfa87, 0xef15, 0xb2eb, 0x8ec9, 0xfb0b]
  const ROW03: seq<bv16> := [0x41ec, 0xb367, 0x5ffd, 0x45ea, 0x23bf, 0x53f7, 0xe496, 0x9b5b]
  const ROW04: seq<bv16> := [0x75c2, 0xe11c, 0x3dae, 0x4c6a, 0x6c5a, 0x7e41, 0xf502, 0x834f]
  const ROW05: seq<bv16> := [0x685c, 0x51f4, 0xd134, 0xf908, 0xe293, 0xab73, 0x6253, 0x2a3f]
  const ROW06: seq<bv16> := [0x080c, 0x9552, 0x4665, 0x9d5e, 0x3028, 0x37a1, 0x0a0f, 0x2fb5]
  const ROW07: seq<bv16> := [0x0e09, 0x2436, 0x1b9b, 0xdf3d, 0xcd26, 0x4e69, 0x7fcd, 0xea9f]
  const ROW08: seq<bv16> := [0x121b, 0x1d9e, 0x5874, 0x342e, 0x362d, 0xdcb2, 0xb4ee, 0x5bfb]
  const ROW09: seq<bv16> := [0xa4f6, 0x764d, 0xb761, 0x7dce, 0x527b, 0xdd3e, 0x5e71, 0x1397]
  const ROW10: seq<bv16> := [0xa6f5, 0xb968, 0x0000, 0xc12c, 0x4060, 0xe31f, 0x79c8, 0xb6ed]
  const ROW11: seq<bv16> := [0xd4be, 0x8d46, 0x67d9, 0x724b, 0x94de, 0x98d4, 0xb0e8, 0x854a]
  const ROW12: seq<bv16> := [0xbb6b, 0xc52a, 0x4fe5, 0xed16, 0x86c5, 0x9ad7, 0x6655, 0x1194]
  const ROW13: seq<bv16> := [0x8acf, 0xe910, 0x0406, 0xfe81, 0xa0f0, 0x7844, 0x25ba, 0x4be3]
  const ROW14: seq<bv16> := [0xa2f3, 0x5dfe, 0x80c0, 0x058a, 0x3fad, 0x21bc, 0x7048, 0xf104]
  const ROW15: seq<bv16> := [0x63df, 0x77c1, 0xaf75, 0x4263, 0x2030, 0xe51a, 0xfd0e, 0xbf6d]
  const ROW16: seq<bv16> := [0x814c, 0x1814, 0x2635, 0xc32f, 0xbee1, 0x35a2, 0x88cc, 0x2e39]
  const ROW17: seq<bv16> := [0x9357, 0x55f2, 0xfc82, 0x7a47, 0xc8ac, 0xbae7, 0x322b, 0xe695]
  const ROW18: seq<bv16> := [0xc0a0, 0x1998, 0x9ed1, 0xa37f, 0x4466, 0x547e, 0x3bab, 0x0b83]
  const ROW19: seq<bv16> := [0x8cca, 0xc729, 0x6bd3, 0x283c, 0xa779, 0xbce2, 0x161d, 0xad76]
  const ROW20: seq<bv16> := [0xdb3b, 0x6456, 0x744e, 0x141e, 0x92db, 0x0c0a, 0x486c, 0xb8e4]
  const ROW21: seq<bv16> := [0x9f5d, 0xbd6e, 0x43ef, 0xc4a6, 0x39a8, 0x31a4, 0xd337, 0xf28b]
  const ROW22: seq<bv16> := [0xd532, 0x8b43, 0x6e59, 0xdab7, 0x018c, 0xb164, 0x9cd2, 0x49e0]
  const ROW23: seq<bv16> := [0xd8b4, 0xacfa, 0xf307, 0xcf25, 0xcaaf, 0xf48e, 0x47e9, 0x1018]
  const ROW24: seq<bv16> := [0x6fd5, 0xf088, 0x4a6f, 0x5c72, 0x3824, 0x57f1, 0x73c7, 0x9751]
  const ROW25: seq<bv16> := [0xcb23, 0xa17c, 0xe89c, 0x3e21, 0x96dd, 0x61dc, 0x0d86, 0x0f85]
  const ROW26: seq<bv16> := [0xe090, 0x7c42, 0x71c4, 0xccaa, 0x90d8, 0x0605, 0xf701, 0x1c12]
  const ROW27: seq<bv16> := [0xc2a3, 0x6a5f, 0xaef9, 0x69d0, 0x1791, 0x9958, 0x3a27, 0x27b9]
  const ROW28: seq<bv16> := [0xd938, 0xeb13, 0x2bb3, 0x2233, 0xd2bb, 0xa970, 0x0789, 0x33a7]
  const ROW29: seq<bv16> := [0x2db6, 0x3c22, 0x1592, 0xc920, 0x8749, 0xaaff, 0x5078, 0xa57a]
  const ROW30: seq<bv16> := [0x038f, 0x59f8, 0x0980, 0x1a17, 0x65da, 0xd731, 0x84c6, 0xd0b8]
  const ROW31: seq<bv16> := [0x82c3, 0x29b0, 0x5a77, 0x1e11, 0x7bcb, 0xa8fc, 0x6dd6, 0x2c3a]

  // The row that holds the word of i.
  function Row(i: bv8): seq<bv16> {
    if i < 8 then ROW00
    else if i < 16 then ROW01
    else if i < 24 then ROW02
    else if i < 32 then ROW03
    else if i < 40 then ROW04
    else if i < 48 then ROW05
    else if i < 56 then ROW06
    else if i < 64 then ROW07
    else if i < 72 then ROW08
    else if i < 80 then ROW09
    else if i < 88 then ROW10
    else if i < 96 then ROW11
    else if i < 104 then ROW12
    else if i < 112 then ROW13
    else if i < 120 then ROW14
    else if i < 128 then ROW15
    else if i < 136 then ROW16
    else if i < 144 then ROW17
    else if i < 152 then ROW18
    else if i < 160 then ROW19
    else if i < 168 then ROW20
    else if i < 176 then ROW21
    else if i < 184 then ROW22
    else if i < 192 then ROW23
    else if i < 200 then ROW24
    else if i < 208 then ROW25
    else if i < 216 then ROW26
    else if i < 224 then ROW27
    else if i < 232 then ROW28
    else if i < 240 then ROW29
    else if i < 248 then ROW30
    else ROW31
  }

  function Word(i: bv8): bv16 {
    RowLength(i);
    Row(i)[(i & 7) as int]
  }

  lemma RowLength(i: bv8)
    ensures |Row(i)| == 8 && 0 <= (i & 7) as int < 8
  {
    LowThree(i);
  }

  lemma LowThree(i: bv8)
    ensures 0 <= (i & 7) as int < 8
  {
    var k := i & 7;
    assert k == 0 || k == 1 || k == 2 || k == 3 || k == 4 || k == 5 || k == 6 || k == 7;
  }

  function Lower(i: bv8): bv8 { Lo8(Word(i)) }
  function Upper(i: bv8): bv8 { Hi8(Word(i)) }

  const SBOX := Tables(Lower, Upper)

  // ---------- the field of 256 elements ----------

  // The product with x, modulo x^8 + x^4 + x^3 + x + 1.
  function Double(x: bv8): bv8 { if x & 0x80 == 0 then x << 1 else (x << 1) ^ 0x1b }

  function Product(x: bv8, y: bv8): bv8 {
    var x1 := Double(x);
    var x2 := Double(x1);
    var x3 := Double(x2);
    var x4 := Double(x3);
    var x5 := Double(x4);
    var x6 := Double(x5);
    (if y & 0x01 == 0 then 0 else x) ^ (if y & 0x02 == 0 then 0 else x1) ^ (if y & 0x04 == 0 then 0 else x2) ^
    (if y & 0x08 == 0 then 0 else x3) ^ (if y & 0x10 == 0 then 0 else x4) ^ (if y & 0x20 == 0 then 0 else x5) ^
    (if y & 0x40 == 0 then 0 else x6) ^ (if y & 0x80 == 0 then 0 else Double(x6))
  }

  function Rotl(x: bv8, n: bv4): bv8
    requires 1 <= n <= 7
  { (x << n) | (x >> (8 - n)) }

  // The affine step of the AES substitution, and the step back.
  function Affine(x: bv8): bv8 { x ^ Rotl(x, 1) ^ Rotl(x, 2) ^ Rotl(x, 3) ^ Rotl(x, 4) ^ 0x63 }
  function Unaffine(s: bv8): bv8 { Rotl(s, 1) ^ Rotl(s, 3) ^ Rotl(s, 6) ^ 0x05 }

  // The word of b is twice and three times the AES substitution of b: s is the affine image of the inverse of b.
  predicate IsEntry(b: bv8, w: bv16) {
    var s := Hi8(w) ^ Lo8(w);
    Hi8(w) == Double(s) && Product(Unaffine(s), b) == (if b == 0 then 0 else 1) && (b == 0 ==> Unaffine(s) == 0)
  }

  predicate IsRow(b: bv8, w: seq<bv16>) {
    && |w| == 8
    && IsEntry(b, w[0]) && IsEntry(b | 1, w[1])
    && IsEntry(b | 2, w[2]) && IsEntry(b | 3, w[3])
    && IsEntry(b | 4, w[4]) && IsEntry(b | 5, w[5])
    && IsEntry(b | 6, w[6]) && IsEntry(b | 7, w[7])
  }

  lemma Is00()
    ensures IsRow(0, ROW00)
  {
  }

  lemma Is01()
    ensures IsRow(8, ROW01)
  {
  }

  lemma Is02()
    ensures IsRow(16, ROW02)
  {
  }

  lemma Is03()
    ensures IsRow(24, ROW03)
  {
  }

  lemma Is04()
    ensures IsRow(32, ROW04)
  {
  }

  lemma Is05()
    ensures IsRow(40, ROW05)
  {
  }

  lemma Is06()
    ensures IsRow(48, ROW06)
  {
  }

  lemma Is07()
    ensures IsRow(56, ROW07)
  {
  }

  lemma Is08()
    ensures IsRow(64, ROW08)
  {
  }

  lemma Is09()
    ensures IsRow(72, ROW09)
  {
  }

  lemma Is10()
    ensures IsRow(80, ROW10)
  {
  }

  lemma Is11()
    ensures IsRow(88, ROW11)
  {
  }

  lemma Is12()
    ensures IsRow(96, ROW12)
  {
  }

  lemma Is13()
    ensures IsRow(104, ROW13)
  {
  }

  lemma Is14()
    ensures IsRow(112, ROW14)
  {
  }

  lemma Is15()
    ensures IsRow(120, ROW15)
  {
  }

  lemma Is16()
    ensures IsRow(128, ROW16)
  {
  }

  lemma Is17()
    ensures IsRow(136, ROW17)
  {
  }

  lemma Is18()
    ensures IsRow(144, ROW18)
  {
  }

  lemma Is19()
    ensures IsRow(152, ROW19)
  {
  }

  lemma Is20()
    ensures IsRow(160, ROW20)
  {
  }

  lemma Is21()
    ensures IsRow(168, ROW21)
  {
  }

  lemma Is22()
    ensures IsRow(176, ROW22)
  {
  }

  lemma Is23()
    ensures IsRow(184, ROW23)
  {
  }

  lemma Is24()
    ensures IsRow(192, ROW24)
  {
  }

  lemma Is25()
    ensures IsRow(200, ROW25)
  {
  }

  lemma Is26()
    ensures IsRow(208, ROW26)
  {
  }

  lemma Is27()
    ensures IsRow(216, ROW27)
  {
  }

  lemma Is28()
    ensures IsRow(224, ROW28)
  {
  }

  lemma Is29()
    ensures IsRow(232, ROW29)
  {
  }

  lemma Is30()
    ensures IsRow(240, ROW30)
  {
  }

  lemma Is31()
    ensures IsRow(248, ROW31)
  {
  }

  lemma RowIsRow(i: bv8)
    ensures IsRow(i & 0xf8, Row(i))
  {
    hide IsRow;
    Is00(); Is01(); Is02(); Is03(); Is04(); Is05(); Is06(); Is07();
    Is08(); Is09(); Is10(); Is11(); Is12(); Is13(); Is14(); Is15();
    Is16(); Is17(); Is18(); Is19(); Is20(); Is21(); Is22(); Is23();
    Is24(); Is25(); Is26(); Is27(); Is28(); Is29(); Is30(); Is31();
  }

  /** Every entry of the two tables is the AES substitution of its index, doubled and tripled. */
  lemma EntryIsSubstitution(i: bv8)
    ensures IsEntry(i, Word(i))
  {
    RowIsRow(i);
    hide Row, IsEntry;
    var k := i & 7;
    if k == 0 { assert i == i & 0xf8; }
    else if k == 1 { assert i == (i & 0xf8) | 1; }
    else if k == 2 { assert i == (i & 0xf8) | 2; }
    else if k == 3 { assert i == (i & 0xf8) | 3; }
    else if k == 4 { assert i == (i & 0xf8) | 4; }
    else if k == 5 { assert i == (i & 0xf8) | 5; }
    else if k == 6 { assert i == (i & 0xf8) | 6; }
    else { assert i == (i & 0xf8) | 7; }
  }
}
