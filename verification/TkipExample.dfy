/** The key mixing of TKIP on the first example that the standard gives for it (IEEE 802.11-2012, annex M.1):
    temporal key 00 to 0f, transmitter 10 22 33 44 55 66, sequence counter 0. */
module TkipExample {
  import opened Common
  import opened TkipMix
  import opened TkipSbox

  const TK: Bytes := [0, 1, 2, 3, 4, 5, 6, 7, 8, 9, 10, 11, 12, 13, 14, 15]
  const TA: Bytes := [0x10, 0x22, 0x33, 0x44, 0x55, 0x66]

  lemma KeyWords()
    ensures Tk(TK, 0) == 0x0100 && Tk(TK, 2) == 0x0302
    ensures Tk(TK, 4) == 0x0504 && Tk(TK, 6) == 0x0706
    ensures Tk(TK, 8) == 0x0908 && Tk(TK, 10) == 0x0b0a
    ensures Tk(TK, 12) == 0x0d0c && Tk(TK, 14) == 0x0f0e
    ensures Tk(TA, 0) == 0x2210 && Tk(TA, 2) == 0x4433 && Tk(TA, 4) == 0x6655
  {
  }

  lemma Sums0()
    ensures Grow(SBOX, 0x0000, 0x6655, 0x0100) == 0x770e
    ensures Grow(SBOX, 0x0000, 0x770e, 0x0504) == 0x0e29
    ensures Grow(SBOX, 0x2210, 0x0e29, 0x0908) == 0xd79d
    ensures Grow(SBOX, 0x4433, 0xd79d, 0x0d0c) == 0x2469
    ensures Grow(SBOX, 0x6655, 0x2469, 0x0100) == 0x0ec3
  {
  }

  lemma Round0()
    ensures Round(SBOX, TK, 0, Ttak(0x0000, 0x0000, 0x2210, 0x4433, 0x6655)) ==
      Ttak(0x770e, 0x0e29, 0xd79d, 0x2469, 0x0ec3)
  {
    hide Grow, Tk, Index;
    KeyWords();
    IndexIs(0);
    Sums0();
  }

  lemma Sums1()
    ensures Grow(SBOX, 0x770e, 0x0ec3, 0x0302) == 0x094b
    ensures Grow(SBOX, 0x0e29, 0x094b, 0x0706) == 0x499c
    ensures Grow(SBOX, 0xd79d, 0x499c, 0x0b0a) == 0x2790
    ensures Grow(SBOX, 0x2469, 0x2790, 0x0f0e) == 0x6ede
    ensures Grow(SBOX, 0x0ec3, 0x6ede, 0x0302) == 0x62ac
  {
  }

  lemma Round1()
    ensures Round(SBOX, TK, 1, Ttak(0x770e, 0x0e29, 0xd79d, 0x2469, 0x0ec3)) ==
      Ttak(0x094b, 0x499c, 0x2790, 0x6ede, 0x62ad)
  {
    hide Grow, Tk, Index;
    KeyWords();
    IndexIs(0);
    Sums1();
  }

  lemma Sums2()
    ensures Grow(SBOX, 0x094b, 0x62ad, 0x0100) == 0x3094
    ensures Grow(SBOX, 0x499c, 0x3094, 0x0504) == 0xab33
    ensures Grow(SBOX, 0x2790, 0xab33, 0x0908) == 0xb8d9
    ensures Grow(SBOX, 0x6ede, 0xb8d9, 0x0d0c) == 0xd192
    ensures Grow(SBOX, 0x62ad, 0xd192, 0x0100) == 0x70de
  {
  }

  lemma Round2()
    ensures Round(SBOX, TK, 2, Ttak(0x094b, 0x499c, 0x2790, 0x6ede, 0x62ad)) ==
      Ttak(0x3094, 0xab33, 0xb8d9, 0xd192, 0x70e0)
  {
    hide Grow, Tk, Index;
    KeyWords();
    IndexIs(0);
    Sums2();
  }

  lemma Sums3()
    ensures Grow(SBOX, 0x3094, 0x70e0, 0x0302) == 0xd24a
    ensures Grow(SBOX, 0xab33, 0xd24a, 0x0706) == 0x02b0
    ensures Grow(SBOX, 0xb8d9, 0x02b0, 0x0b0a) == 0xa8de
    ensures Grow(SBOX, 0xd192, 0xa8de, 0x0f0e) == 0xd5ba
    ensures Grow(SBOX, 0x70e0, 0xd5ba, 0x0302) == 0x4a23
  {
  }

  lemma Round3()
    ensures Round(SBOX, TK, 3, Ttak(0x3094, 0xab33, 0xb8d9, 0xd192, 0x70e0)) ==
      Ttak(0xd24a, 0x02b0, 0xa8de, 0xd5ba, 0x4a26)
  {
    hide Grow, Tk, Index;
    KeyWords();
    IndexIs(0);
    Sums3();
  }

  lemma Sums4()
    ensures Grow(SBOX, 0xd24a, 0x4a26, 0x0100) == 0x0dc9
    ensures Grow(SBOX, 0x02b0, 0x0dc9, 0x0504) == 0x346c
    ensures Grow(SBOX, 0xa8de, 0x346c, 0x0908) == 0x9869
    ensures Grow(SBOX, 0xd5ba, 0x9869, 0x0d0c) == 0xba3d
    ensures Grow(SBOX, 0x4a26, 0xba3d, 0x0100) == 0xb5cc
  {
  }

  lemma Round4()
    ensures Round(SBOX, TK, 4, Ttak(0xd24a, 0x02b0, 0xa8de, 0xd5ba, 0x4a26)) ==
      Ttak(0x0dc9, 0x346c, 0x9869, 0xba3d, 0xb5d0)
  {
    hide Grow, Tk, Index;
    KeyWords();
    IndexIs(0);
    Sums4();
  }

  lemma Sums5()
    ensures Grow(SBOX, 0x0dc9, 0xb5d0, 0x0302) == 0xb121
    ensures Grow(SBOX, 0x346c, 0xb121, 0x0706) == 0x863f
    ensures Grow(SBOX, 0x9869, 0x863f, 0x0b0a) == 0x6884
    ensures Grow(SBOX, 0xba3d, 0x6884, 0x0f0e) == 0x22d0
    ensures Grow(SBOX, 0xb5d0, 0x22d0, 0x0302) == 0x22f5
  {
  }

  lemma Round5()
    ensures Round(SBOX, TK, 5, Ttak(0x0dc9, 0x346c, 0x9869, 0xba3d, 0xb5d0)) ==
      Ttak(0xb121, 0x863f, 0x6884, 0x22d0, 0x22fa)
  {
    hide Grow, Tk, Index;
    KeyWords();
    IndexIs(0);
    Sums5();
  }

  lemma Sums6()
    ensures Grow(SBOX, 0xb121, 0x22fa, 0x0100) == 0xe15c
    ensures Grow(SBOX, 0x863f, 0xe15c, 0x0504) == 0xf5ab
    ensures Grow(SBOX, 0x6884, 0xf5ab, 0x0908) == 0x47e9
    ensures Grow(SBOX, 0x22d0, 0x47e9, 0x0d0c) == 0xeb97
    ensures Grow(SBOX, 0x22fa, 0xeb97, 0x0100) == 0xbc90
  {
  }

  lemma Round6()
    ensures Round(SBOX, TK, 6, Ttak(0xb121, 0x863f, 0x6884, 0x22d0, 0x22fa)) ==
      Ttak(0xe15c, 0xf5ab, 0x47e9, 0xeb97, 0xbc96)
  {
    hide Grow, Tk, Index;
    KeyWords();
    IndexIs(0);
    Sums6();
  }

  lemma Sums7()
    ensures Grow(SBOX, 0xe15c, 0xbc96, 0x0302) == 0x3dd2
    ensures Grow(SBOX, 0xf5ab, 0x3dd2, 0x0706) == 0x016e
    ensures Grow(SBOX, 0x47e9, 0x016e, 0x0b0a) == 0x76f4
    ensures Grow(SBOX, 0xeb97, 0x76f4, 0x0f0e) == 0x8697
    ensures Grow(SBOX, 0xbc96, 0x8697, 0x0302) == 0xb2e1
  {
  }

  lemma Round7()
    ensures Round(SBOX, TK, 7, Ttak(0xe15c, 0xf5ab, 0x47e9, 0xeb97, 0xbc96)) ==
      Ttak(0x3dd2, 0x016e, 0x76f4, 0x8697, 0xb2e8)
  {
    hide Grow, Tk, Index;
    KeyWords();
    IndexIs(0);
    Sums7();
  }

  lemma RoundsMore(n: nat, p: Ttak)
    ensures Rounds(SBOX, TK, n + 1, p) == Round(SBOX, TK, n, Rounds(SBOX, TK, n, p))
  {
    hide Round;
  }

  /** Phase 1 gives the words of the standard. */
  lemma Phase1OfExample()
    ensures Phase1(SBOX, TK, TA, 0, 0) == Ttak(0x3dd2, 0x016e, 0x76f4, 0x8697, 0xb2e8)
  {
    hide Tk, Round, Rounds;
    KeyWords();
    var p := Ttak(0x0000, 0x0000, 0x2210, 0x4433, 0x6655);
    RoundsNone(p);
    RoundsMore(0, p); Round0();
    RoundsMore(1, p); Round1();
    RoundsMore(2, p); Round2();
    RoundsMore(3, p); Round3();
    RoundsMore(4, p); Round4();
    RoundsMore(5, p); Round5();
    RoundsMore(6, p); Round6();
    RoundsMore(7, p); Round7();
  }

  lemma RoundsNone(p: Ttak)
    ensures Rounds(SBOX, TK, 0, p) == p
  {
  }

  lemma Sums8()
    ensures Grow(SBOX, 0x3dd2, 0xb2e8, 0x0100) == 0xd83e
    ensures Grow(SBOX, 0x016e, 0xd83e, 0x0302) == 0x1ebd
    ensures Grow(SBOX, 0x76f4, 0x1ebd, 0x0504) == 0xbdb3
    ensures Grow(SBOX, 0x8697, 0xbdb3, 0x0706) == 0x3d2e
    ensures Grow(SBOX, 0xb2e8, 0x3d2e, 0x0908) == 0x901a
    ensures Grow(SBOX, 0xb2e8, 0x901a, 0x0b0a) == 0x6655
  {
  }

  lemma Phase2OfExample()
    ensures Phase2(SBOX, TK, Ttak(0x3dd2, 0x016e, 0x76f4, 0x8697, 0xb2e8), 0) ==
      Ppk(0x8dea, 0x602f, 0x6dca, 0x7413, 0x4a23, 0x0b66)
  {
    KeyWords();
    hide Tk;
    assert Substitute(SBOX, TK, Ppk(0x3dd2, 0x016e, 0x76f4, 0x8697, 0xb2e8, 0xb2e8)) ==
      Ppk(0xd83e, 0x1ebd, 0xbdb3, 0x3d2e, 0x901a, 0x6655) by {
      hide Grow;
      Sums8();
    }
    hide Substitute;
  }

  /** The key of the packet is the one of the standard. */
  lemma SeedOfExample()
    ensures Seed(TK, Phase2(SBOX, TK, Phase1(SBOX, TK, TA, 0, 0), 0), 0) ==
      [0x00, 0x20, 0x00, 0x33, 0xea, 0x8d, 0x2f, 0x60, 0xca, 0x6d, 0x13, 0x74, 0x23, 0x4a, 0x66, 0x0b]
  {
    Phase1OfExample();
    Phase2OfExample();
    KeyWords();
    hide Phase1, Phase2, Tk;
  }
}
