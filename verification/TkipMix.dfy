/** The per-packet key mixing of TKIP in common/cmm_tkip.c.  The driver computes in 32-bit unsigned
    words: phase 1 reduces every sum to 16 bits, phase 2 reduces none of them.  The definition it is
    measured against, section 11.4.2.5 of IEEE 802.11-2012, computes in 16-bit words throughout. */
module TkipMix {
  import opened Common
  import opened Michael

  // ---------- the definition: 16-bit words ----------

  // The two byte tables from which the 16-bit substitution is put together.
  datatype Tables = Tables(lower: bv8 -> bv8, upper: bv8 -> bv8)

  function Mk16(hi: bv8, lo: bv8): bv16 { ((hi as bv16) << 8) | (lo as bv16) }
  function Lo8(v: bv16): bv8 { (v & 0xff) as bv8 }
  function Hi8(v: bv16): bv8 { (v >> 8) as bv8 }
  function Mark(b: bv8): bv8 { (b | 0x20) & 0x7f }
  function Half8(v: bv16): bv8 { Lo8(v >> 1) }
  function Swap(v: bv16): bv16 { (v << 8) | (v >> 8) }
  function RotR1(v: bv16): bv16 { (v >> 1) | (v << 15) }
  function Add16(a: bv16, b: bv16): bv16 { a + b }
  function Xor16(a: bv16, b: bv16): bv16 { a ^ b }

  // One table of words, and its byte-swapped image for the high byte.
  function Entry(t: Tables, b: bv8): bv16 { Mk16(t.upper(b), t.lower(b)) }
  function S(t: Tables, v: bv16): bv16 { Xor16(Entry(t, Lo8(v)), Swap(Entry(t, Hi8(v)))) }

  function Index(i: nat): bv16 {
    if i == 0 then 0 else Index(i - 1) + 1
  }

  /** The number of each of the eight passes, and the byte that makes weak keys unlikely: bit 5 set, bit 7
      cleared, the others as they were. */
  lemma IndexIs(b: bv8)
    ensures [Index(0), Index(1), Index(2), Index(3), Index(4), Index(5), Index(6), Index(7)] == [0, 1, 2, 3, 4, 5, 6, 7]
    ensures Mark(b) & 0xa0 == 0x20 && Mark(b) & 0x5f == b & 0x5f
  {
    assert Index(2) == 2 && Index(4) == 4 && Index(6) == 6;
  }

  // The temporal key read as words, low byte first.
  function Tk(key: Bytes, k: nat): bv16
    requires k + 1 < |key|
  {
    Mk16(key[k + 1], key[k])
  }

  function Grow(t: Tables, p: bv16, q: bv16, k: bv16): bv16 { Add16(p, S(t, Xor16(q, k))) }

  datatype Ttak = Ttak(p0: bv16, p1: bv16, p2: bv16, p3: bv16, p4: bv16)

  function Round(t: Tables, key: Bytes, i: nat, p: Ttak): Ttak
    requires |key| == 16
  {
    var j := 2 * (i % 2);
    var p0 := Grow(t, p.p0, p.p4, Tk(key, j));
    var p1 := Grow(t, p.p1, p0, Tk(key, 4 + j));
    var p2 := Grow(t, p.p2, p1, Tk(key, 8 + j));
    var p3 := Grow(t, p.p3, p2, Tk(key, 12 + j));
    Ttak(p0, p1, p2, p3, Add16(Grow(t, p.p4, p3, Tk(key, j)), Index(i)))
  }

  function Rounds(t: Tables, key: Bytes, n: nat, p: Ttak): Ttak
    requires |key| == 16
  {
    if n == 0 then p else Round(t, key, n - 1, Rounds(t, key, n - 1, p))
  }

  // Phase 1 mixes the transmitter address and the upper 32 bits of the sequence counter.
  function Phase1(t: Tables, key: Bytes, ta: Bytes, iv32hi: bv16, iv32lo: bv16): Ttak
    requires |key| == 16 && |ta| == 6
  {
    Rounds(t, key, 8, Ttak(iv32lo, iv32hi, Tk(ta, 0), Tk(ta, 2), Tk(ta, 4)))
  }

  datatype Ppk = Ppk(p0: bv16, p1: bv16, p2: bv16, p3: bv16, p4: bv16, p5: bv16)

  function Substitute(t: Tables, key: Bytes, p: Ppk): Ppk
    requires |key| == 16
  {
    var p0 := Grow(t, p.p0, p.p5, Tk(key, 0));
    var p1 := Grow(t, p.p1, p0, Tk(key, 2));
    var p2 := Grow(t, p.p2, p1, Tk(key, 4));
    var p3 := Grow(t, p.p3, p2, Tk(key, 6));
    var p4 := Grow(t, p.p4, p3, Tk(key, 8));
    Ppk(p0, p1, p2, p3, p4, Grow(t, p.p5, p4, Tk(key, 10)))
  }

  function Rotate(key: Bytes, p: Ppk): Ppk
    requires |key| == 16
  {
    var p0 := Add16(p.p0, RotR1(Xor16(p.p5, Tk(key, 12))));
    var p1 := Add16(p.p1, RotR1(Xor16(p0, Tk(key, 14))));
    var p2 := Add16(p.p2, RotR1(p1));
    var p3 := Add16(p.p3, RotR1(p2));
    var p4 := Add16(p.p4, RotR1(p3));
    Ppk(p0, p1, p2, p3, p4, Add16(p.p5, RotR1(p4)))
  }

  // Phase 2 mixes in the lower 16 bits of the counter.
  function Phase2(t: Tables, key: Bytes, p: Ttak, iv16: bv16): Ppk
    requires |key| == 16
  {
    Rotate(key, Substitute(t, key, Ppk(p.p0, p.p1, p.p2, p.p3, p.p4, Add16(p.p4, iv16))))
  }

  function Head(key: Bytes, p5: bv16, iv16: bv16): (h: Bytes)
    requires |key| == 16
    ensures |h| == 4
  {
    [Hi8(iv16), Mark(Hi8(iv16)), Lo8(iv16), Half8(Xor16(p5, Tk(key, 0)))]
  }

  function Seed(key: Bytes, p: Ppk, iv16: bv16): Bytes
    requires |key| == 16
  {
    Head(key, p.p5, iv16) + [Lo8(p.p0), Hi8(p.p0)] + [Lo8(p.p1), Hi8(p.p1)] + [Lo8(p.p2), Hi8(p.p2)]
    + [Lo8(p.p3), Hi8(p.p3)] + [Lo8(p.p4), Hi8(p.p4)] + [Lo8(p.p5), Hi8(p.p5)]
  }

  // ---------- the driver's words ----------

  function Low(x: bv32): bv16 { (x & 0xffff) as bv16 }
  function Mask(x: bv32): bv32 { x & 0xffff }
  function Up(v: bv16): bv32 { v as bv32 }
  function Byte(x: bv32): bv8 { (x % 256) as bv8 }
  function HighByte(x: bv32): bv8 { Byte(x >> 8) }
  function HalfByte(x: bv32): bv8 { Byte(x >> 1) }
  function Upper(x: bv32): bv32 { x >> 16 }
  function Lower(x: bv32): bv32 { x << 16 }
  function Shr16(a: Wide): Wide { Wide(Upper(a.hi), Or(Upper(a.lo), Lower(a.hi))) }

  function Reduce(x: bv32): bv32 { x % 65536 }
  function Key16(hi: bv8, lo: bv8): bv32 { 256 * (hi as bv32) + (lo as bv32) }

  // tkip_sbox
  function Sbox(t: Tables, index: bv32): bv32 {
    var low := Byte(index);
    var high := HighByte(index);
    Xor(Key16(t.upper(low), t.lower(low)), Key16(t.lower(high), t.upper(high)))
  }

  // rotr1: only the low bit chooses, whatever lies above bit 15
  function Rotr1(a: bv32): bv32 {
    Reduce(if a & 0x01 == 0x01 then (a >> 1) | 0x8000 else (a >> 1) & 0x7fff)
  }

  lemma LowKey(hi: bv8, lo: bv8)
    ensures Key16(hi, lo) == Up(Mk16(hi, lo))
  {
  }

  lemma LowUp(v: bv16)
    ensures Low(Up(v)) == v
  {
  }

  lemma ReduceIsLow(x: bv32)
    ensures Reduce(x) == Up(Low(x)) && Low(Reduce(x)) == Low(x)
  {
  }

  lemma MaskAdd(a: bv32, b: bv32)
    ensures Mask(Add(a, b)) == Mask(Add(Mask(a), Mask(b)))
  {
  }

  lemma UpAdd(a: bv16, b: bv16)
    ensures Mask(Add(Up(a), Up(b))) == Up(Add16(a, b))
  {
  }

  lemma UpLow(x: bv32)
    ensures Up(Low(x)) == Mask(x)
  {
  }

  lemma SameMask(x: bv32, y: bv32)
    requires Mask(x) == Mask(y)
    ensures Low(x) == Low(y)
  {
  }

  lemma LowAdd(a: bv32, b: bv32)
    ensures Low(Add(a, b)) == Add16(Low(a), Low(b))
  {
    hide Low, Up, Mask, Add, Add16;
    UpLow(a);
    UpLow(b);
    UpLow(Add(a, b));
    MaskAdd(a, b);
    UpAdd(Low(a), Low(b));
    LowUp(Low(Add(a, b)));
    LowUp(Add16(Low(a), Low(b)));
  }

  lemma LowXor(a: bv32, b: bv32)
    ensures Low(Xor(a, b)) == Xor16(Low(a), Low(b))
  {
  }

  lemma RotOdd(a: bv32)
    requires a & 0x01 == 0x01
    ensures Low((a >> 1) | 0x8000) == RotR1(Low(a))
  {
  }

  lemma RotEven(a: bv32)
    requires a & 0x01 != 0x01
    ensures Low((a >> 1) & 0x7fff) == RotR1(Low(a))
  {
  }

  lemma LowRotr1(a: bv32)
    ensures Low(Rotr1(a)) == RotR1(Low(a))
  {
    hide Low, RotR1, Reduce;
    ReduceIsLow((a >> 1) | 0x8000);
    ReduceIsLow((a >> 1) & 0x7fff);
    if a & 0x01 == 0x01 {
      RotOdd(a);
    } else {
      RotEven(a);
    }
  }

  lemma LowBytes8(x: bv32)
    ensures Byte(x) == Lo8(Low(x)) && HighByte(x) == Hi8(Low(x)) && HalfByte(x) == Half8(Low(x))
  {
  }

  lemma SwapMk16(hi: bv8, lo: bv8)
    ensures Swap(Mk16(hi, lo)) == Mk16(lo, hi)
  {
  }

  /** tkip_sbox puts the 16-bit substitution together from the two byte tables. */
  lemma SboxIsS(t: Tables, index: bv32)
    ensures Low(Sbox(t, index)) == S(t, Low(index))
  {
    hide Low, Up, Byte, HighByte, Mk16, Swap, Key16, Xor, Xor16, Lo8, Hi8;
    var low, high := Byte(index), HighByte(index);
    LowBytes8(index);
    LowKey(t.upper(low), t.lower(low));
    LowKey(t.lower(high), t.upper(high));
    LowXor(Key16(t.upper(low), t.lower(low)), Key16(t.lower(high), t.upper(high)));
    LowUp(Mk16(t.upper(low), t.lower(low)));
    LowUp(Mk16(t.lower(high), t.upper(high)));
    SwapMk16(t.upper(high), t.lower(high));
  }

  // ---------- one addition of the mixing ----------

  function KeyWord(key: Bytes, k: nat): bv32
    requires k + 1 < |key|
  {
    Key16(key[k + 1], key[k])
  }

  lemma LowKeyWord(key: Bytes, k: nat)
    requires k + 1 < |key|
    ensures Low(KeyWord(key, k)) == Tk(key, k) && KeyWord(key, k) == Up(Tk(key, k))
  {
    hide Low, Up, Mk16, Key16;
    LowKey(key[k + 1], key[k]);
    LowUp(Mk16(key[k + 1], key[k]));
  }

  // The sum of phase 2: not reduced.
  function GrowW(t: Tables, p: bv32, q: bv32, k: bv32): bv32 { Add(p, Sbox(t, Reduce(Xor(q, k)))) }

  lemma LowGrow(t: Tables, p: bv32, q: bv32, key: Bytes, k: nat)
    requires k + 1 < |key|
    ensures Low(GrowW(t, p, q, KeyWord(key, k))) == Grow(t, Low(p), Low(q), Tk(key, k))
  {
    hide Low, Xor, Add, Xor16, Add16, Sbox, S, Reduce, KeyWord, Tk;
    var x := Xor(q, KeyWord(key, k));
    LowKeyWord(key, k);
    LowXor(q, KeyWord(key, k));
    ReduceIsLow(x);
    SboxIsS(t, Reduce(x));
    LowAdd(p, Sbox(t, Reduce(x)));
  }

  // The sum of phase 1: reduced to 16 bits.
  lemma ReducedGrow(t: Tables, p: bv16, q: bv16, key: Bytes, k: nat)
    requires k + 1 < |key|
    ensures Reduce(GrowW(t, Up(p), Up(q), KeyWord(key, k))) == Up(Grow(t, p, q, Tk(key, k)))
  {
    hide Low, Up, GrowW, Grow, Reduce, KeyWord, Tk;
    LowUp(p);
    LowUp(q);
    LowGrow(t, Up(p), Up(q), key, k);
    ReduceIsLow(GrowW(t, Up(p), Up(q), KeyWord(key, k)));
  }

  lemma ReducedAdd(p: bv16, q: bv16)
    ensures Reduce(Add(Up(p), Up(q))) == Up(Add16(p, q))
  {
    hide Low, Up, Reduce, Add, Add16;
    LowUp(p);
    LowUp(q);
    LowAdd(Up(p), Up(q));
    ReduceIsLow(Add(Up(p), Up(q)));
  }

  lemma LowTurn(p: bv32, q: bv32)
    ensures Low(Add(p, Rotr1(q))) == Add16(Low(p), RotR1(Low(q)))
  {
    hide Low, Add, Add16, Rotr1, RotR1;
    LowRotr1(q);
    LowAdd(p, Rotr1(q));
  }

  lemma LowTurnKey(p: bv32, q: bv32, key: Bytes, k: nat)
    requires k + 1 < |key|
    ensures Low(Add(p, Rotr1(Xor(q, KeyWord(key, k))))) == Add16(Low(p), RotR1(Xor16(Low(q), Tk(key, k))))
  {
    hide Low, Add, Add16, Rotr1, RotR1, Xor, Xor16, KeyWord, Tk;
    LowKeyWord(key, k);
    LowXor(q, KeyWord(key, k));
    LowTurn(p, Xor(q, KeyWord(key, k)));
  }

  // ---------- the two phases as the driver runs them ----------

  ghost function Held(p: Ttak): seq<bv32> { [Up(p.p0), Up(p.p1), Up(p.p2), Up(p.p3), Up(p.p4)] }

  function Get(p: Ttak, c: nat): bv16
    requires c < 5
  {
    if c == 0 then p.p0 else if c == 1 then p.p1 else if c == 2 then p.p2 else if c == 3 then p.p3 else p.p4
  }

  function Set(p: Ttak, c: nat, v: bv16): Ttak
    requires c < 5
  {
    if c == 0 then p.(p0 := v) else if c == 1 then p.(p1 := v) else if c == 2 then p.(p2 := v)
    else if c == 3 then p.(p3 := v) else p.(p4 := v)
  }

  lemma HeldAt(p: Ttak, c: nat, v: bv16)
    requires c < 5
    ensures Held(p)[c] == Up(Get(p, c)) && Held(p)[c := Up(v)] == Held(Set(p, c, v))
  {
    hide Up;
    var s, x := Held(p), Held(p)[c := Up(v)];
    if c == 0 {
      assert x == [Up(v), s[1], s[2], s[3], s[4]];
    } else if c == 1 {
      assert x == [s[0], Up(v), s[2], s[3], s[4]];
    } else if c == 2 {
      assert x == [s[0], s[1], Up(v), s[3], s[4]];
    } else if c == 3 {
      assert x == [s[0], s[1], s[2], Up(v), s[4]];
    } else {
      assert x == [s[0], s[1], s[2], s[3], Up(v)];
    }
  }

  // One assignment of phase 1: element c takes in element d.
  method MixCell(t: Tables, key: Bytes, k: nat, p1k: array<bv32>, c: nat, d: nat, ghost p: Ttak)
    requires k + 1 < |key| && c < 5 && d < 5 && p1k.Length == 5 && p1k[..] == Held(p)
    modifies p1k
    ensures p1k[..] == Held(Set(p, c, Grow(t, Get(p, c), Get(p, d), Tk(key, k))))
  {
    hide Up, Reduce, GrowW, Grow, KeyWord, Tk, Held, Get, Set;
    ghost var v := Grow(t, Get(p, c), Get(p, d), Tk(key, k));
    HeldAt(p, c, v);
    HeldAt(p, d, v);
    assert p1k[c] == p1k[..][c] && p1k[d] == p1k[..][d];
    ReducedGrow(t, Get(p, c), Get(p, d), key, k);
    p1k[c] := Reduce(GrowW(t, p1k[c], p1k[d], KeyWord(key, k)));
    assert p1k[..] == Held(p)[c := Up(v)];
  }

  // The last assignment of a pass adds the number of the pass.
  method MixNumber(i: nat, p1k: array<bv32>, ghost p: Ttak)
    requires p1k.Length == 5 && p1k[..] == Held(p)
    modifies p1k
    ensures p1k[..] == Held(Set(p, 4, Add16(Get(p, 4), Index(i))))
  {
    hide Up, Reduce, Add, Add16, Index, Held, Get, Set;
    ghost var v := Add16(Get(p, 4), Index(i));
    HeldAt(p, 4, v);
    assert p1k[4] == p1k[..][4];
    ReducedAdd(Get(p, 4), Index(i));
    p1k[4] := Reduce(Add(p1k[4], Up(Index(i))));
    assert p1k[..] == Held(p)[4 := Up(v)];
  }

  // One pass of the loop of phase 1, in place.
  method MixRound(t: Tables, key: Bytes, i: nat, p1k: array<bv32>, ghost p: Ttak)
    requires |key| == 16 && p1k.Length == 5 && p1k[..] == Held(p)
    modifies p1k
    ensures p1k[..] == Held(Round(t, key, i, p))
  {
    hide Grow, Tk, Add16, Index, Held;
    var j := 2 * (i % 2);
    ghost var r := Round(t, key, i, p);
    MixCell(t, key, j, p1k, 0, 4, p);
    MixCell(t, key, 4 + j, p1k, 1, 0, Ttak(r.p0, p.p1, p.p2, p.p3, p.p4));
    MixCell(t, key, 8 + j, p1k, 2, 1, Ttak(r.p0, r.p1, p.p2, p.p3, p.p4));
    MixCell(t, key, 12 + j, p1k, 3, 2, Ttak(r.p0, r.p1, r.p2, p.p3, p.p4));
    MixCell(t, key, j, p1k, 4, 3, Ttak(r.p0, r.p1, r.p2, r.p3, p.p4));
    MixNumber(i, p1k, Ttak(r.p0, r.p1, r.p2, r.p3, Grow(t, p.p4, r.p3, Tk(key, j))));
  }

  /** RTMPTkipMixKey, phase 1: p1k ends up holding exactly the 16-bit words of the definition. */
  method MixPhase1(t: Tables, key: Bytes, ta: Bytes, tsc0: bv16, tsc1: bv16, p1k: array<bv32>)
    requires |key| == 16 && |ta| == 6 && p1k.Length == 5
    modifies p1k
    ensures p1k[..] == Held(Phase1(t, key, ta, tsc0, tsc1))
  {
    hide Up, Low, Round, KeyWord, Tk;
    p1k[0], p1k[1] := Up(tsc1), Up(tsc0);
    LowKeyWord(ta, 0);
    LowKeyWord(ta, 2);
    LowKeyWord(ta, 4);
    p1k[2], p1k[3], p1k[4] := KeyWord(ta, 0), KeyWord(ta, 2), KeyWord(ta, 4);
    ghost var p := Ttak(tsc1, tsc0, Tk(ta, 0), Tk(ta, 2), Tk(ta, 4));
    for i := 0 to 8
      invariant p1k[..] == Held(Rounds(t, key, i, p))
    {
      MixRound(t, key, i, p1k, Rounds(t, key, i, p));
    }
  }

  datatype PpkW = PpkW(p0: bv32, p1: bv32, p2: bv32, p3: bv32, p4: bv32, p5: bv32) {
    function Lows(): Ppk { Ppk(Low(p0), Low(p1), Low(p2), Low(p3), Low(p4), Low(p5)) }
  }

  // The substitution and rotation steps of phase 2, whose sums run past 16 bits.
  method MixSubstitute(t: Tables, key: Bytes, p: PpkW) returns (q: PpkW)
    requires |key| == 16
    ensures q.Lows() == Substitute(t, key, p.Lows())
  {
    hide Low, GrowW, Grow, KeyWord, Tk;
    LowGrow(t, p.p0, p.p5, key, 0);
    var ppk0 := GrowW(t, p.p0, p.p5, KeyWord(key, 0));
    LowGrow(t, p.p1, ppk0, key, 2);
    var ppk1 := GrowW(t, p.p1, ppk0, KeyWord(key, 2));
    LowGrow(t, p.p2, ppk1, key, 4);
    var ppk2 := GrowW(t, p.p2, ppk1, KeyWord(key, 4));
    LowGrow(t, p.p3, ppk2, key, 6);
    var ppk3 := GrowW(t, p.p3, ppk2, KeyWord(key, 6));
    LowGrow(t, p.p4, ppk3, key, 8);
    var ppk4 := GrowW(t, p.p4, ppk3, KeyWord(key, 8));
    LowGrow(t, p.p5, ppk4, key, 10);
    var ppk5 := GrowW(t, p.p5, ppk4, KeyWord(key, 10));
    q := PpkW(ppk0, ppk1, ppk2, ppk3, ppk4, ppk5);
  }

  method MixRotate(key: Bytes, p: PpkW) returns (q: PpkW)
    requires |key| == 16
    ensures q.Lows() == Rotate(key, p.Lows())
  {
    hide Low, Add, Add16, Xor, Xor16, Rotr1, RotR1, KeyWord, Tk;
    LowTurnKey(p.p0, p.p5, key, 12);
    var ppk0 := Add(p.p0, Rotr1(Xor(p.p5, KeyWord(key, 12))));
    LowTurnKey(p.p1, ppk0, key, 14);
    var ppk1 := Add(p.p1, Rotr1(Xor(ppk0, KeyWord(key, 14))));
    LowTurn(p.p2, ppk1);
    var ppk2 := Add(p.p2, Rotr1(ppk1));
    LowTurn(p.p3, ppk2);
    var ppk3 := Add(p.p3, Rotr1(ppk2));
    LowTurn(p.p4, ppk3);
    var ppk4 := Add(p.p4, Rotr1(ppk3));
    LowTurn(p.p5, ppk4);
    var ppk5 := Add(p.p5, Rotr1(ppk4));
    q := PpkW(ppk0, ppk1, ppk2, ppk3, ppk4, ppk5);
  }

  // Step 3: the bytes of the key, each cut out of an unreduced word.
  method PutSeed(key: Bytes, p: PpkW, tsc2: bv16, rc4key: array<bv8>)
    requires |key| == 16 && rc4key.Length == 16
    modifies rc4key
    ensures rc4key[..] == Seed(key, p.Lows(), tsc2)
  {
    hide Low, Lo8, Hi8, Head;
    PutHead(key, p.p5, tsc2, rc4key);
    PutWord(p.p0, rc4key, 4);
    PutWord(p.p1, rc4key, 6);
    PutWord(p.p2, rc4key, 8);
    PutWord(p.p3, rc4key, 10);
    PutWord(p.p4, rc4key, 12);
    PutWord(p.p5, rc4key, 14);
    assert rc4key[..] == rc4key[..16];
  }

  method PutHead(key: Bytes, p5: bv32, tsc2: bv16, a: array<bv8>)
    requires |key| == 16 && 4 <= a.Length
    modifies a
    ensures a[..4] == Head(key, Low(p5), tsc2)
  {
    hide Low, Up, Byte, HighByte, HalfByte, Half8, Mark, Lo8, Hi8, Xor, Xor16, KeyWord, Tk;
    LowUp(tsc2);
    LowBytes8(Up(tsc2));
    LowKeyWord(key, 0);
    LowXor(p5, KeyWord(key, 0));
    LowBytes8(Xor(p5, KeyWord(key, 0)));
    a[0], a[1], a[2] := HighByte(Up(tsc2)), Mark(HighByte(Up(tsc2))), Byte(Up(tsc2));
    a[3] := HalfByte(Xor(p5, KeyWord(key, 0)));
  }

  method PutWord(x: bv32, a: array<bv8>, k: nat)
    requires k + 1 < a.Length
    modifies a
    ensures a[..k + 2] == old(a[..k]) + [Lo8(Low(x)), Hi8(Low(x))]
  {
    hide Low, Byte, HighByte, Lo8, Hi8;
    LowBytes8(x);
    a[k] := Byte(x);
    a[k + 1] := HighByte(x);
  }

  lemma MaskUpper(hi: bv32, lo: bv32)
    ensures Mask(Or(Upper(lo), Lower(hi))) == Mask(Upper(lo))
  {
  }

  lemma UpperCounter(pnh: Wide)
    ensures Low(Shr16(pnh).lo) == Low(pnh.lo >> 16)
  {
    assert Upper(pnh.lo) == pnh.lo >> 16;
    hide Low, Mask, Or, Upper, Lower;
    MaskUpper(pnh.hi, pnh.lo);
    SameMask(Or(Upper(pnh.lo), Lower(pnh.hi)), Upper(pnh.lo));
  }

  /** RTMPTkipMixKey: the key the driver produces in unreduced arithmetic is the key of the 16-bit
      definition, and p1k is left holding the phase 1 result. */
  method MixKey(t: Tables, key: Bytes, ta: Bytes, pnl: Wide, pnh: Wide, rc4key: array<bv8>, p1k: array<bv32>)
    requires |key| == 16 && |ta| == 6 && rc4key.Length == 16 && p1k.Length == 5
    modifies rc4key, p1k
    ensures
      var ttak := Phase1(t, key, ta, Low(pnh.lo >> 16), Low(pnh.lo));
      && p1k[..] == Held(ttak)
      && rc4key[..] == Seed(key, Phase2(t, key, ttak, Low(pnl.lo)), Low(pnl.lo))
  {
    hide Low, Up, Upper, Shr16, Reduce, Add, Add16, Phase1, Substitute, Rotate, Seed;
    UpperCounter(pnh);
    var tsc0, tsc1, tsc2 := Low(Shr16(pnh).lo), Low(pnh.lo), Low(pnl.lo);
    MixPhase1(t, key, ta, tsc0, tsc1, p1k);
    ghost var ttak := Phase1(t, key, ta, tsc0, tsc1);
    var ttakW := p1k[..];
    ReducedAdd(ttak.p4, tsc2);
    var ppk5 := Reduce(Add(ttakW[4], Up(tsc2)));
    ghost var p := Ppk(ttak.p0, ttak.p1, ttak.p2, ttak.p3, ttak.p4, Add16(ttak.p4, tsc2));
    var ppk := PpkW(ttakW[0], ttakW[1], ttakW[2], ttakW[3], ttakW[4], ppk5);
    LowUps(p);
    assert ppk.Lows() == p;
    ppk := MixSubstitute(t, key, ppk);
    ppk := MixRotate(key, ppk);
    PutSeed(key, ppk, tsc2, rc4key);
  }

  lemma LowUps(p: Ppk)
    ensures PpkW(Up(p.p0), Up(p.p1), Up(p.p2), Up(p.p3), Up(p.p4), Up(p.p5)).Lows() == p
  {
    hide Low, Up;
    LowUp(p.p0);
    LowUp(p.p1);
    LowUp(p.p2);
    LowUp(p.p3);
    LowUp(p.p4);
    LowUp(p.p5);
  }
}
