/** The Michael message integrity code of common/cmm_tkip.c. The driver keeps L, R and M in machine
    words of at least 32 bits and never reduces them; the code is defined on words of 32. */
module Michael {
  import opened Common

  // ---------- the definition on 32-bit words ----------

  function Xor(a: bv32, b: bv32): bv32 { a ^ b }
  function Or(a: bv32, b: bv32): bv32 { a | b }
  function Add(a: bv32, b: bv32): bv32 { a + b }
  function Rol17(a: bv32): bv32 { (a << 17) | (a >> 15) }
  function Rol3(a: bv32): bv32 { (a << 3) | (a >> 29) }
  function Ror2(a: bv32): bv32 { (a >> 2) | (a << 30) }
  function SwapBytes(a: bv32): bv32 { ((a & 0xff00ff00) >> 8) | ((a & 0x00ff00ff) << 8) }

  datatype Pair = Pair(l: bv32, r: bv32)

  // The block function.
  function Block(p: Pair, m: bv32): Pair {
    var l0 := Xor(p.l, m);
    var r1 := Xor(p.r, Rol17(l0));
    var l1 := Add(l0, r1);
    var r2 := Xor(r1, SwapBytes(l1));
    var l2 := Add(l1, r2);
    var r3 := Xor(r2, Rol3(l2));
    var l3 := Add(l2, r3);
    var r4 := Xor(r3, Ror2(l3));
    Pair(Add(l3, r4), r4)
  }

  // Up to four bytes, the first the least significant.
  function Word(b: Bytes): bv32
    requires |b| <= 4
  {
    if b == [] then 0 else Or(Word(b[..|b| - 1]), At(b[|b| - 1], |b| - 1))
  }

  // A byte in the place of the k-th.
  function At(b: bv8, k: nat): bv32
    requires k < 4
  {
    if k == 0 then b as bv32 else if k == 1 then b as bv32 << 8 else if k == 2 then b as bv32 << 16 else b as bv32 << 24
  }

  function Fold(p: Pair, msg: Bytes): Pair
    requires |msg| % 4 == 0
    decreases |msg|
  {
    if msg == [] then p else Block(Fold(p, msg[..|msg| - 4]), Word(msg[|msg| - 4..]))
  }

  function Zeros(n: nat): (z: Bytes)
    ensures |z| == n
  {
    seq(n, _ => 0)
  }

  // The message, 0x5a, and the fewest zeros from four to seven that fill the last word.
  function Padded(msg: Bytes): (p: Bytes)
    ensures |p| % 4 == 0 && msg + [0x5a] <= p && 4 <= |p| - |msg| - 1 <= 7
    ensures forall i :: |msg| < i < |p| ==> p[i] == 0
  {
    msg + [0x5a] + Zeros(7 - |msg| % 4)
  }

  function ToBytes(x: bv32): Bytes {
    [(x & 0xff) as bv8, ((x >> 8) & 0xff) as bv8, ((x >> 16) & 0xff) as bv8, ((x >> 24) & 0xff) as bv8]
  }

  function KeyPair(key: Bytes): Pair
    requires |key| == 8
  {
    Pair(Word(key[..4]), Word(key[4..]))
  }

  /** The code of a message: eight bytes. */
  function Mic(key: Bytes, msg: Bytes): Bytes
    requires |key| == 8
  {
    var p := Fold(KeyPair(key), Padded(msg));
    ToBytes(p.l) + ToBytes(p.r)
  }

  lemma FoldWords(p: Pair, a: Bytes, b: Bytes)
    requires |a| == |b| == 4
    ensures Fold(p, a + b) == Block(Block(p, Word(a)), Word(b))
  {
    hide Block, Word;
    assert Fold(p, []) == p && [] + a == a;
    FoldLast(p, [], a);
    FoldLast(p, a, b);
  }

  lemma WordOf(b0: bv8, b1: bv8, b2: bv8, b3: bv8)
    ensures Word([b0, b1, b2, b3]) == Or(Or(Or(Or(0, At(b0, 0)), At(b1, 1)), At(b2, 2)), At(b3, 3))
  {
    hide Or, At, Word;
    WordNone();
    WordGrows([], b0);
    WordGrows([b0], b1);
    WordGrows([b0, b1], b2);
    WordGrows([b0, b1, b2], b3);
    assert [] + [b0] == [b0] && [b0] + [b1] == [b0, b1] && [b0, b1] + [b2] == [b0, b1, b2];
    assert [b0, b1, b2] + [b3] == [b0, b1, b2, b3];
  }

  lemma ZeroWords()
    ensures Word([0, 0, 0, 0]) == 0 && Word([0x5a, 0, 0, 0]) == 0x5a
  {
    WordOf(0, 0, 0, 0);
    WordOf(0x5a, 0, 0, 0);
  }

  lemma KeyWords()
    ensures Word([0xd5, 0x5e, 0x10, 0x05]) == 0x05105ed5 && Word([0x10, 0x12, 0x89, 0x86]) == 0x86891210
  {
    WordOf(0xd5, 0x5e, 0x10, 0x05);
    WordOf(0x10, 0x12, 0x89, 0x86);
  }

  lemma TextWords()
    ensures Word([0x4d, 0x69, 0x63, 0x68]) == 0x6863694d && Word([0x61, 0x65, 0x6c, 0x5a]) == 0x5a6c6561
  {
    WordOf(0x4d, 0x69, 0x63, 0x68);
    WordOf(0x61, 0x65, 0x6c, 0x5a);
  }

  lemma ZeroBlocks()
    ensures Block(Block(Pair(0, 0), 0x5a), 0) == Pair(0x1c5c9282, 0xb830d1a1)
  {
    assert Block(Pair(0, 0), 0x5a) == Pair(0xc000134d, 0xeaa1301e);
  }

  lemma TextBlocks()
    ensures Block(Block(Block(Pair(0x05105ed5, 0x86891210), 0x6863694d), 0x5a6c6561), 0)
         == Pair(0x122b940a, 0x46a5ca4e)
  {
    assert Block(Pair(0x05105ed5, 0x86891210), 0x6863694d) == Pair(0xf4774c9a, 0xb4278a40);
    assert Block(Pair(0xf4774c9a, 0xb4278a40), 0x5a6c6561) == Pair(0x4e304879, 0xaa360847);
  }

  /** The values that IEEE 802.11 gives for the empty message under the key of zeros, and for "Michael". */
  lemma MicOfNothing()
    ensures Mic([0, 0, 0, 0, 0, 0, 0, 0], []) == [0x82, 0x92, 0x5c, 0x1c, 0xa1, 0xd1, 0x30, 0xb8]
  {
    hide Block, Word, Fold;
    var key: Bytes, a: Bytes, z: Bytes := [0, 0, 0, 0, 0, 0, 0, 0], [0x5a, 0, 0, 0], [0, 0, 0, 0];
    assert key[..4] == z && key[4..] == z;
    assert Padded([]) == a + z;
    ZeroWords();
    FoldWords(Pair(0, 0), a, z);
    ZeroBlocks();
  }

  lemma MicOfMichael()
    ensures Mic([0xd5, 0x5e, 0x10, 0x05, 0x10, 0x12, 0x89, 0x86], [0x4d, 0x69, 0x63, 0x68, 0x61, 0x65, 0x6c])
         == [0x0a, 0x94, 0x2b, 0x12, 0x4e, 0xca, 0xa5, 0x46]
  {
    hide Block, Word, Fold;
    var key: Bytes, msg: Bytes :=
      [0xd5, 0x5e, 0x10, 0x05, 0x10, 0x12, 0x89, 0x86], [0x4d, 0x69, 0x63, 0x68, 0x61, 0x65, 0x6c];
    var a: Bytes, b: Bytes, z: Bytes := [0x4d, 0x69, 0x63, 0x68], [0x61, 0x65, 0x6c, 0x5a], [0, 0, 0, 0];
    assert key[..4] == [0xd5, 0x5e, 0x10, 0x05] && key[4..] == [0x10, 0x12, 0x89, 0x86];
    assert Padded(msg) == a + b + z;
    KeyWords();
    TextWords();
    ZeroWords();
    FoldWords(KeyPair(key), a, b);
    FoldLast(KeyPair(key), a + b, z);
    TextBlocks();
  }

  // ---------- the driver's words ----------

  /** An unsigned long: its low 32 bits, and the bits above them. */
  datatype Wide = Wide(hi: bv32, lo: bv32)

  /** What a machine keeps of the upper 32 bits of a result: nothing on a 32-bit machine, all of them
      on a 64-bit one. */
  type Width = bv32 -> bv32

  function Cut(keep: Width, a: Wide): Wide { Wide(keep(a.hi), a.lo) }

  function XorW(a: Wide, b: Wide): Wide { Wide(Xor(a.hi, b.hi), Xor(a.lo, b.lo)) }
  function OrW(a: Wide, b: Wide): Wide { Wide(Or(a.hi, b.hi), Or(a.lo, b.lo)) }
  function AndW(a: Wide, m: bv32): Wide { Wide(0, a.lo & m) }

  // The sum carries from the low half into the high one.
  function AddW(a: Wide, b: Wide): Wide { Wide(Add(Add(a.hi, b.hi), Carry(a.lo, b.lo)), Add(a.lo, b.lo)) }
  function Carry(a: bv32, b: bv32): bv32 { if a + b < a then 1 else 0 }

  function Shl3(a: Wide): Wide { Wide((a.hi << 3) | (a.lo >> 29), a.lo << 3) }
  function Shl8(a: Wide): Wide { Wide((a.hi << 8) | (a.lo >> 24), a.lo << 8) }
  function Shl17(a: Wide): Wide { Wide((a.hi << 17) | (a.lo >> 15), a.lo << 17) }
  function Shl30(a: Wide): Wide { Wide((a.hi << 30) | (a.lo >> 2), a.lo << 30) }
  function Shr2(a: Wide): Wide { Wide(a.hi >> 2, (a.lo >> 2) | (a.hi << 30)) }
  function Shr8(a: Wide): Wide { Wide(a.hi >> 8, (a.lo >> 8) | (a.hi << 24)) }
  function Shr15(a: Wide): Wide { Wide(a.hi >> 15, (a.lo >> 15) | (a.hi << 17)) }
  function Shr29(a: Wide): Wide { Wide(a.hi >> 29, (a.lo >> 29) | (a.hi << 3)) }

  // ROL32( A, 17 ), ROL32( A, 3 ), and ROR32( A, 2 ), which is ROL32( A, 30 ).
  function Rol17W(keep: Width, a: Wide): Wide { OrW(Cut(keep, Shl17(a)), AndW(Cut(keep, Shr15(a)), 0x1ffff)) }
  function Rol3W(keep: Width, a: Wide): Wide { OrW(Cut(keep, Shl3(a)), AndW(Cut(keep, Shr29(a)), 0x7)) }
  function Ror2W(keep: Width, a: Wide): Wide { OrW(Cut(keep, Shl30(a)), AndW(Cut(keep, Shr2(a)), 0x3fffffff)) }
  function SwapBytesW(keep: Width, a: Wide): Wide {
    OrW(Cut(keep, Shr8(AndW(a, 0xff00ff00))), Cut(keep, Shl8(AndW(a, 0x00ff00ff))))
  }

  // A byte shifted in an int and widened to an unsigned long: the sign bit of the int fills the high half.
  function Spread(x: bv32): Wide {
    Wide(if x & 0x80000000 == 0 then 0 else 0xffffffff, x)
  }

  lemma LoRol17(keep: Width, a: Wide)
    ensures Rol17W(keep, a).lo == Rol17(a.lo)
  {
  }

  lemma LoRol3(keep: Width, a: Wide)
    ensures Rol3W(keep, a).lo == Rol3(a.lo)
  {
  }

  lemma LoRor2(keep: Width, a: Wide)
    ensures Ror2W(keep, a).lo == Ror2(a.lo)
  {
  }

  lemma LoSwap(keep: Width, a: Wide)
    ensures SwapBytesW(keep, a).lo == SwapBytes(a.lo)
  {
  }

  lemma LoXorAdd(a: Wide, b: Wide)
    ensures XorW(a, b).lo == Xor(a.lo, b.lo) && AddW(a, b).lo == Add(a.lo, b.lo)
  {
    hide Xor, Add, Carry;
  }

  lemma LoOr(a: Wide, x: bv32)
    ensures OrW(a, Spread(x)).lo == Or(a.lo, x)
  {
    hide Or;
  }

  // The mixing of RTMPTkipAppendByte, on machine words.
  function BlockW(keep: Width, l: Wide, r: Wide, m: Wide): (Wide, Wide) {
    var l0 := XorW(l, m);
    var r1 := XorW(r, Rol17W(keep, l0));
    var l1 := Cut(keep, AddW(l0, r1));
    var r2 := XorW(r1, SwapBytesW(keep, l1));
    var l2 := Cut(keep, AddW(l1, r2));
    var r3 := XorW(r2, Rol3W(keep, l2));
    var l3 := Cut(keep, AddW(l2, r3));
    var r4 := XorW(r3, Ror2W(keep, l3));
    (Cut(keep, AddW(l3, r4)), r4)
  }

  /** The low 32 bits of the machine words follow the 32-bit block function, whatever the bits above
      them are and however many of those the machine keeps. */
  lemma BlockFollows(keep: Width, l: Wide, r: Wide, m: Wide)
    ensures var (l', r') := BlockW(keep, l, r, m); Pair(l'.lo, r'.lo) == Block(Pair(l.lo, r.lo), m.lo)
  {
    hide Xor, Add, Rol17, Rol3, Ror2, SwapBytes, XorW, AddW, Rol17W, Rol3W, Ror2W, SwapBytesW;
    var l0 := XorW(l, m);
    LoXorAdd(l, m);
    LoRol17(keep, l0);
    var r1 := XorW(r, Rol17W(keep, l0));
    LoXorAdd(r, Rol17W(keep, l0));
    var l1 := Cut(keep, AddW(l0, r1));
    LoXorAdd(l0, r1);
    LoSwap(keep, l1);
    var r2 := XorW(r1, SwapBytesW(keep, l1));
    LoXorAdd(r1, SwapBytesW(keep, l1));
    var l2 := Cut(keep, AddW(l1, r2));
    LoXorAdd(l1, r2);
    LoRol3(keep, l2);
    var r3 := XorW(r2, Rol3W(keep, l2));
    LoXorAdd(r2, Rol3W(keep, l2));
    var l3 := Cut(keep, AddW(l2, r3));
    LoXorAdd(l2, r3);
    LoRor2(keep, l3);
    LoXorAdd(r3, Ror2W(keep, l3));
    LoXorAdd(l3, XorW(r3, Ror2W(keep, l3)));
  }

  // Bytes shifted down out of the low half, whatever comes in from above.
  lemma LowBytes(x: bv32, h0: bv32, h1: bv32, h2: bv32)
    ensures
      var x1 := (x >> 8) | (h0 << 24);
      var x2 := (x1 >> 8) | (h1 << 24);
      var x3 := (x2 >> 8) | (h2 << 24);
      x1 & 0xff == (x >> 8) & 0xff && x2 & 0xff == (x >> 16) & 0xff && x3 & 0xff == (x >> 24) & 0xff
  {
  }

  // ---------- growing a message byte by byte ----------

  // The words of msg that are complete, and the bytes of the last one that are not.
  function Whole(msg: Bytes): (w: Bytes)
    ensures |w| % 4 == 0 && w <= msg
  {
    msg[..|msg| - |msg| % 4]
  }

  function Rest(msg: Bytes): (r: Bytes)
    ensures |r| == |msg| % 4
  {
    msg[|msg| - |msg| % 4..]
  }

  lemma WordGrows(r: Bytes, b: bv8)
    requires |r| < 4
    ensures Word(r + [b]) == Or(Word(r), At(b, |r|))
  {
    hide Or, At;
    assert (r + [b])[..|r|] == r;
  }

  // A byte that does not complete a word.
  lemma Buffered(msg: Bytes, b: bv8)
    requires |msg| % 4 < 3
    ensures Whole(msg + [b]) == Whole(msg) && Rest(msg + [b]) == Rest(msg) + [b]
  {
    var m, k := msg + [b], |msg| - |msg| % 4;
    assert |m| % 4 == |msg| % 4 + 1;
    assert m[..k] == msg[..k] && m[k..] == msg[k..] + [b];
  }

  lemma WordNone()
    ensures Word([]) == 0
  {
  }

  lemma AllWhole(msg: Bytes)
    requires |msg| % 4 == 0
    ensures Whole(msg) == msg
  {
  }

  // A byte that completes one.
  lemma Completed(p: Pair, msg: Bytes, b: bv8)
    requires |msg| % 4 == 3
    ensures Whole(msg + [b]) == msg + [b] && Rest(msg + [b]) == []
    ensures Fold(p, Whole(msg + [b])) == Block(Fold(p, Whole(msg)), Word(Rest(msg) + [b]))
  {
    hide Fold, Block, Word;
    var w, r := Whole(msg), Rest(msg) + [b];
    assert |msg + [b]| % 4 == 0;
    assert msg + [b] == w + r;
    FoldLast(p, w, r);
  }

  lemma FoldLast(p: Pair, w: Bytes, r: Bytes)
    requires |w| % 4 == 0 && |r| == 4
    ensures |w + r| % 4 == 0 && Fold(p, w + r) == Block(Fold(p, w), Word(r))
  {
    hide Block, Word;
    assert (w + r)[..|w + r| - 4] == w && (w + r)[|w + r| - 4..] == r;
  }

  class Engine {
    var l: Wide
    var r: Wide
    var m: Wide
    var n: nat
    const keep: Width
    ghost const key: Bytes
    ghost var msg: Bytes

    // The driver's words stand for the folding of everything appended so far.
    ghost predicate Valid()
      reads this
    {
      && |key| == 8
      && n == |msg| % 4
      && Pair(l.lo, r.lo) == Fold(KeyPair(key), Whole(msg))
      && m.lo == Word(Rest(msg))
    }

    // RTMPTkipGetUInt32
    static method GetWord(keep: Width, b: Bytes) returns (w: Wide)
      requires |b| == 4
      ensures w.lo == Word(b)
    {
      hide At, Or, OrW, Spread, Word;
      w := Wide(0, 0);
      var i := 0;
      assert b[..0] == [];
      WordNone();
      while i < 4
        invariant 0 <= i <= 4 && w.lo == Word(b[..i])
      {
        assert b[..i + 1] == b[..i] + [b[i]];
        WordGrows(b[..i], b[i]);
        LoOr(w, At(b[i], i));
        w := Cut(keep, OrW(w, Spread(At(b[i], i))));
        i := i + 1;
      }
      assert b[..4] == b;
    }

    // RTMPTkipSetMICKey
    constructor (micKey: Bytes, width: Width)
      requires |micKey| == 8
      ensures Valid() && msg == [] && key == micKey
    {
      var k0 := GetWord(width, micKey[..4]);
      var k1 := GetWord(width, micKey[4..]);
      keep := width;
      l, r, n, m := k0, k1, 0, Wide(0, 0);
      key, msg := micKey, [];
    }

    // RTMPTkipAppendByte
    method AppendByte(b: bv8)
      requires Valid()
      modifies this
      ensures Valid() && msg == old(msg) + [b]
    {
      hide At, Or, BlockW, Block, KeyPair, OrW, Spread, Word, Fold, Whole, Rest;
      WordGrows(Rest(msg), b);
      LoOr(m, At(b, n));
      m := Cut(keep, OrW(m, Spread(At(b, n))));
      n := n + 1;
      if n >= 4 {
        Completed(KeyPair(key), msg, b);
        BlockFollows(keep, l, r, m);
        var (l', r') := BlockW(keep, l, r, m);
        l, r := l', r';
        WordNone();
        m, n := Wide(0, 0), 0;
      } else {
        Buffered(msg, b);
      }
      msg := msg + [b];
    }

    /** RTMPTkipAppend: however a message is cut into pieces, appending them appends the whole. */
    method Append(src: Bytes)
      requires Valid()
      modifies this
      ensures Valid() && msg == old(msg) + src
    {
      hide Valid;
      var k := 0;
      while k < |src|
        invariant 0 <= k <= |src| && Valid() && msg == old(msg) + src[..k]
      {
        AppendByte(src[k]);
        k := k + 1;
      }
    }

    // RTMPTkipPutUInt32: the low byte four times, shifting the word down.
    static method PutWord(keep: Width, x: Wide) returns (b: Bytes)
      ensures b == ToBytes(x.lo)
    {
      var x1 := Cut(keep, Shr8(x));
      var x2 := Cut(keep, Shr8(x1));
      var x3 := Cut(keep, Shr8(x2));
      LowBytes(x.lo, x.hi, x1.hi, x2.hi);
      b := [(x.lo & 0xff) as bv8, (x1.lo & 0xff) as bv8, (x2.lo & 0xff) as bv8, (x3.lo & 0xff) as bv8];
    }

    /** RTMPTkipGetMIC: pad the message and read the code off. */
    method GetMic() returns (mic: Bytes)
      requires Valid()
      modifies this
      ensures mic == Mic(key, old(msg))
    {
      hide Word, Fold, KeyPair, ToBytes, Whole, Rest;
      AppendByte(0x5a);
      Append([0, 0, 0, 0]);
      ghost var zeros := 4;
      assert [0, 0, 0, 0] == Zeros(4);
      while n != 0
        invariant Valid() && 4 <= zeros <= 7 - |old(msg)| % 4 && msg == old(msg) + [0x5a] + Zeros(zeros)
        decreases 7 - zeros
      {
        LengthMod(|old(msg)|, zeros);
        AppendByte(0);
        assert Zeros(zeros) + [0] == Zeros(zeros + 1);
        zeros := zeros + 1;
      }
      LengthMod(|old(msg)|, zeros);
      AllWhole(msg);
      var a := PutWord(keep, l);
      var b := PutWord(keep, r);
      mic := a + b;
    }
  }

  // With 0x5a and from four zeros on, a length fills its words exactly at the padding's length.
  lemma LengthMod(len: nat, zeros: nat)
    requires 4 <= zeros <= 7 - len % 4
    ensures (len + 1 + zeros) % 4 == 0 <==> zeros == 7 - len % 4
  {
  }

  // ---------- the two users of the engine ----------

  // RTMPInitMICEngine: the addresses, and the priority in a word of its own.
  function Pseudo(da: Bytes, sa: Bytes, priority: bv8): (p: Bytes)
    ensures |da| == |sa| == 6 ==>
      |p| == 16 && p[..6] == da && p[6..12] == sa && p[12] == priority && p[13] == p[14] == p[15] == 0
  {
    da + sa + [priority, 0, 0, 0]
  }

  const LENGTH_802_3 := 14

  function VlanOffset(frame: Bytes): (n: nat)
    requires LENGTH_802_3 <= |frame|
  {
    if frame[12] == 0x81 && frame[13] == 0x00 then 4 else 0
  }

  // What of an Ethernet frame goes into the code: its payload, behind the LLC header if there is one.
  function Covered(frame: Bytes, llc: Option<Bytes>): Bytes
    requires LENGTH_802_3 <= |frame| && LENGTH_802_3 + VlanOffset(frame) <= |frame|
  {
    var v := VlanOffset(frame);
    (if llc.Some? then llc.value + frame[12 + v..14 + v] else []) + frame[14 + v..]
  }

  // The source address: that of the frame, or of the AP-client interface the frame leaves by.
  function Source(frame: Bytes, client: Option<Bytes>): Bytes
    requires LENGTH_802_3 <= |frame|
  {
    if client.Some? then client.value else frame[6..12]
  }

  /** The parts of a frame that are covered, for a plain frame and for one with an 802.1Q tag. */
  lemma CoveredParts(da: Bytes, sa: Bytes, tci: Bytes, kind: Bytes, payload: Bytes, llc: Bytes)
    requires |da| == |sa| == 6 && |tci| == |kind| == 2 && kind != [0x81, 0x00]
    ensures
      var plain := da + sa + kind + payload;
      && VlanOffset(plain) == 0 && plain[..6] == da && Source(plain, None) == sa && Source(plain, Some(llc)) == llc
      && Covered(plain, None) == payload && Covered(plain, Some(llc)) == llc + kind + payload
    ensures
      var tagged := da + sa + [0x81, 0x00] + tci + kind + payload;
      && VlanOffset(tagged) == 4 && tagged[..6] == da && Source(tagged, None) == sa
      && Covered(tagged, None) == payload && Covered(tagged, Some(llc)) == llc + kind + payload
  {
    var plain, tagged := da + sa + kind + payload, da + sa + [0x81, 0x00] + tci + kind + payload;
    assert plain[12..14] == kind && plain[14..] == payload && plain[12] == kind[0] && plain[13] == kind[1];
    assert tagged[12] == 0x81 && tagged[13] == 0x00 && tagged[16..18] == kind && tagged[18..] == payload;
  }

  // Engine-independent part of the two routines: the code over the addresses, priority and text.
  method Begin(width: Width, key: Bytes, da: Bytes, sa: Bytes, priority: bv8) returns (e: Engine)
    requires |key| == 8
    ensures fresh(e) && e.Valid() && e.key == key && e.msg == Pseudo(da, sa, priority)
  {
    hide Fold, Word, KeyPair, Whole, Rest;
    e := new Engine(key, width);
    e.Append(da);
    e.Append(sa);
    e.Append([priority, 0, 0, 0]);
  }

  /** RTMPCalculateMICValue: the code of an outgoing Ethernet frame. */
  method Calculate(width: Width, key: Bytes, frame: Bytes, client: Option<Bytes>, priority: bv8, llc: Option<Bytes>)
    returns (mic: Bytes)
    requires |key| == 8 && LENGTH_802_3 <= |frame| && LENGTH_802_3 + VlanOffset(frame) <= |frame|
    ensures mic == Mic(key, Pseudo(frame[..6], Source(frame, client), priority) + Covered(frame, llc))
  {
    hide Mic, Fold, Word, KeyPair, Whole, Rest, Pseudo;
    var e := Begin(width, key, frame[..6], Source(frame, client), priority);
    var v := if frame[12] == 0x81 && frame[13] == 0x00 then 4 else 0;
    Feed(e, llc, frame[12 + v..14 + v], frame[14 + v..]);
    mic := e.GetMic();
  }

  // The LLC header and the protocol type behind it, if the frame gets one, then the payload.
  method Feed(e: Engine, llc: Option<Bytes>, protocol: Bytes, payload: Bytes)
    requires e.Valid()
    modifies e
    ensures e.Valid() && e.msg == old(e.msg) + ((if llc.Some? then llc.value + protocol else []) + payload)
  {
    hide Fold, Word, KeyPair, Whole, Rest;
    if llc.Some? {
      e.Append(llc.value);
      e.Append(protocol);
    }
    e.Append(payload);
  }

  predicate Accepts(key: Bytes, src: Bytes, len: nat, da: Bytes, sa: Bytes, priority: bv8)
    requires |key| == 8 && len + 8 <= |src|
  {
    src[len..len + 8] == Mic(key, Pseudo(da, sa, priority) + src[..len])
  }

  /** RTMPTkipCompareMICValue: whether the eight bytes behind the first len are their code. */
  method Compare(width: Width, key: Bytes, src: Bytes, len: nat, da: Bytes, sa: Bytes, priority: bv8) returns (ok: bool)
    requires |key| == 8 && len + 8 <= |src|
    ensures ok <==> Accepts(key, src, len, da, sa, priority)
  {
    hide Mic, Fold, Word, KeyPair, Whole, Rest, Pseudo;
    var e := Begin(width, key, da, sa, priority);
    e.Append(src[..len]);
    var mic := e.GetMic();
    ok := mic == src[len..len + 8];
  }

  lemma AcceptsIff(key: Bytes, text: Bytes, tag: Bytes, da: Bytes, sa: Bytes, priority: bv8)
    requires |key| == 8 && |tag| == 8
    ensures Accepts(key, text + tag, |text|, da, sa, priority) <==> tag == Mic(key, Pseudo(da, sa, priority) + text)
  {
    hide Mic, Pseudo;
    assert (text + tag)[..|text|] == text && (text + tag)[|text|..|text| + 8] == tag;
  }

  lemma MicLength(key: Bytes, msg: Bytes)
    requires |key| == 8
    ensures |Mic(key, msg)| == 8
  {
  }

  /** A frame on its way: sender and receiver, on machines of any width, agree on the code of the text
      that is covered, so the received text and tag are accepted if and only if the tag is the one sent. */
  method SendAndReceive(sender: Width, receiver: Width, key: Bytes, frame: Bytes, client: Option<Bytes>,
                        priority: bv8, llc: Option<Bytes>, tag: Bytes)
    returns (mic: Bytes, ownOk: bool, tagOk: bool)
    requires |key| == 8 && |tag| == 8
    requires LENGTH_802_3 <= |frame| && LENGTH_802_3 + VlanOffset(frame) <= |frame|
    ensures |mic| == 8 && ownOk
    ensures tagOk <==> tag == mic
  {
    hide Mic, Pseudo, Covered, Accepts;
    var text, da, sa := Covered(frame, llc), frame[..6], Source(frame, client);
    mic := Calculate(sender, key, frame, client, priority, llc);
    MicLength(key, Pseudo(da, sa, priority) + text);
    AcceptsIff(key, text, mic, da, sa, priority);
    AcceptsIff(key, text, tag, da, sa, priority);
    ownOk := Compare(receiver, key, text + mic, |text|, da, sa, priority);
    tagOk := Compare(receiver, key, text + tag, |text|, da, sa, priority);
  }
}
