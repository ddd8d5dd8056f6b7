/** The streaming MD5 of common/crypt_md5.c, with the 64 rounds on one block left abstract.
    The reference is the padded message of sections 3.1 and 3.2 of RFC 1321, cut into blocks. */
module Md5 {
  import opened Common

  const BLOCK_SIZE := 64
  const TWO32 := 0x1_0000_0000
  const TWO64 := 0x1_0000_0000_0000_0000

  // The initial value, RT_MD5_Hash on a block, and the value written out as bytes.
  datatype Algorithm<!H> = Algorithm(init: H, compress: (H, Octets) -> H, output: H -> Octets)

  // ---------- the definition ----------

  function Zeros(k: nat): (z: Octets)
    ensures |z| == k && forall i :: 0 <= i < k ==> z[i] == 0
  {
    seq(k, _ => 0)
  }

  // How many zero bytes follow the bit 1: the fewest that leave 8 bytes of the last block.
  function Gap(n: nat): (k: nat)
    ensures (n + 1 + k) % BLOCK_SIZE == 56 && k < BLOCK_SIZE
  {
    if n % BLOCK_SIZE <= 55 then 55 - n % BLOCK_SIZE else 119 - n % BLOCK_SIZE
  }

  // n as count bytes, low-order byte first.
  function LittleEndian(n: nat, count: nat): (b: Octets)
    ensures |b| == count
  {
    if count == 0 then [] else [n % 256] + LittleEndian(n / 256, count - 1)
  }

  // The number that bytes stand for, low-order byte first.
  function Value(b: Octets): nat {
    if b == [] then 0 else b[0] + 256 * Value(b[1..])
  }

  function Pow256(count: nat): nat {
    if count == 0 then 1 else 256 * Pow256(count - 1)
  }

  lemma {:induction false} LittleEndianValue(n: nat, count: nat)
    requires n < Pow256(count)
    ensures Value(LittleEndian(n, count)) == n
  {
    if count == 0 {
    } else {
      LittleEndianValue(n / 256, count - 1);
      assert LittleEndian(n, count)[1..] == LittleEndian(n / 256, count - 1);
    }
  }

  lemma EightBytes()
    ensures Pow256(8) == TWO64
  {
    assert Pow256(2) == 0x1_0000;
    assert Pow256(4) == 0x1_0000_0000;
    assert Pow256(6) == 0x1_0000_0000_0000;
  }

  function LengthBits(n: nat): (b: Octets)
    ensures |b| == 8
  {
    LittleEndian((8 * n) % TWO64, 8)
  }

  lemma Mod64(n: nat, k: nat)
    requires n % BLOCK_SIZE + k <= BLOCK_SIZE
    ensures (n + k) % BLOCK_SIZE == if n % BLOCK_SIZE + k == BLOCK_SIZE then 0 else n % BLOCK_SIZE + k
  {
  }

  /** The bit 1, as few zeros as will do, and the length of the message in bits as a number of 64 bits, low-order
      byte first. */
  function Padded(msg: Octets): (p: Octets)
    ensures |p| % 64 == 0 && |msg| + 9 <= |p| <= |msg| + 72 && msg <= p && p[|msg|] == 0x80
    ensures forall i :: |msg| < i < |p| - 8 ==> p[i] == 0
    ensures Value(p[|p| - 8..]) == (8 * |msg|) % 0x1_0000_0000_0000_0000
  {
    Mod64(|msg| + 1 + Gap(|msg|), 8);
    var p := msg + [0x80] + Zeros(Gap(|msg|)) + LengthBits(|msg|);
    assert p[|p| - 8..] == LengthBits(|msg|);
    LengthBitsValue(|msg|);
    p
  }

  lemma LengthBitsValue(n: nat)
    ensures Value(LengthBits(n)) == (8 * n) % TWO64
  {
    EightBytes();
    LittleEndianValue((8 * n) % TWO64, 8);
  }

  function Fold<H>(a: Algorithm<H>, s: Octets): H
    requires |s| % BLOCK_SIZE == 0
  {
    if s == [] then a.init
    else a.compress(Fold(a, s[..|s| - BLOCK_SIZE]), s[|s| - BLOCK_SIZE..])
  }

  function Digest<H>(a: Algorithm<H>, msg: Octets): Octets {
    a.output(Fold(a, Padded(msg)))
  }

  // ---------- a message and its last, incomplete block ----------

  function Whole(msg: Octets): (w: Octets)
    ensures |w| % BLOCK_SIZE == 0
  {
    msg[..|msg| - |msg| % BLOCK_SIZE]
  }

  function Rest(msg: Octets): (r: Octets)
    ensures |r| == |msg| % BLOCK_SIZE
  {
    msg[|msg| - |msg| % BLOCK_SIZE..]
  }

  lemma Split(msg: Octets)
    ensures msg == Whole(msg) + Rest(msg)
  {
  }

  // A chunk that leaves the last block incomplete.
  lemma Fits(msg: Octets, c: Octets)
    requires |msg| % BLOCK_SIZE + |c| < BLOCK_SIZE
    ensures Whole(msg + c) == Whole(msg) && Rest(msg + c) == Rest(msg) + c
  {
    Mod64(|msg|, |c|);
    assert (msg + c)[..|msg| - |msg| % BLOCK_SIZE] == Whole(msg);
  }

  lemma FoldLast<H>(a: Algorithm<H>, w: Octets, b: Octets)
    requires |w| % BLOCK_SIZE == 0 && |b| == BLOCK_SIZE
    ensures (|w| + |b|) % BLOCK_SIZE == 0
    ensures Fold(a, w + b) == a.compress(Fold(a, w), b)
  {
    assert (w + b)[..|w + b| - BLOCK_SIZE] == w && (w + b)[|w + b| - BLOCK_SIZE..] == b;
  }

  // A chunk that completes it.
  lemma Fills<H>(a: Algorithm<H>, msg: Octets, c: Octets)
    requires |msg| % BLOCK_SIZE + |c| == BLOCK_SIZE
    ensures Whole(msg + c) == msg + c && Rest(msg + c) == []
    ensures Fold(a, Whole(msg + c)) == a.compress(Fold(a, Whole(msg)), Rest(msg) + c)
  {
    hide Fold;
    Mod64(|msg|, |c|);
    Split(msg);
    assert msg + c == Whole(msg) + (Rest(msg) + c);
    FoldLast(a, Whole(msg), Rest(msg) + c);
  }

  // ---------- the padding, block by block ----------

  /** With room for the length behind the bit 1, the padding completes one block. */
  lemma PadsOne<H>(a: Algorithm<H>, msg: Octets)
    requires |msg| % BLOCK_SIZE <= 55
    ensures
      var last := Rest(msg) + [0x80] + Zeros(55 - |msg| % BLOCK_SIZE) + LengthBits(|msg|);
      |last| == BLOCK_SIZE && Fold(a, Padded(msg)) == a.compress(Fold(a, Whole(msg)), last)
  {
    hide Fold, Whole, Rest, LengthBits, Zeros;
    Split(msg);
    var last := Rest(msg) + [0x80] + Zeros(55 - |msg| % BLOCK_SIZE) + LengthBits(|msg|);
    assert Padded(msg) == Whole(msg) + last;
    FoldLast(a, Whole(msg), last);
  }

  /** Without it, the length goes into a block of its own. */
  lemma PadsTwo<H>(a: Algorithm<H>, msg: Octets)
    requires 55 < |msg| % BLOCK_SIZE
    ensures
      var first := Rest(msg) + [0x80] + Zeros(63 - |msg| % BLOCK_SIZE);
      var last := Zeros(56) + LengthBits(|msg|);
      && |first| == BLOCK_SIZE && |last| == BLOCK_SIZE
      && Fold(a, Padded(msg)) == a.compress(a.compress(Fold(a, Whole(msg)), first), last)
  {
    hide Fold, Whole, Rest, LengthBits;
    Split(msg);
    var r := |msg| % BLOCK_SIZE;
    var first := Rest(msg) + [0x80] + Zeros(63 - r);
    var last := Zeros(56) + LengthBits(|msg|);
    assert Zeros(119 - r) == Zeros(63 - r) + Zeros(56);
    assert Padded(msg) == Whole(msg) + first + last;
    FoldLast(a, Whole(msg), first);
    FoldLast(a, Whole(msg) + first, last);
  }

  // The 64-bit counter of bytes, multiplied by 8 in 64 bits.
  lemma BitsOfCounter(n: nat)
    ensures (8 * (n % TWO64)) % TWO64 == (8 * n) % TWO64
  {
    var q, r := n / TWO64, n % TWO64;
    assert 8 * n == 8 * r + (8 * q) * TWO64;
    SameRemainder(8 * r, 8 * q);
  }

  lemma SameRemainder(x: nat, q: nat)
    ensures (x + q * TWO64) % TWO64 == x % TWO64
  {
    if q > 0 {
      SameRemainder(x, q - 1);
      assert x + q * TWO64 == (x + (q - 1) * TWO64) + TWO64;
    }
  }

  lemma CounterGrows(n: nat, k: nat)
    ensures (n % TWO64 + k) % TWO64 == (n + k) % TWO64
  {
    var q, r := n / TWO64, n % TWO64;
    assert n + k == (r + k) + q * TWO64;
    SameRemainder(r + k, q);
  }

  /** The guard of RT_MD5_Append, computed in 32 bits, says what it means to say if and only if the sum
      has 32 bits. */
  lemma GuardIff(blockLen: nat, len: nat)
    requires blockLen < BLOCK_SIZE && len < 0x1_0000_0000
    ensures ((blockLen + len) % TWO32 < 64 <==> blockLen + len < 64) <==> blockLen + len < 0x1_0000_0000
  {
  }

  // ---------- the context ----------

  class Context<!H> {
    const a: Algorithm<H>
    const block: array<Octet>
    var hash: H
    var messageLen: nat
    var blockLen: nat
    ghost var msg: Octets

    // Everything but the byte count: the block holds what is left of msg, and zeros behind it.
    ghost predicate Absorbed()
      reads this, block
    {
      && block.Length == BLOCK_SIZE
      && blockLen == |msg| % BLOCK_SIZE
      && block[..] == Rest(msg) + Zeros(BLOCK_SIZE - blockLen)
      && hash == Fold(a, Whole(msg))
    }

    ghost predicate Valid()
      reads this, block
    {
      Absorbed() && messageLen == |msg| % TWO64
    }

    // RT_MD5_Init
    constructor (algorithm: Algorithm<H>)
      ensures Valid() && msg == [] && a == algorithm && fresh(block)
    {
      a, hash, messageLen, blockLen, msg := algorithm, algorithm.init, 0, 0, [];
      block := new Octet[BLOCK_SIZE](_ => 0);
      new;
      assert block[..] == Zeros(BLOCK_SIZE);
    }

    // RT_MD5_Hash
    method Hash()
      requires block.Length == BLOCK_SIZE
      modifies this`hash, this`blockLen, block
      ensures hash == a.compress(old(hash), old(block[..])) && blockLen == 0 && block[..] == Zeros(BLOCK_SIZE)
    {
      hash := a.compress(hash, block[..]);
      forall i | 0 <= i < block.Length {
        block[i] := 0;
      }
      blockLen := 0;
    }

    // NdisMoveMemory into the block
    method Copy(at: nat, s: Octets)
      requires at + |s| <= block.Length
      modifies block
      ensures block[..] == old(block[..at]) + s + old(block[at + |s|..])
    {
      forall i | 0 <= i < |s| {
        block[at + i] := s[i];
      }
    }

    /** RT_MD5_Append: however a message is cut into calls, the context follows the message. */
    method Append(message: Octets)
      requires Valid() && blockLen + |message| < TWO32
      modifies this, block
      ensures Valid() && msg == old(msg) + message
    {
      hide Fold, Whole, Rest, Zeros;
      var appendLen := 0;
      assert old(msg) + message[..0] == old(msg);
      while appendLen != |message|
        invariant 0 <= appendLen <= |message| && messageLen == old(messageLen)
        invariant Absorbed() && msg == old(msg) + message[..appendLen]
        decreases |message| - appendLen
      {
        var diffLen := |message| - appendLen;
        GuardIff(blockLen, diffLen);
        if (blockLen + diffLen) % TWO32 < BLOCK_SIZE {
          Take(message[appendLen..]);
          appendLen := appendLen + diffLen;
        } else {
          var n := BLOCK_SIZE - blockLen;
          assert message[..appendLen] + message[appendLen..appendLen + n] == message[..appendLen + n];
          Fill(message[appendLen..appendLen + n]);
          appendLen := appendLen + n;
        }
      }
      CounterGrows(|old(msg)|, |message|);
      messageLen := (messageLen + |message|) % TWO64;
    }

    // The chunk stays in the block.
    method Take(c: Octets)
      requires Absorbed() && blockLen + |c| < BLOCK_SIZE
      modifies this`blockLen, this`msg, block
      ensures Absorbed() && msg == old(msg) + c
    {
      hide Fold, Whole, Rest;
      Fits(msg, c);
      Mod64(|msg|, |c|);
      Copy(blockLen, c);
      blockLen := blockLen + |c|;
      msg := msg + c;
      assert block[..] == Rest(msg) + Zeros(BLOCK_SIZE - blockLen);
    }

    // The chunk completes the block.
    method Fill(c: Octets)
      requires Absorbed() && blockLen + |c| == BLOCK_SIZE
      modifies this`hash, this`blockLen, this`msg, block
      ensures Absorbed() && msg == old(msg) + c
    {
      hide Fold, Whole, Rest;
      Fills(a, msg, c);
      Mod64(|msg|, |c|);
      Copy(blockLen, c);
      assert block[..] == Rest(msg) + c;
      Hash();
      msg := msg + c;
    }

    /** RT_MD5_End: the digest of everything appended. */
    method End() returns (digest: Octets)
      requires Valid()
      modifies this, block
      ensures digest == Digest(a, old(msg))
    {
      hide Fold, Whole, Rest, LengthBits;
      var n := blockLen;
      Copy(blockLen, [0x80]);
      assert block[..] == Rest(msg) + [0x80] + Zeros(63 - n);
      if blockLen > 55 {
        PadsTwo(a, msg);
        Hash();
      } else {
        PadsOne(a, msg);
      }
      ghost var before := block[..56];
      PutLength();
      assert n <= 55 ==> before == Rest(msg) + [0x80] + Zeros(55 - n);
      assert n > 55 ==> before == Zeros(56);
      Hash();
      digest := a.output(hash);
    }

    method PutLength()
      requires block.Length == BLOCK_SIZE && messageLen == |msg| % TWO64
      modifies block
      ensures block[..] == old(block[..56]) + LengthBits(|msg|)
    {
      BitsOfCounter(|msg|);
      Copy(56, LittleEndian((messageLen * 8) % TWO64, 8));
    }
  }

  /** RT_MD5 */
  method Sum<H>(a: Algorithm<H>, message: Octets) returns (digest: Octets)
    requires |message| < TWO32
    ensures digest == Digest(a, message)
  {
    var ctx := new Context(a);
    ctx.Append(message);
    assert [] + message == message;
    digest := ctx.End();
  }

  function Concat(chunks: seq<Octets>): Octets {
    if chunks == [] then [] else Concat(chunks[..|chunks| - 1]) + chunks[|chunks| - 1]
  }

  /** Any sequence of appends gives the digest of their concatenation. */
  method SumChunks<H>(a: Algorithm<H>, chunks: seq<Octets>) returns (digest: Octets)
    requires forall i :: 0 <= i < |chunks| ==> |Concat(chunks[..i])| % BLOCK_SIZE + |chunks[i]| < TWO32
    ensures digest == Digest(a, Concat(chunks))
  {
    var ctx := new Context(a);
    for i := 0 to |chunks|
      invariant ctx.Valid() && fresh(ctx) && fresh(ctx.block) && ctx.a == a && ctx.msg == Concat(chunks[..i])
    {
      assert chunks[..i + 1][..i] == chunks[..i];
      ctx.Append(chunks[i]);
    }
    assert chunks[..|chunks|] == chunks;
    digest := ctx.End();
  }
}
