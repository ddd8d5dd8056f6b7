/** The ARC4 stream cipher of common/crypt_arc4.c: its keystream, and the routines that run it in place. */
module Arc4 {
  import opened Common

  const SIZE := 256

  // A permutation of 0..255.
  predicate IsBlock(b: seq<int>) {
    && |b| == SIZE
    && (forall k :: 0 <= k < SIZE ==> 0 <= b[k] < SIZE)
    && (forall k, l :: 0 <= k < l < SIZE ==> b[k] != b[l])
  }

  // ARC4_CTX_STRUC
  datatype Ctx = Ctx(i: int, j: int, block: seq<int>)

  predicate Ready(c: Ctx) {
    0 <= c.i < SIZE && 0 <= c.j < SIZE && IsBlock(c.block)
  }

  function Swap(b: seq<int>, i: int, j: int): seq<int>
    requires 0 <= i < |b| && 0 <= j < |b|
  {
    b[i := b[j]][j := b[i]]
  }

  lemma SwapKeepsBlock(b: seq<int>, i: int, j: int)
    requires IsBlock(b) && 0 <= i < SIZE && 0 <= j < SIZE
    ensures IsBlock(Swap(b, i, j))
  {
    var s := Swap(b, i, j);
    forall k, l | 0 <= k < l < SIZE ensures s[k] != s[l] {
      var k', l' := if k == i then j else if k == j then i else k, if l == i then j else if l == j then i else l;
      assert s[k] == b[k'] && s[l] == b[l'] && k' != l';
    }
  }

  // One round of the generator.
  function Next(c: Ctx): (d: Ctx)
    requires Ready(c)
    ensures Ready(d)
  {
    var i := (c.i + 1) % SIZE;
    var j := (c.j + c.block[i]) % SIZE;
    SwapKeepsBlock(c.block, i, j);
    Ctx(i, j, Swap(c.block, i, j))
  }

  // The keystream byte that a round leaves.
  function Key(c: Ctx): bv8
    requires Ready(c)
  {
    c.block[(c.block[c.j] + c.block[c.i]) % SIZE] as bv8
  }

  function Run(c: Ctx, n: nat): (d: Ctx)
    requires Ready(c)
    ensures Ready(d)
  {
    if n == 0 then c else Next(Run(c, n - 1))
  }

  function Xor(a: bv8, b: bv8): bv8 { a ^ b }

  // The k-th byte of the keystream, that of the (k+1)-st round.
  function Stream(c: Ctx, k: nat): bv8
    requires Ready(c)
  {
    Key(Run(c, k + 1))
  }

  // Encryption and decryption are the same: every byte meets its byte of the keystream.
  function Crypt(c: Ctx, text: Bytes): (r: Bytes)
    requires Ready(c)
    ensures |r| == |text|
  {
    seq(|text|, k requires 0 <= k < |text| => Xor(text[k], Stream(c, k)))
  }

  // ---------- stream laws ----------

  lemma RunNone(c: Ctx)
    requires Ready(c)
    ensures Run(c, 0) == c
  {
  }

  lemma RunMore(c: Ctx, k: nat)
    requires Ready(c)
    ensures Run(c, k + 1) == Next(Run(c, k)) && Stream(c, k) == Key(Next(Run(c, k)))
  {
    hide Ready, Next, Key;
  }

  lemma {:induction false} RunAdd(c: Ctx, m: nat, n: nat)
    requires Ready(c)
    ensures Run(c, m + n) == Run(Run(c, m), n)
  {
    hide Ready, Next;
    if n > 0 {
      RunAdd(c, m, n - 1);
    }
  }

  lemma CryptAt(c: Ctx, text: Bytes, k: nat)
    requires Ready(c) && k < |text|
    ensures Crypt(c, text)[k] == Xor(text[k], Stream(c, k))
  {
    hide Ready, Stream, Xor;
  }

  lemma StreamFrom(c: Ctx, m: nat, k: nat)
    requires Ready(c)
    ensures Stream(c, m + k) == Stream(Run(c, m), k)
  {
    hide Ready, Run, Key;
    RunAdd(c, m, k + 1);
  }

  // The keystream of d is that of c after m bytes.
  ghost predicate Continues(c: Ctx, m: nat, d: Ctx)
    requires Ready(c) && Ready(d)
  {
    forall k: nat :: Stream(d, k) == Stream(c, m + k)
  }

  lemma RunContinues(c: Ctx, m: nat)
    requires Ready(c)
    ensures Continues(c, m, Run(c, m))
  {
    forall k: nat ensures Stream(Run(c, m), k) == Stream(c, m + k) {
      StreamFrom(c, m, k);
    }
  }

  lemma CryptContinues(c: Ctx, d: Ctx, a: Bytes, b: Bytes)
    requires Ready(c) && Ready(d) && Continues(c, |a|, d)
    ensures Crypt(c, a + b) == Crypt(c, a) + Crypt(d, b)
  {
    hide Ready, Stream, Xor, Crypt;
    var l, r := Crypt(c, a + b), Crypt(c, a) + Crypt(d, b);
    forall k | 0 <= k < |l| ensures l[k] == r[k] {
      CryptAt(c, a + b, k);
      if k < |a| {
        CryptAt(c, a, k);
      } else {
        CryptAt(d, b, k - |a|);
      }
    }
  }

  /** Computing on a and then on b is computing on their concatenation. */
  lemma CryptConcat(c: Ctx, a: Bytes, b: Bytes)
    requires Ready(c)
    ensures Crypt(c, a + b) == Crypt(c, a) + Crypt(Run(c, |a|), b)
  {
    hide Ready, Run, Stream, Crypt, Continues;
    RunContinues(c, |a|);
    CryptContinues(c, Run(c, |a|), a, b);
  }

  lemma XorTwice(a: bv8, b: bv8)
    ensures Xor(Xor(a, b), b) == a
  {
  }

  /** From the same context, computing twice is the identity. */
  lemma CryptTwice(c: Ctx, text: Bytes)
    requires Ready(c)
    ensures Crypt(c, Crypt(c, text)) == text
  {
    hide Ready, Stream, Xor, Crypt;
    var r := Crypt(c, Crypt(c, text));
    forall k | 0 <= k < |text| ensures r[k] == text[k] {
      CryptAt(c, text, k);
      CryptAt(c, Crypt(c, text), k);
      XorTwice(text[k], Stream(c, k));
    }
  }

  /** Discarding n key bytes is computing on any n bytes and dropping them. */
  lemma DiscardDrops(c: Ctx, junk: Bytes, text: Bytes)
    requires Ready(c)
    ensures Crypt(Run(c, |junk|), text) == Crypt(c, junk + text)[|junk|..]
  {
    CryptConcat(c, junk, text);
  }

  // ---------- the key schedule ----------

  function Identity(n: nat): seq<int> {
    seq(n, k requires 0 <= k => k)
  }

  lemma BlockAt(b: seq<int>, k: int)
    requires IsBlock(b) && 0 <= k < 256
    ensures |b| == 256 && 0 <= b[k] < 256
  {
  }

  // The byte of the key that round n reads.
  function KeyAt(key: Bytes, n: nat): (y: int)
    requires key != []
    ensures 0 <= y < 256
  {
    key[n % |key|] as int
  }

  // A round of the schedule, from block b and swap index j with the key byte y.
  function Rescheduled(b: seq<int>, j: int, n: int, y: int): (seq<int>, int)
    requires |b| == 256 && 0 <= n < 256
  {
    var j' := (j + b[n] + y) % 256;
    (Swap(b, n, j'), j')
  }

  lemma RescheduledBlock(b: seq<int>, j: int, n: int, y: int)
    requires IsBlock(b) && 0 <= n < 256
    ensures |b| == 256 && IsBlock(Rescheduled(b, j, n, y).0) && 0 <= Rescheduled(b, j, n, y).1 < 256
  {
    BlockAt(b, n);
    SwapKeepsBlock(b, n, (j + b[n] + y) % 256);
  }

  // The block and the swap index after n rounds of the schedule.
  function Schedule(key: Bytes, n: nat): (r: (seq<int>, int))
    requires key != [] && n <= SIZE
    ensures IsBlock(r.0) && 0 <= r.1 < SIZE
  {
    if n == 0 then (Identity(SIZE), 0)
    else
      var (b, j) := Schedule(key, n - 1);
      RescheduledBlock(b, j, n - 1, KeyAt(key, n - 1));
      Rescheduled(b, j, n - 1, KeyAt(key, n - 1))
  }

  // ARC4_INIT
  function Init(key: Bytes): (c: Ctx)
    requires key != []
    ensures Ready(c)
  {
    Ctx(0, 0, Schedule(key, SIZE).0)
  }

  // ---------- what a round does, element by element ----------

  // c is b with the elements at i and j exchanged.
  predicate Exchanged(b: seq<int>, c: seq<int>, i: int, j: int)
    requires |b| == |c| == 256 && 0 <= i < 256 && 0 <= j < 256
  {
    c[i] == b[j] && c[j] == b[i] && forall k :: 0 <= k < 256 && k != i && k != j ==> c[k] == b[k]
  }

  lemma SwapExchanges(b: seq<int>, i: int, j: int)
    requires |b| == 256 && 0 <= i < 256 && 0 <= j < 256
    ensures Exchanged(b, Swap(b, i, j), i, j)
  {
  }

  lemma ScheduleStep(key: Bytes, n: nat)
    requires key != [] && n < 256
    ensures |Schedule(key, n).0| == 256
    ensures Schedule(key, n + 1) ==
      Rescheduled(Schedule(key, n).0, Schedule(key, n).1, n, KeyAt(key, n))
  {
    BlockAt(Schedule(key, n).0, n);
    hide Rescheduled, KeyAt, IsBlock;
  }

  lemma KeyAtIs(key: Bytes, key': Bytes, n: nat)
    requires n < |key| == |key'| && KeyAt(key, n) == KeyAt(key', n)
    ensures key[n] == key'[n]
  {
    assert n % |key| == n;
    SameBv(key[n], key'[n]);
  }

  lemma SameBv(a: bv8, b: bv8)
    requires a as int == b as int
    ensures a == b
  {
  }

  lemma RescheduledMoves(b: seq<int>, j: int, n: int, y: int)
    requires |b| == 256 && 0 <= n < 256
    ensures
      var (b', j') := Rescheduled(b, j, n, y);
      |b'| == 256 && 0 <= j' < 256 && (j' - j - b[n] - y) % 256 == 0 && Exchanged(b, b', n, j')
  {
    SwapExchanges(b, n, (j + b[n] + y) % 256);
    Wraps(j + b[n] + y);
  }

  /** A round of the schedule moves the swap index by the element it is at and by its byte of the key,
      and exchanges the two elements. */
  lemma ScheduleRoundMoves(key: Bytes, n: nat)
    requires key != [] && n < 256
    ensures
      var (b, j) := Schedule(key, n);
      var (b', j') := Schedule(key, n + 1);
      && |b| == 256 && |b'| == 256
      && (j' - j - b[n] - key[n % |key|] as int) % 256 == 0 && Exchanged(b, b', n, j')
  {
    ScheduleStep(key, n);
    hide Schedule, Rescheduled, Exchanged, IsBlock;
    RescheduledMoves(Schedule(key, n).0, Schedule(key, n).1, n, KeyAt(key, n));
  }

  lemma Wraps(x: int)
    ensures (x % 256 - x) % 256 == 0
  {
  }

  lemma FirstRound(key: Bytes)
    requires key != []
    ensures
      var (b, j) := Schedule(key, 1);
      |b| == 256 && j == key[0] as int && b[0] == key[0] as int && b[key[0] as int] == 0
  {
    assert Schedule(key, 0) == (Identity(256), 0);
  }

  lemma RoundReadsKey(key: Bytes, key': Bytes, n: nat)
    requires key != [] && |key| == |key'| && n < 256
    requires Schedule(key, n) == Schedule(key', n) && Schedule(key, n + 1) == Schedule(key', n + 1)
    ensures KeyAt(key, n) == KeyAt(key', n)
  {
    hide Schedule, Swap, IsBlock, KeyAt;
    ScheduleStep(key, n);
    ScheduleStep(key', n);
    SameByte(Schedule(key, n).1 + Schedule(key, n).0[n], KeyAt(key, n), KeyAt(key', n));
  }

  lemma SameByte(x: int, a: int, b: int)
    requires 0 <= a < 256 && 0 <= b < 256 && (x + a) % 256 == (x + b) % 256
    ensures a == b
  {
  }

  predicate SameSchedules(key: Bytes, key': Bytes)
    requires key != [] && key' != []
  {
    forall n :: 0 <= n <= 256 ==> Schedule(key, n) == Schedule(key', n)
  }

  lemma ByteDetermined(key: Bytes, key': Bytes, n: nat)
    requires key != [] && |key| == |key'| <= 256 && n < |key| && SameSchedules(key, key')
    ensures key[n] == key'[n]
  {
    hide Schedule, IsBlock;
    assert Schedule(key, n) == Schedule(key', n) && Schedule(key, n + 1) == Schedule(key', n + 1);
    hide SameSchedules, KeyAt;
    RoundReadsKey(key, key', n);
    KeyAtIs(key, key', n);
  }

  /** The schedule reads the whole key: keys of one length whose schedules agree round by round are equal. */
  lemma ScheduleDeterminesKey(key: Bytes, key': Bytes)
    requires key != [] && |key| == |key'| <= 256 && SameSchedules(key, key')
    ensures key == key'
  {
    hide SameSchedules;
    forall n | 0 <= n < |key| ensures key[n] == key'[n] {
      ByteDetermined(key, key', n);
    }
  }

  /** A round of the generator moves the first index by one and the second by the element there, and
      exchanges the two elements. */
  lemma NextMoves(c: Ctx)
    requires Ready(c)
    ensures
      var d := Next(c);
      && |c.block| == |d.block| == 256
      && d.i == (if c.i == 255 then 0 else c.i + 1)
      && (d.j - c.j - c.block[d.i]) % 256 == 0 && Exchanged(c.block, d.block, d.i, d.j)
  {
    var i := (c.i + 1) % 256;
    BlockAt(c.block, i);
    Wraps(c.j + c.block[i]);
    hide IsBlock;
    SwapExchanges(c.block, i, (c.j + c.block[i]) % 256);
  }

  // The round before.
  function Previous(d: Ctx): Ctx
    requires Ready(d)
  {
    Ctx((d.i - 1) % 256, (d.j - d.block[d.j]) % 256, Swap(d.block, d.i, d.j))
  }

  /** A round can be undone, so no two states lead to the same one. */
  lemma PreviousOfNext(c: Ctx)
    requires Ready(c)
    ensures Previous(Next(c)) == c
  {
    var d := Next(c);
    NextMoves(c);
    BlockAt(c.block, d.i);
    hide IsBlock;
    assert Swap(d.block, d.i, d.j) == c.block;
    Undone(c.j, c.block[d.i], d.j);
  }

  lemma Undone(j: int, x: int, k: int)
    requires 0 <= j < 256 && k == (j + x) % 256
    ensures (k - x) % 256 == j
  {
  }

  /** The first byte of a keystream, read off the block that the key has left. */
  lemma FirstByte(key: Bytes)
    requires key != []
    ensures
      var c := Init(key);
      var a := c.block[1];
      var t := (a + c.block[a]) % 256;
      Stream(c, 0) == (if t == 1 then c.block[a] else if t == a then a else c.block[t]) as bv8
  {
    hide Schedule, IsBlock, Run;
    var c := Init(key);
    RunNone(c);
    RunMore(c, 0);
    FirstKey(c);
  }

  lemma FirstKey(c: Ctx)
    requires Ready(c) && c.i == c.j == 0
    ensures
      var a := c.block[1];
      var t := (a + c.block[a]) % 256;
      Key(Next(c)) == (if t == 1 then c.block[a] else if t == a then a else c.block[t]) as bv8
  {
    BlockAt(c.block, 1);
    BlockAt(c.block, c.block[1]);
    var d := Next(c);
    assert d.i == 1 && d.j == c.block[1];
  }

  // ---------- in place ----------

  class Cipher {
    var i: int
    var j: int
    const block: array<int>

    ghost predicate Valid()
      reads this, block
    {
      block.Length == SIZE && Ready(State())
    }

    ghost function State(): Ctx
      reads this, block
    {
      Ctx(i, j, block[..])
    }

    // ARC4_INIT
    constructor (key: Bytes)
      requires key != []
      ensures Valid() && fresh(block) && State() == Init(key)
    {
      i, j := 0, 0;
      var b := new int[SIZE](k requires 0 <= k => k);
      block := b;
      new;
      assert block[..] == Schedule(key, 0).0;
      var swap := 0;
      var k := 0;
      while k < SIZE
        invariant 0 <= k <= SIZE && i == 0 && j == 0
        invariant block.Length == SIZE && (block[..], swap) == Schedule(key, k)
        modifies block
      {
        swap := ScheduleRound(key, k, swap);
        k := k + 1;
      }
    }

    // One round of the key schedule.
    method ScheduleRound(key: Bytes, k: nat, swap0: int) returns (swap: int)
      requires key != [] && k < SIZE && block.Length == SIZE && (block[..], swap0) == Schedule(key, k)
      modifies block
      ensures (block[..], swap) == Schedule(key, k + 1)
    {
      hide Schedule;
      ScheduleStep(key, k);
      var temp, y := block[k], key[k % |key|] as int;
      assert y == KeyAt(key, k);
      hide KeyAt;
      swap := (swap0 + temp + y) % SIZE;
      block[k] := block[swap];
      block[swap] := temp;
      assert block[..] == Swap(old(block[..]), k, swap);
    }

    // The index and swap steps that ARC4_Compute and ARC4_Discard_KeyLength share.
    method Advance()
      requires Valid()
      modifies this, block
      ensures Valid() && State() == Next(old(State()))
    {
      i := (i + 1) % SIZE;
      var temp := block[i];
      j := (j + temp) % SIZE;
      block[i] := block[j];
      block[j] := temp;
      SwapKeepsBlock(old(block[..]), i, j);
      assert block[..] == Swap(old(block[..]), i, j);
    }

    // The next byte of the keystream.
    method NextKey() returns (key: bv8)
      requires Valid()
      modifies this, block
      ensures Valid() && State() == Next(old(State())) && key == Key(State())
    {
      Advance();
      key := block[(block[j] + block[i]) % SIZE] as bv8;
    }

    /** ARC4_Compute. The output may be a separate buffer, or lie at or below the input in the same
        one: every byte is read before it is overwritten. */
    method Compute(input: array<bv8>, src: nat, len: nat, output: array<bv8>, dst: nat)
      requires Valid() && src + len <= input.Length && dst + len <= output.Length
      requires input == output ==> dst <= src
      requires input as object != block && output as object != block
      modifies this, block, output
      ensures Valid() && State() == Run(old(State()), len)
      ensures output[dst..dst + len] == Crypt(old(State()), old(input[src..src + len]))
      ensures output[..dst] == old(output[..dst]) && output[dst + len..] == old(output[dst + len..])
    {
      hide Ready, Next, Key, Run, Stream, Xor, Crypt;
      ghost var c, text := State(), input[src..src + len];
      RunNone(c);
      var k := 0;
      while k < len
        invariant 0 <= k <= len && Valid() && State() == Run(c, k)
        invariant forall m :: 0 <= m < k ==> output[dst + m] == Xor(text[m], Stream(c, m))
        invariant forall m :: k <= m < len ==> input[src + m] == text[m]
        invariant forall m :: 0 <= m < output.Length && !(dst <= m < dst + k) ==> output[m] == old(output[m])
      {
        RunMore(c, k);
        var key := NextKey();
        output[dst + k] := Xor(input[src + k], key);
        k := k + 1;
      }
      forall m | 0 <= m < len ensures output[dst + m] == Crypt(c, text)[m] {
        CryptAt(c, text, m);
      }
    }

    // ARC4_Discard_KeyLength
    method Discard(n: nat)
      requires Valid()
      modifies this, block
      ensures Valid() && State() == Run(old(State()), n)
    {
      var k := 0;
      while k < n
        invariant 0 <= k <= n && Valid() && State() == Run(old(State()), k)
      {
        Advance();
        k := k + 1;
      }
    }
  }
}
