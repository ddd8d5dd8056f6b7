/** Circular 12-bit sequence numbers: the comparison macros of include/mlme.h:769-773 and the
    mask and sentinel of include/rtmp.h:101 and common/ba_action.c:11. */
module SeqNum {

  const SEQ_SPACE := 4096
  const MAXSEQ := 0xFFF
  const RESET_RCV_SEQ := 0xFFFF
  // Every window size is a UCHAR.
  const MAX_WIN := 255

  predicate IsSeq(s: int) {
    0 <= s <= MAXSEQ
  }

  // x & MAXSEQ, for an int of either sign.
  function Mask(x: int): int {
    x % SEQ_SPACE
  }

  // SEQ_STEPONE(a, b, MAXSEQ)
  predicate StepOne(a: int, b: int) {
    a == Mask(b + 1)
  }

  // SEQ_SMALLER(a, b, MAXSEQ): bit 11 of the int a - b.
  predicate Smaller(a: int, b: int) {
    ((a - b) / 2048) % 2 == 1
  }

  // How far a lies ahead of b on the circle.
  function Dist(a: int, b: int): int {
    Mask(a - b)
  }

  // The number congruent to s that lies in [head - 2048, head + 2047].
  function Unwrap(head: int, s: int): int {
    head + Mask(s - head + 2048) - 2048
  }

  lemma MaskIs(x: int, k: int, r: int)
    requires x == SEQ_SPACE * k + r && IsSeq(r)
    ensures Mask(x) == r
  {
  }

  // x and its masked value differ by a whole number of turns.
  lemma MaskTurns(x: int) returns (k: int)
    ensures x == SEQ_SPACE * k + Mask(x) && IsSeq(Mask(x))
  {
    k := x / SEQ_SPACE;
  }

  lemma SmallerIsHalfSpace(a: int, b: int)
    ensures Smaller(a, b) <==> Dist(a, b) >= 2048
  {
    var half, r := (a - b) / 2048, (a - b) % 2048;
    MaskIs(a - b, half / 2, (half % 2) * 2048 + r);
  }

  // The distance of an arriving number from the last one, by its true number.
  lemma UnwrapDist(head: int, s: int)
    requires IsSeq(s)
    ensures var num := Unwrap(head, s);
            && Mask(num) == s && head - 2048 <= num <= head + 2047
            && Dist(s, Mask(head)) == (if num >= head then num - head else num - head + SEQ_SPACE)
  {
    var num := Unwrap(head, s);
    var i := MaskTurns(head);
    var j := MaskTurns(s - head + 2048);
    MaskIs(num, -j, s);
    if num >= head {
      MaskIs(s - Mask(head), i + j, num - head);
    } else {
      MaskIs(s - Mask(head), i + j - 1, num - head + SEQ_SPACE);
    }
  }

  lemma StepOneDist(s: int, last: int)
    requires IsSeq(s) && IsSeq(last)
    ensures StepOne(s, last) <==> Dist(s, last) == 1
    ensures s == last <==> Dist(s, last) == 0
  {
    var k := MaskTurns(last + 1);
    var j := MaskTurns(s - last);
  }

  // The test against the end of the window, for a number that is ahead.
  lemma WindowDist(s: int, last: int, win: int)
    requires IsSeq(s) && IsSeq(last) && 0 <= win <= MAX_WIN && Dist(s, last) < 2048
    ensures Smaller(s, Mask(last + win + 1)) <==> Dist(s, last) <= win
  {
    var d, edge := Dist(s, last), Mask(last + win + 1);
    var k := MaskTurns(s - last);
    var m := MaskTurns(last + win + 1);
    SmallerIsHalfSpace(s, edge);
    if d > win {
      MaskIs(s - edge, k + m, d - win - 1);
    } else {
      MaskIs(s - edge, k + m - 1, d - win - 1 + SEQ_SPACE);
    }
  }

  /** The five-way test of an arriving number decides exactly the order of the true numbers. */
  lemma Classify(head: int, s: int, win: int)
    requires IsSeq(s) && 0 <= win <= MAX_WIN
    ensures var last, num := Mask(head), Unwrap(head, s);
            && Mask(num) == s
            && head - 2048 <= num <= head + 2047
            && (StepOne(s, last) <==> num == head + 1)
            && (s == last <==> num == head)
            && (Smaller(s, last) <==> num < head)
            && (num > head ==> (Smaller(s, Mask(last + win + 1)) <==> num <= head + win))
            && Dist(s, last) == (if num >= head then num - head else num - head + SEQ_SPACE)
  {
    UnwrapDist(head, s);
    var i := MaskTurns(head);
    StepOneDist(s, Mask(head));
    SmallerIsHalfSpace(s, Mask(head));
    if Unwrap(head, s) > head {
      WindowDist(s, Mask(head), win);
    }
  }

  /** Comparing two numbers at known distances from a common base is comparing the distances. */
  lemma CompareDist(a: int, b: int, base: int)
    requires IsSeq(a) && IsSeq(b)
    requires -2047 <= Dist(a, base) - Dist(b, base) <= 2047
    ensures Smaller(a, b) <==> Dist(a, base) < Dist(b, base)
    ensures a == b <==> Dist(a, base) == Dist(b, base)
    ensures StepOne(a, b) <== Dist(a, base) == Dist(b, base) + 1
    ensures StepOne(a, b) ==> Dist(a, base) == Dist(b, base) + 1
  {
    SmallerIsHalfSpace(a, b);
  }

  /** Moving the base forward by k shortens every distance that is at least k by k. */
  lemma Rebase(a: int, base: int, base': int)
    requires Dist(base', base) <= Dist(a, base)
    ensures Dist(a, base') == Dist(a, base) - Dist(base', base)
  {
    var i := MaskTurns(a - base);
    var j := MaskTurns(base' - base);
    MaskIs(a - base', i - j, Dist(a, base) - Dist(base', base));
  }
}
