/** The window invariant of the reordering list, what each routine does to it, and the one step
    that can break it. */
module ReorderWindow {
  import opened Common
  import opened SeqNum
  import opened Reorder

  /** The list is strictly sorted, and every queued frame is lo..win ahead of last. */
  predicate Held(q: seq<Mpdu>, last: int, lo: int, win: int) {
    && (forall i :: 0 <= i < |q| ==> IsSeq(q[i].sn) && lo <= Dist(q[i].sn, last) <= win)
    && (forall i, j :: 0 <= i < j < |q| ==> Dist(q[i].sn, last) < Dist(q[j].sn, last))
  }

  predicate WindowInv(e: Entry) {
    && e.win <= MAX_WIN
    && if e.last == RESET_RCV_SEQ then e.q == [] else IsSeq(e.last) && Held(e.q, e.last, 2, e.win)
  }

  // n splits q into the frames at most d ahead of last and those further ahead.
  predicate SplitAt(q: seq<Mpdu>, last: int, n: nat, d: int) {
    && n <= |q|
    && (forall i :: 0 <= i < n ==> Dist(q[i].sn, last) <= d)
    && (forall i :: n <= i < |q| ==> Dist(q[i].sn, last) > d)
  }

  // n is the length of the run k+1, k+2, ... that q starts with.
  predicate RunOf(q: seq<Mpdu>, last: int, n: nat, k: int) {
    && n <= |q|
    && (forall i :: 0 <= i < n ==> Dist(q[i].sn, last) == k + 1 + i)
    && (forall i :: n <= i < |q| ==> Dist(q[i].sn, last) > k + 1 + n)
  }

  /** The distances lo..win bound the length of the list. */
  lemma {:induction false} HeldLength(q: seq<Mpdu>, last: int, lo: int, win: int)
    requires Held(q, last, lo, win) && lo <= win + 1
    ensures |q| <= win - lo + 1
  {
    if |q| > 0 {
      var d := Dist(q[|q| - 1].sn, last);
      assert Held(q[..|q| - 1], last, lo, d - 1) by {
        forall i | 0 <= i < |q| - 1 ensures Dist(q[i].sn, last) <= d - 1 { }
      }
      HeldLength(q[..|q| - 1], last, lo, d - 1);
    }
  }

  /** The release loop takes exactly the frames that are not after x. */
  lemma {:induction false} LeSplits(q: seq<Mpdu>, last: int, win: int, x: int)
    requires win <= MAX_WIN && IsSeq(x) && Held(q, last, 1, win) && Dist(x, last) <= 2048
    ensures SplitAt(q, last, LeCount(q, x), Dist(x, last))
  {
    if q == [] {
    } else {
      CompareDist(q[0].sn, x, last);
      if Dist(q[0].sn, last) <= Dist(x, last) {
        LeSplits(q[1..], last, win, x);
        assert forall i :: 1 <= i < |q| ==> q[i] == q[1..][i - 1];
      }
    }
  }

  /** The in-order loop takes exactly the consecutive run that follows x. */
  lemma {:induction false} InOrderRuns(q: seq<Mpdu>, last: int, win: int, x: int)
    requires win <= MAX_WIN && IsSeq(x) && Held(q, last, Dist(x, last) + 1, win) && Dist(x, last) <= win
    ensures RunOf(q, last, InOrderCount(q, x), Dist(x, last))
  {
    if q == [] {
    } else {
      CompareDist(q[0].sn, x, last);
      if StepOne(q[0].sn, x) {
        InOrderRuns(q[1..], last, win, q[0].sn);
        assert forall i :: 1 <= i < |q| ==> q[i] == q[1..][i - 1];
      }
    }
  }

  lemma HeldInserted(q: seq<Mpdu>, last: int, lo: int, win: int, m: Mpdu, k: nat)
    requires Held(q, last, lo, win) && IsSeq(m.sn) && lo <= Dist(m.sn, last) <= win
    requires SplitAt(q, last, k, Dist(m.sn, last) - 1)
    requires k < |q| ==> Dist(q[k].sn, last) != Dist(m.sn, last)
    ensures Held(q[..k] + [m] + q[k..], last, lo, win)
  {
  }

  lemma SplitCons(q: seq<Mpdu>, last: int, j: nat, d: int)
    requires q != [] && SplitAt(q[1..], last, j, d) && Dist(q[0].sn, last) <= d
    ensures SplitAt(q, last, j + 1, d)
  {
    assert forall i :: 1 <= i < |q| ==> q[i] == q[1..][i - 1];
  }

  lemma InsertCons(q: seq<Mpdu>, j: nat, m: Mpdu)
    requires q != [] && j < |q|
    ensures q[..j + 1] + [m] + q[j + 1..] == [q[0]] + (q[1..][..j] + [m] + q[1..][j..])
  {
  }

  // Where the insertion loop stops: behind every frame that is before m.
  lemma {:induction false} InsertPosition(q: seq<Mpdu>, last: int, lo: int, win: int, m: Mpdu) returns (k: nat)
    requires 0 <= lo && win <= MAX_WIN && Held(q, last, lo, win) && IsSeq(m.sn) && lo <= Dist(m.sn, last) <= win
    ensures SplitAt(q, last, k, Dist(m.sn, last) - 1)
    ensures InsertSorted(q, m) == if k < |q| && q[k].sn == m.sn then None else Some(q[..k] + [m] + q[k..])
    decreases |q|
  {
    k := 0;
    if q == [] {
      assert [m] == q[..k] + [m] + q[k..];
    } else {
      CompareDist(q[0].sn, m.sn, last);
      if Smaller(q[0].sn, m.sn) {
        HeldTail(q, last, lo, win);
        var j := InsertPosition(q[1..], last, lo, win, m);
        k := j + 1;
        SplitCons(q, last, j, Dist(m.sn, last) - 1);
        InsertCons(q, j, m);
      } else {
        assert [m] + q == q[..k] + [m] + q[k..];
      }
    }
  }

  lemma HeldTail(q: seq<Mpdu>, last: int, lo: int, win: int)
    requires q != [] && Held(q, last, lo, win)
    ensures Held(q[1..], last, lo, win)
  {
  }

  /** The sorted insertion keeps the list sorted and refuses exactly the frames already queued. */
  lemma InsertSorts(q: seq<Mpdu>, last: int, lo: int, win: int, m: Mpdu)
    requires 0 <= lo && win <= MAX_WIN && Held(q, last, lo, win) && IsSeq(m.sn) && lo <= Dist(m.sn, last) <= win
    ensures InsertSorted(q, m) == None <==> IsQueued(q, m.sn)
    ensures InsertSorted(q, m) != None ==> Held(InsertSorted(q, m).value, last, lo, win)
  {
    var k := InsertPosition(q, last, lo, win, m);
    if k < |q| && q[k].sn == m.sn {
    } else {
      forall i | 0 <= i < |q| ensures q[i].sn != m.sn {
        if i >= k { CompareDist(q[i].sn, m.sn, last); }
      }
      if k < |q| { CompareDist(q[k].sn, m.sn, last); }
      HeldInserted(q, last, lo, win, m, k);
    }
  }

  /** Frames that stay at least lo ahead of a later base are held from that base. */
  lemma HeldFrom(q: seq<Mpdu>, last: int, win: int, last': int, lo: int)
    requires Held(q, last, 1, win) && 0 <= lo
    requires forall i :: 0 <= i < |q| ==> Dist(q[i].sn, last) >= Dist(last', last) + lo
    ensures Held(q, last', lo, win)
  {
    forall i | 0 <= i < |q|
      ensures Dist(q[i].sn, last') == Dist(q[i].sn, last) - Dist(last', last)
    {
      Rebase(q[i].sn, last, last');
    }
  }

  // The list after n heads have gone, seen from a base those heads do not pass.
  lemma HeldAfter(q: seq<Mpdu>, last: int, win: int, n: nat, last': int, lo: int)
    requires Held(q, last, 1, win) && n <= |q| && 0 <= lo
    requires forall i :: n <= i < |q| ==> Dist(q[i].sn, last) >= Dist(last', last) + lo
    ensures Held(q[n..], last', lo, win)
  {
    assert Held(q[n..], last, 1, win);
    HeldFrom(q[n..], last, win, last', lo);
  }

  lemma InOrderFromLast(q: seq<Mpdu>, last: int, win: int)
    requires 0 <= win <= MAX_WIN && IsSeq(last) && Held(q, last, 1, win)
    ensures RunOf(q, last, InOrderCount(q, last), 0)
  {
    assert Dist(last, last) == 0;
    InOrderRuns(q, last, win, last);
  }

  lemma HeldPastRun(q: seq<Mpdu>, last: int, win: int, n: nat)
    requires Held(q, last, 1, win) && RunOf(q, last, n, 0)
    ensures Held(q[n..], if n == 0 then last else q[n - 1].sn, 2, win)
  {
    assert Dist(last, last) == 0;
    HeldAfter(q, last, win, n, if n == 0 then last else q[n - 1].sn, 2);
  }

  lemma IndicateInOrderHeld(s: Rx, x: int)
    requires s.e.win <= MAX_WIN && IsSeq(x) && x == s.e.last && Held(s.e.q, x, 1, s.e.win)
    ensures WindowInv(IndicateInOrder(s, x).e)
  {
    InOrderFromLast(s.e.q, x, s.e.win);
    HeldPastRun(s.e.q, x, s.e.win, InOrderCount(s.e.q, x));
  }

  lemma NoneDue(q: seq<Mpdu>, last: int, win: int)
    requires win <= MAX_WIN && IsSeq(last) && Held(q, last, 2, win)
    ensures LeCount(q, Mask(last + 1)) == 0
    ensures Held(q, Mask(last + 1), 1, win)
  {
    var next := Mask(last + 1);
    NextIsOne(last);
    LeSplits(q, last, win, next);
    HeldFrom(q, last, win, next, 1);
  }

  // Nothing is due, so the forced shift only moves the last number and drains.
  lemma FlushOneIsDrain(s: Rx, now: int)
    requires WindowInv(s.e) && s.e.last != RESET_RCV_SEQ
    ensures var next := Mask(s.e.last + 1);
            FlushOne(s, now) == IndicateInOrder(s.(e := s.e.(last := next, at := now)), next)
  {
    NoneDue(s.e.q, s.e.last, s.e.win);
    assert s.e.q[0..] == s.e.q && s.e.up + s.e.q[..0] == s.e.up;
  }

  lemma FlushOneHeld(s: Rx, now: int, e': Entry)
    requires WindowInv(s.e) && s.e.q != [] && e' == FlushOne(s, now).e
    ensures WindowInv(e')
  {
    hide Held, FlushOne, IndicateInOrder, LeCount, Mask;
    var next := Mask(s.e.last + 1);
    NextIsOne(s.e.last);
    NoneDue(s.e.q, s.e.last, s.e.win);
    FlushOneIsDrain(s, now);
    IndicateInOrderHeld(s.(e := s.e.(last := next, at := now)), next);
  }

  lemma FlushOneWin(s: Rx, now: int)
    ensures FlushOne(s, now).e.win == s.e.win
  {
  }

  lemma FlushTimeoutHeld(s: Rx, clk: Clock)
    requires WindowInv(s.e)
    ensures WindowInv(FlushTimeout(s, clk).e)
    ensures FlushTimeout(s, clk).e.win == s.e.win
  {
    hide Clock.After, FlushOne, Held;
    if s.e.q != [] {
      FlushOneWin(s, clk.now);
      FlushOneHeld(s, clk.now, FlushOne(s, clk.now).e);
    }
  }

  // How far the last frame of the list is ahead of the next number.
  function Reach(e: Entry): int {
    if e.q == [] then 0 else Dist(e.q[|e.q| - 1].sn, e.last) - 1
  }

  // The forced shift brings the end of the list closer.
  lemma FlushOneShrinks(s: Rx, now: int, e': Entry)
    requires WindowInv(s.e) && s.e.q != [] && e' == FlushOne(s, now).e
    ensures Reach(e') < Reach(s.e)
  {
    hide FlushOne, InOrderCount, Mask, Smaller;
    var q, last, next := s.e.q, s.e.last, Mask(s.e.last + 1);
    NextIsOne(last);
    FlushOneIsDrain(s, now);
    var n := InOrderCount(q, next);
    var t := s.(e := s.e.(last := next, at := now));
    assert e' == IndicateInOrder(t, next).e;
    DrainedEnd(t, next, n);
    if n < |q| {
      var last' := if n == 0 then next else q[n - 1].sn;
      assert 1 <= Dist(last', last) <= Dist(q[|q| - 1].sn, last);
      Rebase(q[|q| - 1].sn, last, last');
    }
  }

  lemma DrainedEnd(t: Rx, x: int, n: nat)
    requires n == InOrderCount(t.e.q, x) <= |t.e.q|
    ensures
      var q, e := t.e.q, IndicateInOrder(t, x).e;
      && |e.q| == |q| - n && (n < |q| ==> e.q[|e.q| - 1] == q[|q| - 1])
      && e.last == if n == 0 then t.e.last else q[n - 1].sn
  {
    hide InOrderCount;
  }

  lemma TimeoutShrinks(s: Rx, clk: Clock)
    requires WindowInv(s.e) && s.e.q != [] && clk.After(s.e.at + clk.PacketTimeout())
    ensures Reach(FlushTimeout(s, clk).e) < Reach(s.e)
  {
    hide Clock.After, FlushOne;
    FlushOneShrinks(s, clk.now, FlushOne(s, clk.now).e);
  }

  // Timeouts one after the other, with nothing arriving; each comes late enough to count.
  predicate Late(s: Rx, clks: seq<Clock>)
    decreases |clks|
  {
    clks == [] || (clks[0].After(s.e.at + clks[0].PacketTimeout()) && Late(FlushTimeout(s, clks[0]), clks[1..]))
  }

  function TimeoutRun(s: Rx, clks: seq<Clock>): Rx
    decreases |clks|
  {
    if clks == [] then s else TimeoutRun(FlushTimeout(s, clks[0]), clks[1..])
  }

  lemma {:induction false} TimeoutsShrink(s: Rx, clks: seq<Clock>)
    requires WindowInv(s.e) && Late(s, clks)
    ensures WindowInv(TimeoutRun(s, clks).e)
    ensures TimeoutRun(s, clks).e.q == [] || Reach(TimeoutRun(s, clks).e) <= Reach(s.e) - |clks|
    decreases |clks|
  {
    if clks == [] {
    } else {
      hide Reach, WindowInv;
      var t := FlushTimeout(s, clks[0]);
      FlushTimeoutHeld(s, clks[0]);
      if s.e.q == [] {
        assert t == s;
      } else {
        TimeoutShrinks(s, clks[0]);
      }
      TimeoutsShrink(t, clks[1..]);
      if s.e.q == [] {
        EmptyStays(s, clks[1..]);
      }
    }
  }

  lemma {:induction false} EmptyStays(s: Rx, clks: seq<Clock>)
    requires s.e.q == []
    ensures TimeoutRun(s, clks) == s
    decreases |clks|
  {
    if clks == [] {
    } else {
      EmptyStays(s, clks[1..]);
    }
  }

  /** Frames do not wait forever: BAWinSize timeouts in a row, with nothing arriving, leave nothing queued. */
  lemma TimeoutsEmpty(s: Rx, clks: seq<Clock>)
    requires WindowInv(s.e) && Late(s, clks) && s.e.win <= |clks|
    ensures TimeoutRun(s, clks).e.q == []
  {
    TimeoutsShrink(s, clks);
  }

  lemma NextIsOne(last: int)
    requires IsSeq(last)
    ensures IsSeq(Mask(last + 1)) && Dist(Mask(last + 1), last) == 1
  {
    var k := MaskTurns(last + 1);
    MaskIs(Mask(last + 1) - last, -k, 1);
  }

  /** A BlockAckReq is taken exactly when its start is 1..2048 ahead of the last indicated number. */
  lemma BarTaken(last: int, start: int)
    requires IsSeq(last) && IsSeq(start)
    ensures Smaller(last, start) <==> 1 <= Dist(start, last) <= 2048
    ensures 1 <= Dist(start, last) ==>
              var before := if start == 0 then MAXSEQ else start - 1;
              IsSeq(before) && Dist(before, last) == Dist(start, last) - 1 && before == Mask(start - 1)
  {
    SmallerIsHalfSpace(last, start);
    var k := MaskTurns(last - start);
    var j := MaskTurns(start - last);
    if 1 <= Dist(start, last) {
      var before := if start == 0 then MAXSEQ else start - 1;
      MaskIs(before - last, if start == 0 then j + 1 else j, Dist(start, last) - 1);
    }
  }

  lemma BarHeld(s: Rx, start: int)
    requires WindowInv(s.e) && IsSeq(start)
    ensures WindowInv(BlockAckReq(s, start).e)
  {
    var q, last := s.e.q, s.e.last;
    if last != RESET_RCV_SEQ && Smaller(last, start) {
      BarTaken(last, start);
      LeSplits(q, last, s.e.win, start);
      HeldAfter(q, last, s.e.win, LeCount(q, start), if start == 0 then MAXSEQ else start - 1, 2);
    }
  }

  /** The position of an arriving frame, and the start of the window it moves to when beyond it. */
  lemma Position(s: Rx, f: RxFrame)
    requires IsSeq(s.e.last) && IsSeq(f.sn) && 1 <= s.e.win <= MAX_WIN
    ensures var d := Dist(f.sn, s.e.last);
            && (StepOne(f.sn, s.e.last) <==> d == 1)
            && (f.sn == s.e.last <==> d == 0)
            && (Smaller(f.sn, s.e.last) <==> d >= 2048)
            && (InWindow(s, f) <==> 2 <= d <= s.e.win)
            && IsSeq(WinStart(s, f))
            && (s.e.win < d < 2048 ==> Dist(WinStart(s, f), s.e.last) == d - s.e.win
                                       && Dist(f.sn, WinStart(s, f)) == s.e.win)
  {
    var last, d, win := s.e.last, Dist(f.sn, s.e.last), s.e.win;
    StepOneDist(f.sn, last);
    SmallerIsHalfSpace(f.sn, last);
    WinStartSeq(s, f);
    if d < 2048 {
      WindowDist(f.sn, last, win);
      if win < d { WinStartDist(s, f); }
    }
  }

  lemma WinStartSeq(s: Rx, f: RxFrame)
    ensures IsSeq(WinStart(s, f))
  {
    var tmp := f.sn - s.e.win - 1;
    var m := MaskTurns((if tmp < 0 then MAXSEQ + 1 + tmp else tmp) + 1);
  }

  lemma WinStartDist(s: Rx, f: RxFrame)
    requires IsSeq(s.e.last) && IsSeq(f.sn) && 1 <= s.e.win < Dist(f.sn, s.e.last) < 2048
    ensures var d := Dist(f.sn, s.e.last);
            Dist(WinStart(s, f), s.e.last) == d - s.e.win && Dist(f.sn, WinStart(s, f)) == s.e.win
  {
    var last, d, win := s.e.last, Dist(f.sn, s.e.last), s.e.win;
    var k := MaskTurns(f.sn - last);
    var tmp := f.sn - win - 1;
    var m := MaskTurns((if tmp < 0 then MAXSEQ + 1 + tmp else tmp) + 1);
    var turns := if tmp < 0 then m - 1 else m;
    MaskIs(WinStart(s, f) - last, k - turns, d - win);
    Rebase(f.sn, last, WinStart(s, f));
  }

  // The list when the frame reaches the insertion: ba_enqueue_reordering_packet's entry state.
  function AtInsertion(s: Rx, f: RxFrame): Rx {
    if InWindow(s, f) then s
    else var t := IndicateLe(s, WinStart(s, f)); t.(e := t.e.(last := WinStart(s, f)))
  }

  // Case V: the frame surpasses the window.
  predicate BeyondWindow(s: Rx, f: RxFrame) {
    && s.e.last != RESET_RCV_SEQ
    && !StepOne(f.sn, s.e.last) && f.sn != s.e.last && !Smaller(f.sn, s.e.last)
    && !Smaller(f.sn, Mask(s.e.last + s.e.win + 1))
  }

  lemma AtInsertionHeld(s: Rx, f: RxFrame)
    requires WindowInv(s.e) && IsSeq(f.sn) && 1 <= s.e.win && (InWindow(s, f) || BeyondWindow(s, f))
    ensures var t := AtInsertion(s, f);
            && IsSeq(t.e.last) && t.e.win == s.e.win
            && Held(t.e.q, t.e.last, if InWindow(s, f) then 2 else 1, if InWindow(s, f) then s.e.win else s.e.win - 1)
            && 1 <= Dist(f.sn, t.e.last) <= s.e.win
            && (BeyondWindow(s, f) ==> Dist(f.sn, t.e.last) == s.e.win)
  {
    Position(s, f);
    if BeyondWindow(s, f) {
      var q, last, win, start := s.e.q, s.e.last, s.e.win, WinStart(s, f);
      LeSplits(q, last, win, start);
      var n := LeCount(q, start);
      HeldAfter(q, last, win, n, start, 1);
      forall i | n <= i < |q| ensures Dist(q[i].sn, start) <= win - 1 {
        Rebase(q[i].sn, last, start);
      }
    }
  }

  /** ASSERT(qlen <= BAWinSize) at the end of the queueing branch holds. */
  lemma QueueingFits(s: Rx, f: RxFrame)
    requires WindowInv(s.e) && IsSeq(f.sn) && 1 <= s.e.win && (InWindow(s, f) || BeyondWindow(s, f))
    requires Queues(AtInsertion(s, f), f)
    ensures |Enqueue(AtInsertion(s, f), f).e.q| <= s.e.win
    ensures |AtInsertion(s, f).e.q| <= s.e.win - 1
    ensures Held(Enqueue(AtInsertion(s, f), f).e.q, AtInsertion(s, f).e.last, if InWindow(s, f) then 2 else 1, s.e.win)
  {
    AtInsertionHeld(s, f);
    var t := AtInsertion(s, f);
    var lo := if InWindow(s, f) then 2 else 1;
    HeldLength(t.e.q, t.e.last, lo, if InWindow(s, f) then s.e.win else s.e.win - 1);
    Position(s, f);
    assert Held(t.e.q, t.e.last, lo, s.e.win);
    InsertSorts(t.e.q, t.e.last, lo, s.e.win, f.Item());
    HeldLength(Enqueue(t, f).e.q, t.e.last, lo, s.e.win);
  }

  predicate IsQueued(q: seq<Mpdu>, sn: int) {
    exists i :: 0 <= i < |q| && q[i].sn == sn
  }

  // The frame is handed up by the fallback branch while the frame after it waits in the list.
  predicate Strands(s: Rx, f: RxFrame) {
    && InWindow(s, f)
    && !Queues(s, f)
    && IsQueued(s.e.q, Mask(f.sn + 1))
  }

  // What the fallback leaves of the list.
  lemma FallbackLeaves(q: seq<Mpdu>, last: int, win: int, x: int) returns (n: nat)
    requires win <= MAX_WIN && IsSeq(x) && Held(q, last, 2, win) && Dist(x, last) <= win
    ensures n == LeCount(q, x) && Held(q[n..], x, 1, win)
    ensures IsQueued(q, Mask(x + 1)) <==> IsQueued(q[n..], Mask(x + 1))
  {
    n := LeCount(q, x);
    LeSplits(q, last, win, x);
    HeldAfter(q, last, win, n, x, 1);
    NotBefore(q, last, n, x);
    QueuedAfter(q, n, Mask(x + 1));
  }

  lemma QueuedAfter(q: seq<Mpdu>, n: nat, sn: int)
    requires n <= |q| && forall i :: 0 <= i < n ==> q[i].sn != sn
    ensures IsQueued(q, sn) <==> IsQueued(q[n..], sn)
  {
    assert forall i :: n <= i < |q| ==> q[i] == q[n..][i - n];
  }

  lemma FallbackHeld(s: Rx, f: RxFrame, e': Entry)
    requires WindowInv(s.e) && IsSeq(f.sn) && 1 <= s.e.win && InWindow(s, f) && !Queues(s, f)
    requires e' == Enqueue(s, f).e
    ensures WindowInv(e') <==> !Strands(s, f)
  {
    hide Held, IsQueued, Smaller, StepOne, WinStart, LeCount, InsertSorted;
    Position(s, f);
    var n := FallbackLeaves(s.e.q, s.e.last, s.e.win, f.sn);
    assert e'.q == s.e.q[n..] && e'.last == f.sn && e'.win == s.e.win;
    GapIffHeld(e'.q, f.sn, s.e.win);
  }

  // A list held from x leaves a gap behind x exactly when the successor of x is not queued.
  lemma GapIffHeld(q: seq<Mpdu>, x: int, win: int)
    requires win <= MAX_WIN && IsSeq(x) && Held(q, x, 1, win)
    ensures Held(q, x, 2, win) <==> !IsQueued(q, Mask(x + 1))
  {
    NextIsOne(x);
    forall i | 0 <= i < |q| ensures q[i].sn == Mask(x + 1) <==> Dist(q[i].sn, x) == 1 {
      CompareDist(q[i].sn, Mask(x + 1), x);
    }
  }

  // No frame among those released up to x is the one after x.
  lemma NotBefore(q: seq<Mpdu>, last: int, n: nat, x: int)
    requires IsSeq(x) && SplitAt(q, last, n, Dist(x, last)) && Dist(x, last) <= 2048
    ensures forall i :: 0 <= i < n ==> q[i].sn != Mask(x + 1)
  {
    NextIsOne(x);
    var a := MaskTurns(x - last);
    var b := MaskTurns(Mask(x + 1) - x);
    MaskIs(Mask(x + 1) - last, a + b, Dist(x, last) + 1);
  }

  lemma AllDue(q: seq<Mpdu>, last: int, win: int, x: int)
    requires win <= MAX_WIN && IsSeq(x) && Held(q, last, 1, win) && win <= Dist(x, last) <= 2048
    ensures LeCount(q, x) == |q|
  {
    LeSplits(q, last, win, x);
  }

  // Beyond the window the fallback empties the list.
  lemma BeyondFallback(s: Rx, f: RxFrame)
    requires WindowInv(s.e) && IsSeq(f.sn) && 1 <= s.e.win && BeyondWindow(s, f) && !Queues(AtInsertion(s, f), f)
    ensures Enqueue(AtInsertion(s, f), f).e.q == []
  {
    AtInsertionHeld(s, f);
    var t := AtInsertion(s, f);
    AllDue(t.e.q, t.e.last, s.e.win - 1, f.sn);
    assert t.e.q[|t.e.q|..] == [];
  }

  // After the fallback of case V the list is empty, so the final drain does nothing.
  lemma BeyondPassed(s: Rx, f: RxFrame)
    requires BeyondWindow(s, f) && Enqueue(AtInsertion(s, f), f).e.q == []
    ensures Sort(s, f).e == Enqueue(AtInsertion(s, f), f).e
  {
    var u := Enqueue(AtInsertion(s, f), f);
    assert u.e.q[..0] == [] && u.e.q[0..] == [] && u.e.up + [] == u.e.up;
  }

  lemma NextHeld(s: Rx, f: RxFrame, e': Entry)
    requires WindowInv(s.e) && IsSeq(f.sn) && IsSeq(s.e.last) && Dist(f.sn, s.e.last) == 1
    requires e' == IndicateInOrder(Announce(s, f), f.sn).e
    ensures WindowInv(e')
  {
    HeldFrom(s.e.q, s.e.last, s.e.win, f.sn, 1);
    IndicateInOrderHeld(Announce(s, f), f.sn);
  }

  lemma BeyondHeld(s: Rx, f: RxFrame, e': Entry)
    requires WindowInv(s.e) && IsSeq(f.sn) && 1 <= s.e.win && BeyondWindow(s, f)
    requires e' == Sort(s, f).e
    ensures WindowInv(e')
  {
    if Queues(AtInsertion(s, f), f) {
      QueueingFits(s, f);
      AtInsertionHeld(s, f);
      var u := Enqueue(AtInsertion(s, f), f);
      assert u.e.last == AtInsertion(s, f).e.last;
      IndicateInOrderHeld(u, u.e.last);
    } else {
      BeyondFallback(s, f);
      BeyondPassed(s, f);
    }
  }

  /** What a frame does to the invariant: it stays, except when the frame strands its successor. */
  lemma SortHeld(s: Rx, f: RxFrame)
    requires WindowInv(s.e) && IsSeq(f.sn) && 1 <= s.e.win
    ensures WindowInv(Sort(s, f).e) <==> !Strands(s, f)
  {
    if s.e.last != RESET_RCV_SEQ {
      Position(s, f);
      if StepOne(f.sn, s.e.last) {
        NextHeld(s, f, Sort(s, f).e);
      } else if InWindow(s, f) {
        if Queues(s, f) { QueueingFits(s, f); } else { FallbackHeld(s, f, Sort(s, f).e); }
      } else if BeyondWindow(s, f) {
        BeyondHeld(s, f, Sort(s, f).e);
      }
    }
  }

  // A frame is looked up only in a live session, whose window is not 0.
  predicate Deliverable(s: Rx, ev: Event) {
    Encodable(ev) && (ev.Frame? ==> 1 <= s.e.win)
  }

  predicate StrandsEvent(s: Rx, ev: Event) {
    ev.Frame? && Strands(Flushed(s, ev.clk), ev.f)
  }

  /** Every step keeps the window invariant, with one exception that is characterised exactly. */
  lemma StepHeld(s: Rx, ev: Event)
    requires WindowInv(s.e) && Deliverable(s, ev)
    ensures WindowInv(Step(s, ev).e) <==> !StrandsEvent(s, ev)
  {
    match ev
    case Frame(f, clk) =>
      FlushTimeoutHeld(s, clk);
      SortHeld(Flushed(s, clk), f);
    case Timeout(clk) => FlushTimeoutHeld(s, clk);
    case Bar(start) => BarHeld(s, start);
    case _ =>
  }
}
