/** The simulation, step by step: every event of the driver is the step of the unbounded window. */
module ReorderSim {
  import opened Common
  import opened SeqNum
  import opened Reorder
  import opened ReorderWindow
  import opened ReorderSpec

  // The map is kept between the head's second successor and the end of the window.
  predicate SpecInv(w: Window) {
    match w.head
    case None => w.buf == map[]
    case Some(h) => forall k :: k in w.buf ==> h + 2 <= k <= h + w.win
  }

  lemma SimGivesSpecInv(e: Entry, w: Window)
    requires Sim(e, w)
    ensures SpecInv(w)
  {
    if w.head.Some? {
      forall k | k in w.buf ensures w.head.value + 2 <= k <= w.head.value + w.win {
        var i :| 0 <= i < |e.q| && Num(e.q[i].sn, w.head.value) == k;
      }
    }
  }

  lemma {:induction false} DistinctCard(ks: seq<int>, keys: set<int>)
    requires forall i, j :: 0 <= i < j < |ks| ==> ks[i] != ks[j]
    requires forall k :: k in keys <==> k in ks
    ensures |keys| == |ks|
  {
    if ks == [] {
      assert forall k :: k !in keys;
      assert keys == {};
    } else {
      var n := |ks| - 1;
      assert ks == ks[..n] + [ks[n]];
      DistinctCard(ks[..n], keys - {ks[n]});
    }
  }

  lemma SimCard(e: Entry, w: Window)
    requires Sim(e, w)
    ensures |w.buf| == |e.q|
  {
    if w.head.Some? {
      var h := w.head.value;
      var ks := seq(|e.q|, i requires 0 <= i < |e.q| => Num(e.q[i].sn, h));
      forall k | k in w.buf.Keys ensures k in ks {
        var i :| 0 <= i < |e.q| && Num(e.q[i].sn, h) == k;
        assert ks[i] == k;
      }
      DistinctCard(ks, w.buf.Keys);
    }
  }

  // Below the head's second successor there is nothing to hand up.
  lemma NothingDue(w: Window, x: int)
    requires w.head.Some? && SpecInv(w) && w.head.value <= x <= w.head.value + 1
    ensures Upto(w.buf, w.epoch, w.head.value, x) == [] && After(w.buf, x) == w.buf
    ensures ReleaseTo(w, x, x) == w.(head := Some(x))
  {
    assert Upto(w.buf, w.epoch, w.head.value, w.head.value) == [];
  }

  lemma SimReset(s: Rx, w: Window, at: int, win: nat, e': Entry, w': Window)
    requires Sim(s.e, w) && win <= MAX_WIN
    requires e' == Refresh(s).e.(at := at, win := win) && w' == Reset(w).(at := at, win := win)
    ensures Sim(e', w')
  {
    var q := s.e.q;
    assert q[|q|..] == [] && q[..|q|] == q;
    if w.head.Some? {
      var h := w.head.value;
      UptoIsPrefix(q, h, s.e.win, w.buf, w.epoch, |q|, h + w.win);
      LogGrows(s.e.up, w.up, q, h, w.epoch);
    }
  }

  // The list and the map after the head steps over one missing number.
  lemma SimSkipOne(s: Rx, w: Window, e': Entry, w': Window)
    requires Sim(s.e, w) && w.head.Some?
    requires e' == s.e.(last := Mask(w.head.value + 1)) && w' == w.(head := Some(w.head.value + 1))
    ensures PreSim(e', w') && e'.last == Mask(s.e.last + 1) && IsSeq(e'.last)
  {
    var h := w.head.value;
    SimGivesSpecInv(s.e, w);
    NothingDue(w, h + 1);
    NextOf(h);
    assert SplitAt(s.e.q, s.e.last, 0, 1);
    assert s.e.q[0..] == s.e.q && s.e.up + s.e.q[..0] == s.e.up;
    SimRelease(s, w, 0, h + 1, h + 1, e', w');
  }

  lemma NextOf(h: int)
    ensures Mask(h + 1) == Mask(Mask(h) + 1) && IsSeq(Mask(h)) && IsSeq(Mask(h + 1))
  {
    var k := MaskTurns(h);
    var j := MaskTurns(h + 1);
    MaskIs(Mask(h) + 1, j - k, Mask(h + 1));
  }

  lemma SimSetAt(e: Entry, w: Window, now: int, e': Entry, w': Window)
    requires PreSim(e, w) && e' == e.(at := now) && w' == w.(at := now)
    ensures PreSim(e', w')
  {
  }

  lemma SimFlushOne(s: Rx, w: Window, now: int, e': Entry, w': Window)
    requires Sim(s.e, w) && w.head.Some?
    requires e' == FlushOne(s, now).e && w' == Advance(w.(head := Some(w.head.value + 1), at := now))
    ensures Sim(e', w')
  {
    hide IndicateInOrder, FlushOne, Advance, Held, BufIs, LogIs, WindowInv;
    var h := w.head.value;
    NextOf(h);
    var e1, w1 := s.e.(last := Mask(h + 1)), w.(head := Some(h + 1));
    SimSkipOne(s, w, e1, w1);
    var t, v := s.(e := s.e.(last := Mask(h + 1), at := now)), w.(head := Some(h + 1), at := now);
    SimSetAt(e1, w1, now, t.e, v);
    FlushOneIsDrain(s, now);
    SimDrain(t, v, e', w');
  }

  /** A drain of the list restores the full relation. */
  lemma SimDrain(s: Rx, w: Window, e': Entry, w': Window)
    requires PreSim(s.e, w) && IsSeq(s.e.last)
    requires e' == IndicateInOrder(s, s.e.last).e && w' == Advance(w)
    ensures Sim(e', w')
  {
    SimInOrder(s, w, e', w');
    IndicateInOrderHeld(s, s.e.last);
  }

  lemma SimExpire(s: Rx, w: Window, clk: Clock, e': Entry, w': Window)
    requires Sim(s.e, w)
    requires e' == FlushTimeout(s, clk).e && w' == Expire(w, clk)
    ensures Sim(e', w')
  {
    hide Clock.After, FlushOne, Advance, Held, BufIs, LogIs;
    SimCard(s.e, w);
    assert s.e.q == [] <==> w.buf == map[];
    if s.e.q != [] {
      if clk.After(s.e.at + clk.FlushAllTimeout()) && |s.e.q| > 1 {
        SimReset(s, w, clk.now, s.e.win, e', w');
      } else if clk.After(s.e.at + clk.PacketTimeout()) {
        SimFlushOne(s, w, clk.now, e', w');
      }
    }
  }

  lemma SimBar(s: Rx, w: Window, start: int)
    requires Sim(s.e, w) && IsSeq(start)
    ensures Sim(BlockAckReq(s, start).e, BarTo(w, start))
  {
    BarHeld(s, start);
    if w.head.None? {
      SimBarFresh(s, w, start);
    } else {
      BarNum(w.head.value, start);
      if Smaller(s.e.last, start) {
        SimBarAhead(s, w, start, BlockAckReq(s, start).e, BarTo(w, start));
        BarKeepsHead(w, start);
      }
      hide WindowInv, PreSim, IndicateLe, ReleaseTo, Mark;
    }
  }

  lemma BarKeepsHead(w: Window, start: int)
    requires w.head.Some?
    ensures BarTo(w, start).head.Some?
  {
  }

  lemma SimBarAhead(s: Rx, w: Window, start: int, e': Entry, w': Window)
    requires PreSim(s.e, w) && IsSeq(start) && Smaller(s.e.last, start)
    requires e' == BlockAckReq(s, start).e && w' == BarTo(w, start)
    ensures PreSim(e', w')
  {
    var h := w.head.value;
    BarNum(h, start);
    var num := Num(start, h);
    var v := Mark(w, num);
    SimMark(s.e, w, num);
    MarkKeepsHead(w, num);
    hide Mark, IndicateLe, ReleaseTo, Num, Smaller, Held, BufIs, LogIs;
    assert e' == IndicateLe(s, start).e.(last := Mask(num - 1));
    assert w' == ReleaseTo(v, num, num - 1);
    SimLe(s, v, start, 1, e', w');
  }

  lemma MarkKeepsHead(w: Window, num: int)
    ensures Mark(w, num).head == w.head
  {
  }

  lemma SimBarFresh(s: Rx, w: Window, start: int)
    requires Sim(s.e, w) && IsSeq(start) && w.head.None? && WindowInv(BlockAckReq(s, start).e)
    ensures Sim(BlockAckReq(s, start).e, BarTo(w, start))
  {
    ResetBar(start);
    assert s.e.q[0..] == s.e.q && s.e.up + s.e.q[..0] == s.e.up;
  }

  // SEQ_SMALLER against the sentinel: only the lower half of the starts is taken.
  lemma ResetBar(start: int)
    requires IsSeq(start)
    ensures Smaller(RESET_RCV_SEQ, start) <==> start < 2048
    ensures Mask(start - 1) == if start == 0 then MAXSEQ else start - 1
  {
    SmallerIsHalfSpace(RESET_RCV_SEQ, start);
    MaskIs(RESET_RCV_SEQ - start, 15, 4095 - start);
    MaskIs(start - 1, if start == 0 then -1 else 0, if start == 0 then MAXSEQ else start - 1);
  }

  lemma BarNum(h: int, start: int)
    requires IsSeq(start)
    ensures IsSeq(Mask(h)) && Mask(start - h) == Dist(start, Mask(h))
    ensures Num(start, h) == h + Mask(start - h)
    ensures Smaller(Mask(h), start) <==> 1 <= Mask(start - h) <= 2048
    ensures 1 <= Mask(start - h) ==>
              Mask(Num(start, h) - 1) == if start == 0 then MAXSEQ else start - 1
  {
    var k := MaskTurns(h);
    var j := MaskTurns(start - h);
    MaskIs(start - Mask(h), j + k, Mask(start - h));
    BarTaken(Mask(h), start);
    MaskIs(Num(start, h) - 1, if start == 0 then -j - 1 else -j, if start == 0 then MAXSEQ else start - 1);
  }

  // ---------- an arriving frame ----------

  lemma SimFirst(s: Rx, w: Window, f: RxFrame)
    requires Sim(s.e, w) && w.head.None? && IsSeq(f.sn)
    ensures forall stored :: Sim(Sort(s, f).e, Receive(w, f.sn, f.packet, stored))
  {
    MaskIs(f.sn, 0, f.sn);
  }

  lemma SimNext(s: Rx, w: Window, f: RxFrame, num: int)
    requires Sim(s.e, w) && w.head.Some? && num == w.head.value + 1 && f.sn == Mask(num) && StepOne(f.sn, s.e.last)
    ensures Sim(Sort(s, f).e, Advance(HandUp(w, num, f.packet)))
  {
    var e1, w1 := s.e.(last := Mask(num)), w.(head := Some(num));
    SimSkipOne(s, w, e1, w1);
    SimHandUp(e1, w1, f, num, Announce(s, f).e, HandUp(w, num, f.packet));
    SimDrain(Announce(s, f), HandUp(w, num, f.packet), Sort(s, f).e, Advance(HandUp(w, num, f.packet)));
  }

  lemma SimHold(s: Rx, w: Window, f: RxFrame, num: int, e': Entry, w': Window)
    requires Sim(s.e, w) && IsSeq(f.sn) && 1 <= s.e.win && InWindow(s, f) && Queues(s, f)
    requires w.head.Some? && num == Num(f.sn, w.head.value)
    requires e' == Enqueue(s, f).e && w' == if num in w.buf then w else w.(buf := w.buf[num := f.packet])
    ensures Sim(e', w')
  {
    Position(s, f);
    QueueingFits(s, f);
    SimInsert(s, w, f, e', w');
  }

  // The fallback branch: release up to the frame and hand the frame itself up.
  lemma SimFallback(s: Rx, w: Window, f: RxFrame, num: int, e': Entry, w': Window)
    requires PreSim(s.e, w) && IsSeq(f.sn) && Dist(f.sn, s.e.last) <= 2048 && !Queues(s, f)
    requires num == Num(f.sn, w.head.value)
    requires e' == Enqueue(s, f).e && w' == HandUp(ReleaseTo(w, num, num), num, f.packet)
    ensures PreSim(e', w')
  {
    var a := if s.free > 0 then s.(free := s.free - 1, kept := s.kept + 1) else s;
    MaskNum(f.sn, w.head.value);
    var e1, w1 := IndicateLe(a, f.sn).e.(last := f.sn), ReleaseTo(w, num, num);
    SimLe(a, w, f.sn, 0, e1, w1);
    SimHandUp(e1, w1, f, num, e', w');
  }

  lemma SimMark(e: Entry, w: Window, num: int)
    requires PreSim(e, w)
    ensures PreSim(e, Mark(w, num))
  {
  }

  lemma SimPass(s: Rx, w: Window, f: RxFrame, num: int, e': Entry, w': Window)
    requires Sim(s.e, w) && IsSeq(f.sn) && 1 <= s.e.win && InWindow(s, f) && !Queues(s, f) && !Strands(s, f)
    requires w.head.Some? && num == Num(f.sn, w.head.value)
    requires e' == Enqueue(s, f).e && w' == HandUp(ReleaseTo(Mark(w, num), num, num), num, f.packet)
    ensures Sim(e', w')
  {
    Position(s, f);
    FallbackHeld(s, f, e');
    SimMark(s.e, w, num);
    SimFallback(s, Mark(w, num), f, num, e', w');
  }

  // The window has moved so that the frame is its last number.
  lemma SimSlide(s: Rx, w: Window, f: RxFrame, num: int, e': Entry, w': Window)
    requires Sim(s.e, w) && IsSeq(f.sn) && 1 <= s.e.win && BeyondWindow(s, f)
    requires w.head.Some? && num == Num(f.sn, w.head.value)
    requires e' == AtInsertion(s, f).e && w' == ReleaseTo(w, num - w.win, num - w.win)
    ensures PreSim(e', w') && IsSeq(e'.last) && Dist(f.sn, e'.last) == s.e.win
    ensures num == Num(f.sn, w'.head.value) && num !in w'.buf
  {
    var h, start := w.head.value, WinStart(s, f);
    Position(s, f);
    MaskNum(start, h);
    assert Num(start, h) == num - w.win;
    SimLe(s, w, start, 0, e', w');
    SimGivesSpecInv(s.e, w);
  }

  lemma SimBeyondKept(f: RxFrame, num: int, t: Rx, v: Window, v': Window, e': Entry, w': Window)
    requires PreSim(t.e, v) && IsSeq(t.e.last) && IsSeq(f.sn) && Queues(t, f)
    requires 1 <= Dist(f.sn, t.e.last) <= t.e.win && num == Num(f.sn, v.head.value) && num !in v.buf
    requires v' == v.(buf := v.buf[num := f.packet])
    requires e' == IndicateInOrder(Enqueue(t, f), t.e.last).e && w' == Advance(v')
    ensures Sim(e', w')
  {
    var u := Enqueue(t, f);
    SimInsert(t, v, f, u.e, v');
    SimDrain(u, v', e', w');
  }

  lemma SimBeyondPassed(s: Rx, f: RxFrame, num: int, t: Rx, v: Window, e': Entry, w': Window)
    requires WindowInv(s.e) && IsSeq(f.sn) && 1 <= s.e.win && BeyondWindow(s, f)
    requires t == AtInsertion(s, f) && !Queues(t, f) && PreSim(t.e, v) && Dist(f.sn, t.e.last) <= 2048
    requires num == Num(f.sn, v.head.value)
    requires e' == Sort(s, f).e && w' == HandUp(ReleaseTo(v, num, num), num, f.packet)
    ensures Sim(e', w')
  {
    BeyondHeld(s, f, e');
    BeyondFallback(s, f);
    BeyondPassed(s, f);
    SimFallback(t, v, f, num, e', w');
  }

  lemma SortBeyondKept(s: Rx, f: RxFrame, t: Rx)
    requires BeyondWindow(s, f) && t == AtInsertion(s, f) && Queues(t, f)
    ensures Sort(s, f) == IndicateInOrder(Enqueue(t, f), t.e.last)
  {
  }

  lemma SimBeyond(s: Rx, w: Window, f: RxFrame, num: int, t: Rx, v: Window, e': Entry, w': Window)
    requires Sim(s.e, w) && IsSeq(f.sn) && 1 <= s.e.win && BeyondWindow(s, f)
    requires w.head.Some? && num == Num(f.sn, w.head.value)
    requires t == AtInsertion(s, f) && v == ReleaseTo(w, num - w.win, num - w.win)
    requires e' == Sort(s, f).e
    requires w' == if Queues(t, f) then Advance(v.(buf := v.buf[num := f.packet]))
                   else HandUp(ReleaseTo(v, num, num), num, f.packet)
    ensures Sim(e', w')
  {
    SimSlide(s, w, f, num, t.e, v);
    if Queues(t, f) {
      SortBeyondKept(s, f, t);
      SimBeyondKept(f, num, t, v, v.(buf := v.buf[num := f.packet]), e', w');
    } else {
      SimBeyondPassed(s, f, num, t, v, e', w');
    }
  }

  // Whether the driver keeps the frame: a block is free when it comes to insert it, and it is not EAPOL.
  predicate Kept(s: Rx, f: RxFrame) {
    Queues(AtInsertion(s, f), f)
  }

  lemma SimOld(s: Rx, w: Window, f: RxFrame, num: int, e': Entry, w': Window)
    requires Sim(s.e, w) && w.head.Some? && num <= w.head.value
    requires f.sn == s.e.last || Smaller(f.sn, s.e.last)
    requires !StepOne(f.sn, s.e.last)
    requires e' == Sort(s, f).e && w' == Receive(w, num, f.packet, Kept(s, f))
    ensures Sim(e', w')
  {
  }

  lemma SimAhead(s: Rx, w: Window, f: RxFrame, num: int, e': Entry, w': Window)
    requires Sim(s.e, w) && IsSeq(f.sn) && 1 <= s.e.win && !Strands(s, f)
    requires w.head.Some? && num == Num(f.sn, w.head.value) && w.head.value + 1 < num
    requires InWindow(s, f) <==> num <= w.head.value + w.win
    requires BeyondWindow(s, f) <==> !InWindow(s, f)
    requires e' == Sort(s, f).e && w' == Receive(w, num, f.packet, Kept(s, f))
    ensures Sim(e', w')
  {
    if BeyondWindow(s, f) {
      SimBeyond(s, w, f, num, AtInsertion(s, f), ReleaseTo(w, num - w.win, num - w.win), e', w');
    } else if Queues(s, f) {
      SimHold(s, w, f, num, e', w');
    } else {
      SimPass(s, w, f, num, e', w');
    }
  }

  /** All five cases of an arriving frame, and the start of an epoch, are the spec's receive step. */
  lemma SimReceive(s: Rx, w: Window, f: RxFrame, e': Entry, w': Window)
    requires Sim(s.e, w) && IsSeq(f.sn) && 1 <= s.e.win && !Strands(s, f)
    requires e' == Sort(s, f).e && w' == Receive(w, NumOf(w, f.sn), f.packet, Kept(s, f))
    ensures Sim(e', w')
  {
    if w.head.None? {
      SimFirst(s, w, f);
    } else {
      var h, num := w.head.value, NumOf(w, f.sn);
      assert s.e.last == Mask(h) && w.win == s.e.win;
      Sorted5(s, w, f);
      if num <= h {
        SimOld(s, w, f, num, e', w');
      } else if num == h + 1 {
        SimNext(s, w, f, num);
      } else {
        SimAhead(s, w, f, num, e', w');
      }
    }
  }

  // The driver's test of the 12-bit number decides the case that the true number is in.
  lemma Sorted5(s: Rx, w: Window, f: RxFrame)
    requires w.head.Some? && s.e.last == Mask(w.head.value) && w.win == s.e.win && s.e.win <= MAX_WIN && IsSeq(f.sn)
    ensures var h, num := w.head.value, NumOf(w, f.sn);
            && Mask(num) == f.sn && s.e.last != RESET_RCV_SEQ
            && (num <= h <==> f.sn == s.e.last || Smaller(f.sn, s.e.last))
            && (num == h + 1 <==> StepOne(f.sn, s.e.last))
            && (h < num ==> num == Num(f.sn, h))
            && (h + 1 < num ==> (InWindow(s, f) <==> num <= h + w.win) && (BeyondWindow(s, f) <==> !InWindow(s, f)))
  {
    FrameNum(w.head.value, f.sn, w.win);
    var k := MaskTurns(w.head.value);
  }

  // The fact the driver's memory decides: whether the frame of this event is kept.
  predicate KeptEvent(s: Rx, ev: Event) {
    ev.Frame? && Kept(Flushed(s, ev.clk), ev.f)
  }

  /** Every event simulates the spec's step, unless a frame strands its queued successor. */
  lemma SimStep(s: Rx, w: Window, ev: Event, e': Entry, w': Window)
    requires Sim(s.e, w) && Deliverable(s, ev) && !StrandsEvent(s, ev)
    requires e' == Step(s, ev).e && w' == SpecStep(w, ev, KeptEvent(s, ev))
    ensures Sim(e', w')
  {
    match ev
    case Frame(f, clk) =>
      SimExpire(s, w, clk, FlushTimeout(s, clk).e, Expire(w, clk));
      var t, v := Flushed(s, clk), Expire(w, clk).(at := clk.now);
      FlushTimeoutHeld(s, clk);
      SimReceive(t, v, f, e', w');
    case Timeout(clk) => SimExpire(s, w, clk, e', w');
    case Bar(start) => SimBar(s, w, start);
    case IdleTimer(clk) =>
      if s.e.win > 0 && clk.After(s.e.at + REC_BA_SESSION_IDLE_TIMEOUT) {
        SimReset(s, w, s.e.at, s.e.win, e', w');
      }
    case AddBaReq(bufSize, limit) => SimReset(s, w, s.e.at, GrantedWin(bufSize, limit), e', w');
    case DelBaReq => SimReset(s, w, s.e.at, 0, e', w');
  }
}
