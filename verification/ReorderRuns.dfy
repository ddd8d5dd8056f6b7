/** Whole runs of one session, with the shared pool changing arbitrarily between its events. */
module ReorderRuns {
  import opened Common
  import opened SeqNum
  import opened Reorder
  import opened ReorderWindow
  import opened ReorderSpec
  import opened ReorderSim
  import opened ReorderOrder

  // An event, and how many blocks the other sessions leave on the free list when it happens.
  datatype Occurrence = Occurrence(ev: Event, free: nat)

  function Pooled(s: Rx, o: Occurrence): Rx {
    s.(free := o.free)
  }

  // Frames reach only a live session.
  predicate Legal(s: Rx, run: seq<Occurrence>)
    decreases |run|
  {
    run == [] || (Deliverable(s, run[0].ev) && Legal(Step(Pooled(s, run[0]), run[0].ev), run[1..]))
  }

  // No frame of the run is passed over its queued successor.
  predicate Clean(s: Rx, run: seq<Occurrence>)
    requires Legal(s, run)
    decreases |run|
  {
    run == [] || (!StrandsEvent(Pooled(s, run[0]), run[0].ev) && Clean(Step(Pooled(s, run[0]), run[0].ev), run[1..]))
  }

  function Run(s: Rx, run: seq<Occurrence>): Rx
    requires Legal(s, run)
    decreases |run|
  {
    if run == [] then s else Run(Step(Pooled(s, run[0]), run[0].ev), run[1..])
  }

  function SpecRun(s: Rx, w: Window, run: seq<Occurrence>): Window
    requires Legal(s, run)
    decreases |run|
  {
    if run == [] then w
    else
      var t := Pooled(s, run[0]);
      SpecRun(Step(t, run[0].ev), SpecStep(w, run[0].ev, KeptEvent(t, run[0].ev)), run[1..])
  }

  // The entry as BARecSessionAdd leaves it, and the window it stands for.
  predicate Fresh(e: Entry) {
    e.last == RESET_RCV_SEQ && e.q == [] && e.up == [] && 1 <= e.win <= MAX_WIN
  }

  function FreshWindow(e: Entry): Window {
    Window(0, None, e.win, map[], e.at, [], {})
  }

  lemma SuccessorNum(h: int, s: int)
    requires IsSeq(s) && Dist(s, Mask(h)) < MAXSEQ
    ensures Num(Mask(s + 1), h) == Num(s, h) + 1 && IsSeq(Mask(s + 1))
  {
    NextIsOne(s);
    var i := MaskTurns(s - Mask(h));
    var j := MaskTurns(s + 1);
    MaskIs(Mask(s + 1) - Mask(h), i - j, Dist(s, Mask(h)) + 1);
  }

  // A frame is passed while its successor is buffered exactly when it is passed while it is queued.
  lemma PassedOver(t: Rx, v: Window, f: RxFrame)
    requires Sim(t.e, v) && IsSeq(f.sn) && 1 <= t.e.win
    ensures Strands(t, f) <==>
              && v.head.Some? && !Kept(t, f)
              && var num := NumOf(v, f.sn); v.head.value + 1 < num <= v.head.value + v.win && num + 1 in v.buf
  {
    if v.head.Some? {
      Sorted5(t, v, f);
      var h, num := v.head.value, NumOf(v, f.sn);
      if h + 1 < num <= h + v.win {
        SuccessorNum(h, f.sn);
        QueuedIffBuffered(t.e.q, h, t.e.win, v.buf, Mask(f.sn + 1));
      }
    }
  }

  /** Stranding means the same for the list and for the map. */
  lemma StrandsAlike(s: Rx, w: Window, ev: Event)
    requires Sim(s.e, w) && Deliverable(s, ev)
    ensures StrandsEvent(s, ev) <==> StrandsSpec(w, ev, KeptEvent(s, ev))
  {
    hide Sim, Flushed, Expire, Kept, Strands;
    if ev.Frame? {
      SimFlushed(s, w, ev.clk);
      PassedOver(Flushed(s, ev.clk), Expire(w, ev.clk).(at := ev.clk.now), ev.f);
    }
  }

  lemma SimFlushed(s: Rx, w: Window, clk: Clock)
    requires Sim(s.e, w)
    ensures Sim(Flushed(s, clk).e, Expire(w, clk).(at := clk.now)) && Flushed(s, clk).e.win == s.e.win
  {
    hide FlushTimeout, Expire, WindowInv, BufIs, LogIs, Held;
    SimExpire(s, w, clk, FlushTimeout(s, clk).e, Expire(w, clk));
    FlushedAlike(s, w, clk);
  }

  lemma FlushedAlike(s: Rx, w: Window, clk: Clock)
    requires Sim(s.e, w) && Sim(FlushTimeout(s, clk).e, Expire(w, clk))
    ensures Sim(FlushTimeout(s, clk).e.(at := clk.now), Expire(w, clk).(at := clk.now))
    ensures FlushTimeout(s, clk).e.win == s.e.win
  {
    FlushTimeoutHeld(s, clk);
    hide FlushTimeout, Expire, BufIs, LogIs, Held;
  }

  /** Every clean run refines the run of the unbounded window, and its log is in order. */
  lemma {:induction false} RunRefines(s: Rx, w: Window, run: seq<Occurrence>)
    requires Sim(s.e, w) && OrderInv(w) && Legal(s, run) && Clean(s, run)
    ensures Sim(Run(s, run).e, SpecRun(s, w, run)) && OrderInv(SpecRun(s, w, run))
    decreases |run|
  {
    if run == [] {
    } else {
      var t, ev := Pooled(s, run[0]), run[0].ev;
      var w' := SpecStep(w, ev, KeptEvent(t, ev));
      StrandsAlike(t, w, ev);
      SimStep(t, w, ev, Step(t, ev).e, w');
      OrdStep(w, ev, KeptEvent(t, ev), w');
      RunRefines(Step(t, ev), w', run[1..]);
    }
  }

  // The event can lead to a second delivery of sn: a BlockAckReq that starts there, or a frame inside
  // the window with that number that is not queued.
  predicate Marks(s: Rx, ev: Event, sn: int) {
    || ev == Bar(sn)
    || (ev.Frame? && ev.f.sn == sn && InWindow(Flushed(s, ev.clk), ev.f) && !Queues(Flushed(s, ev.clk), ev.f))
  }

  predicate Marked(s: Rx, run: seq<Occurrence>, sn: int)
    requires Legal(s, run)
    decreases |run|
  {
    run != [] &&
    var t, ev := Pooled(s, run[0]), run[0].ev;
    Marks(t, ev, sn) || Marked(Step(t, ev), run[1..], sn)
  }

  // A BlockAckReq marks no number but the one its start stands for.
  lemma BarMarksStart(w: Window, start: int, p: (nat, int))
    requires IsSeq(start) && p in BarTo(w, start).again
    ensures p in w.again || Mask(p.1) == start
  {
    if w.head.Some? {
      BarNum(w.head.value, start);
      MaskNum(start, w.head.value);
    }
  }

  lemma ReceiveMarks(w: Window, num: int, packet: Packet, stored: bool, p: (nat, int))
    requires p in Receive(w, num, packet, stored).again && p !in w.again
    ensures w.head.Some? && w.head.value + 1 < num <= w.head.value + w.win && !stored && p.1 == num
  {
    hide RunEnd, Upto;
  }

  lemma ExpireMarksNothing(w: Window, clk: Clock)
    ensures Expire(w, clk).again == w.again
  {
    hide RunEnd, Upto;
  }

  lemma FrameMarks(s: Rx, w: Window, f: RxFrame, clk: Clock, p: (nat, int))
    requires Sim(s.e, w) && IsSeq(f.sn)
    requires p in SpecStep(w, Frame(f, clk), KeptEvent(s, Frame(f, clk))).again && p !in w.again
    ensures Marks(s, Frame(f, clk), Mask(p.1))
  {
    var t, v := Flushed(s, clk), Expire(w, clk).(at := clk.now);
    SimFlushed(s, w, clk);
    ExpireMarksNothing(w, clk);
    hide Flushed, Expire, Receive;
    ReceiveMarks(v, NumOf(v, f.sn), f.packet, Kept(t, f), p);
    Sorted5(t, v, f);
  }

  /** A number is marked for a second delivery only by an event that can lead to one. */
  lemma StepMarks(s: Rx, w: Window, ev: Event, p: (nat, int))
    requires Sim(s.e, w) && Deliverable(s, ev)
    requires p in SpecStep(w, ev, KeptEvent(s, ev)).again && p !in w.again
    ensures Marks(s, ev, Mask(p.1))
  {
    match ev
    case Frame(f, clk) => FrameMarks(s, w, f, clk, p);
    case Bar(start) => BarMarksStart(w, start, p);
    case Timeout(clk) => ExpireMarksNothing(w, clk);
    case _ =>
  }

  lemma {:induction false} RunMarks(s: Rx, w: Window, run: seq<Occurrence>, p: (nat, int))
    requires Sim(s.e, w) && Legal(s, run) && Clean(s, run) && p in SpecRun(s, w, run).again && p !in w.again
    ensures Marked(s, run, Mask(p.1))
    decreases |run|
  {
    if run == [] {
    } else {
      hide Marks, Sim;
      var t, ev := Pooled(s, run[0]), run[0].ev;
      var w' := SpecStep(w, ev, KeptEvent(t, ev));
      SimPooled(s, w, run[0].free);
      SimStep(t, w, ev, Step(t, ev).e, w');
      if p in w'.again {
        StepMarks(t, w, ev, p);
      } else {
        RunMarks(Step(t, ev), w', run[1..], p);
      }
    }
  }

  lemma SimPooled(s: Rx, w: Window, free: nat)
    requires Sim(s.e, w)
    ensures Sim(s.(free := free).e, w)
  {
  }

  /** From a fresh session: the packets handed up carry true numbers that never go back within an
      epoch; a number repeats only directly after itself, and only if a BlockAckReq of the run starts
      there or a frame with that number was passed by inside the window; the list stays inside the
      window. */
  lemma RunDelivers(s: Rx, run: seq<Occurrence>)
    requires Fresh(s.e) && Legal(s, run) && Clean(s, run)
    ensures var up, sent := SpecRun(s, FreshWindow(s.e), run).up, Run(s, run).e.up;
            && LogIs(sent, up) && WindowInv(Run(s, run).e)
            && forall i, j :: 0 <= i < j < |up| ==>
                 && up[i].epoch <= up[j].epoch
                 && (up[i].epoch == up[j].epoch ==> up[i].num <= up[j].num)
                 && (SameNum(up[i], up[j]) ==> j == i + 1 && Marked(s, run, sent[i].sn))
  {
    RunRefines(s, FreshWindow(s.e), run);
    var w := SpecRun(s, FreshWindow(s.e), run);
    forall i, j | 0 <= i < j < |w.up| && SameNum(w.up[i], w.up[j])
      ensures j == i + 1 && Marked(s, run, Mask(w.up[i].num))
    {
      RunMarks(s, FreshWindow(s.e), run, (w.up[i].epoch, w.up[i].num));
    }
  }

  // Every frame of the run that is inside the window is queued.
  predicate Queueing(s: Rx, run: seq<Occurrence>)
    requires Legal(s, run)
    decreases |run|
  {
    run == [] ||
    var t, ev := Pooled(s, run[0]), run[0].ev;
    && (ev.Frame? && InWindow(Flushed(t, ev.clk), ev.f) ==> Queues(Flushed(t, ev.clk), ev.f))
    && Queueing(Step(t, ev), run[1..])
  }

  lemma {:induction false} QueueingIsClean(s: Rx, run: seq<Occurrence>)
    requires Legal(s, run) && Queueing(s, run)
    ensures Clean(s, run)
    decreases |run|
  {
    if run == [] {
    } else {
      QueueingIsClean(Step(Pooled(s, run[0]), run[0].ev), run[1..]);
    }
  }

  // On a run that queues, what marks is a BlockAckReq.
  lemma {:induction false} QueueingMarks(s: Rx, run: seq<Occurrence>, sn: int) returns (k: nat)
    requires Legal(s, run) && Queueing(s, run) && Marked(s, run, sn)
    ensures k < |run| && run[k].ev == Bar(sn)
    decreases |run|
  {
    if run[0].ev == Bar(sn) {
      k := 0;
    } else {
      var j := QueueingMarks(Step(Pooled(s, run[0]), run[0].ev), run[1..], sn);
      k := j + 1;
    }
  }

  // Some event of the run is a BlockAckReq that starts at sn.
  predicate HasBar(run: seq<Occurrence>, sn: int) {
    exists k :: 0 <= k < |run| && run[k].ev == Bar(sn)
  }

  /** On the queueing branch, with BlockAckReqs at will, delivered numbers never decrease within an
      epoch; a number is delivered twice only in a row, and only if it is the start of a BlockAckReq
      of the run. */
  lemma OnlyBarStartsRepeat(s: Rx, run: seq<Occurrence>)
    requires Fresh(s.e) && Legal(s, run) && Queueing(s, run)
    ensures var up, sent := SpecRun(s, FreshWindow(s.e), run).up, Run(s, run).e.up;
            && LogIs(sent, up)
            && forall i, j :: 0 <= i < j < |up| ==>
                 && up[i].epoch <= up[j].epoch
                 && (up[i].epoch == up[j].epoch ==> up[i].num <= up[j].num)
                 && (SameNum(up[i], up[j]) ==> j == i + 1 && HasBar(run, sent[i].sn))
  {
    QueueingIsClean(s, run);
    RunDelivers(s, run);
    var up, sent := SpecRun(s, FreshWindow(s.e), run).up, Run(s, run).e.up;
    forall i, j | 0 <= i < j < |up| && SameNum(up[i], up[j]) ensures HasBar(run, sent[i].sn) {
      var k := QueueingMarks(s, run, sent[i].sn);
    }
  }

  /** Without BlockAckReqs, arrivals, timeouts, resets, ADDBA and DELBA in any order deliver strictly
      increasing numbers within every epoch. */
  lemma QueueingRunIsStrict(s: Rx, run: seq<Occurrence>)
    requires Fresh(s.e) && Legal(s, run) && Queueing(s, run) && forall k :: 0 <= k < |run| ==> !run[k].ev.Bar?
    ensures var up := SpecRun(s, FreshWindow(s.e), run).up;
            && LogIs(Run(s, run).e.up, up)
            && forall i, j :: 0 <= i < j < |up| ==>
                 up[i].epoch < up[j].epoch || (up[i].epoch == up[j].epoch && up[i].num < up[j].num)
  {
    OnlyBarStartsRepeat(s, run);
    var up, sent := SpecRun(s, FreshWindow(s.e), run).up, Run(s, run).e.up;
    forall i, j | 0 <= i < j < |up| ensures !SameNum(up[i], up[j]) {
      assert !HasBar(run, sent[i].sn);
    }
  }

  // ---------- section 9.21.7.6 of IEEE 802.11-2012 ----------

  /** The standard's rule for a frame that is not old: buffer it unless it is held already, move the
      start of the window so that the frame fits, pass up everything before the start, and then pass
      up from the start in sequence until the first number that is missing. */
  function StandardReceive(w: Window, num: int, packet: Packet): Window
    requires w.head.Some?
  {
    var h := w.head.value;
    if num <= h then w
    else
      var held := if num in w.buf then w.buf else w.buf[num := packet];
      var start := if num > h + w.win then num - w.win + 1 else h + 1;
      var end := RunEnd(held, start - 1);
      w.(head := Some(end), buf := After(held, end), up := w.up + Upto(held, w.epoch, h, end))
  }

  lemma {:induction false} UptoSplits(buf: map<int, Packet>, epoch: nat, lo: int, mid: int, hi: int)
    requires lo <= mid <= hi
    ensures Upto(buf, epoch, lo, hi) == Upto(buf, epoch, lo, mid) + Upto(buf, epoch, mid, hi)
    decreases hi - mid
  {
    if mid < hi {
      UptoSplits(buf, epoch, lo, mid, hi - 1);
    }
  }

  lemma {:induction false} UptoAgrees(a: map<int, Packet>, b: map<int, Packet>, epoch: nat, lo: int, hi: int)
    requires forall k :: lo < k <= hi ==> (k in a <==> k in b) && (k in a ==> a[k] == b[k])
    ensures Upto(a, epoch, lo, hi) == Upto(b, epoch, lo, hi)
    decreases hi - lo
  {
    if lo < hi {
      UptoAgrees(a, b, epoch, lo, hi - 1);
    }
  }

  lemma RunEndUnique(buf: map<int, Packet>, h: int, r: int)
    requires h <= r && r + 1 !in buf && forall k :: h < k <= r ==> k in buf
    ensures RunEnd(buf, h) == r
  {
  }

  /** Case I, the next number: announcing the frame and draining is the standard's rule. */
  lemma NextIsStandard(w: Window, packet: Packet)
    requires SpecInv(w) && w.head.Some? && 1 <= w.win
    ensures var num := w.head.value + 1;
            Advance(HandUp(w, num, packet)) == StandardReceive(w, num, packet)
  {
    var h, num := w.head.value, w.head.value + 1;
    var held := w.buf[num := packet];
    var r := RunEnd(w.buf, num);
    RunEndUnique(held, h, r);
    UptoSplits(held, w.epoch, h, num, r);
    UptoAgrees(held, w.buf, w.epoch, num, r);
    assert Upto(held, w.epoch, h, h) == [];
    assert Upto(held, w.epoch, h, num) == [Delivery(w.epoch, num, packet)];
    assert After(held, r) == After(w.buf, r);
    var v := Advance(HandUp(w, num, packet));
    assert v.up == w.up + ([Delivery(w.epoch, num, packet)] + Upto(w.buf, w.epoch, num, r));
  }

  /** Case IV, inside the window: there is a gap at the head, so the standard passes nothing up. */
  lemma WithinIsStandard(w: Window, num: int, packet: Packet)
    requires SpecInv(w) && w.head.Some? && w.head.value + 1 < num <= w.head.value + w.win
    ensures Receive(w, num, packet, true) == StandardReceive(w, num, packet)
  {
    var h := w.head.value;
    var held := if num in w.buf then w.buf else w.buf[num := packet];
    RunEndUnique(held, h, h);
    assert After(held, h) == held && Upto(held, w.epoch, h, h) == [];
  }

  /** Case V, beyond the window. */
  lemma BeyondIsStandard(w: Window, num: int, packet: Packet)
    requires SpecInv(w) && w.head.Some? && 1 <= w.win && w.head.value + w.win < num && w.head.value + 1 < num
    ensures Receive(w, num, packet, true) == StandardReceive(w, num, packet)
  {
    var h, start := w.head.value, num - w.win;
    var late := After(w.buf, start)[num := packet];
    var r := RunEnd(late, start);
    BeyondForm(w, num, packet, late, r);
    RunEndLate(w.buf, num, packet, start);
    BeyondLog(w.buf, num, packet, w.epoch, h, start, r);
    StandardForm(w, num, packet, start, r);
  }

  // What the standard's rule computes beyond the window, written out.
  lemma StandardForm(w: Window, num: int, packet: Packet, start: int, r: int)
    requires w.head.Some? && num !in w.buf && w.head.value + w.win < num && w.head.value < num && start == num - w.win
    requires r == RunEnd(w.buf[num := packet], start)
    ensures StandardReceive(w, num, packet) ==
            w.(head := Some(r), buf := After(w.buf[num := packet], r),
               up := w.up + Upto(w.buf[num := packet], w.epoch, w.head.value, r))
  {
  }

  lemma RunEndLate(buf: map<int, Packet>, num: int, packet: Packet, start: int)
    ensures RunEnd(buf[num := packet], start) == RunEnd(After(buf, start)[num := packet], start)
  {
    var held, late := buf[num := packet], After(buf, start)[num := packet];
    var r := RunEnd(late, start);
    forall k | start < k <= r ensures k in held { assert k in late; }
    RunEndUnique(held, start, r);
  }

  // The released frames do not include the new one, and the rest are the same with it in place.
  lemma BeyondLog(buf: map<int, Packet>, num: int, packet: Packet, epoch: nat, h: int, start: int, r: int)
    requires h <= start < num && start <= r
    ensures var held, late := buf[num := packet], After(buf, start)[num := packet];
            && Upto(held, epoch, h, r) == Upto(buf, epoch, h, start) + Upto(late, epoch, start, r)
            && After(held, r) == After(late, r)
  {
    var held, late := buf[num := packet], After(buf, start)[num := packet];
    UptoSplits(held, epoch, h, start, r);
    UptoAgrees(held, buf, epoch, h, start);
    UptoAgrees(held, late, epoch, start, r);
  }

  // What case V computes, written out.
  lemma BeyondForm(w: Window, num: int, packet: Packet, late: map<int, Packet>, r: int)
    requires w.head.Some? && w.head.value + w.win < num && w.head.value + 1 < num
    requires late == After(w.buf, num - w.win)[num := packet] && r == RunEnd(late, num - w.win)
    ensures Receive(w, num, packet, true) ==
            w.(head := Some(r), buf := After(late, r),
               up := w.up + (Upto(w.buf, w.epoch, w.head.value, num - w.win) + Upto(late, w.epoch, num - w.win, r)))
  {
    var start := num - w.win;
    var v := ReleaseTo(w, start, start);
    var v' := v.(buf := late);
    assert Receive(w, num, packet, true) == ReleaseTo(v', r, r);
  }

  /** The driver's five cases, when it keeps the frame, are the one rule of the standard. */
  lemma ReceiveIsStandard(w: Window, num: int, packet: Packet)
    requires SpecInv(w) && w.head.Some? && 1 <= w.win
    ensures Receive(w, num, packet, true) == StandardReceive(w, num, packet)
  {
    var h := w.head.value;
    if num == h + 1 {
      NextIsStandard(w, packet);
    } else if h < num <= h + w.win {
      WithinIsStandard(w, num, packet);
    } else if h < num {
      BeyondIsStandard(w, num, packet);
    }
  }

  /** The standard's rule for a BlockAckReq whose start x is ahead: pass up what precedes x, then
      pass up from x in sequence until the first number that is missing. */
  function StandardBar(w: Window, x: int): Window
    requires w.head.Some?
  {
    var end := RunEnd(w.buf, x - 1);
    w.(head := Some(end), buf := After(w.buf, end), up := w.up + Upto(w.buf, w.epoch, w.head.value, end))
  }

  /** The driver obeys a BlockAckReq as the standard says exactly when its start is not buffered. */
  lemma BarIsStandardIff(w: Window, x: int)
    requires w.head.Some? && w.head.value < x
    ensures ReleaseTo(Mark(w, x), x, x - 1) == StandardBar(w, x) <==> x !in w.buf
  {
    if x !in w.buf {
      RunEndUnique(w.buf, x - 1, x - 1);
      assert Upto(w.buf, w.epoch, w.head.value, x) == Upto(w.buf, w.epoch, w.head.value, x - 1);
      assert After(w.buf, x) == After(w.buf, x - 1);
    } else {
      assert RunEnd(w.buf, x - 1) >= x;
    }
  }

  /** A buffered start is handed up by the BlockAckReq and handed up again when a copy arrives. */
  lemma BarRepeats(w: Window, start: int, packet: Packet, stored: bool)
    requires OrderInv(w) && w.head.Some? && 1 <= Mask(start - w.head.value) <= 2048
    requires w.head.value + Mask(start - w.head.value) in w.buf
    ensures var x := w.head.value + Mask(start - w.head.value);
            var up := Receive(BarTo(w, start), x, packet, stored).up;
            exists i :: 0 <= i && i + 1 < |up| && up[i] == Delivery(w.epoch, x, w.buf[x])
                        && up[i + 1] == Delivery(w.epoch, x, packet)
  {
    var h := w.head.value;
    var x := h + Mask(start - h);
    var l := Upto(w.buf, w.epoch, h, x);
    assert l == Upto(w.buf, w.epoch, h, x - 1) + [Delivery(w.epoch, x, w.buf[x])];
    var v := BarTo(w, start);
    assert v.up == w.up + l && v.head == Some(x - 1);
    var u := HandUp(v, x, packet);
    var up := Receive(v, x, packet, stored).up;
    assert up == v.up + [Delivery(w.epoch, x, packet)] + Upto(u.buf, u.epoch, x, RunEnd(u.buf, x));
    var i := |w.up| + |l| - 1;
    assert up[i] == Delivery(w.epoch, x, w.buf[x]) && up[i + 1] == Delivery(w.epoch, x, packet);
  }

  /** The standard calls a frame old when it is 2^11 or more past the start of the window, the number
      after the last one; the driver measures from the last one itself. They disagree at one distance. */
  lemma OldIsStandardIff(last: int, s: int)
    requires IsSeq(last) && IsSeq(s)
    ensures ((s == last || Smaller(s, last)) <==> Dist(s, Mask(last + 1)) >= 2048) <==> Dist(s, last) != 2048
  {
    SmallerIsHalfSpace(s, last);
    NextIsOne(last);
    if s == last {
      MaskIs(s - Mask(last + 1), if last == MAXSEQ then 0 else -1, MAXSEQ);
    } else {
      var k := MaskTurns(s - last);
      Rebase(s, last, Mask(last + 1));
    }
  }

  lemma FirstIsNext(q: seq<Mpdu>, x: int, win: int)
    requires win <= MAX_WIN && IsSeq(x) && Held(q, x, 1, win) && IsQueued(q, Mask(x + 1))
    ensures q != [] && q[0].sn == Mask(x + 1)
  {
    NextIsOne(x);
    var i :| 0 <= i < |q| && q[i].sn == Mask(x + 1);
    assert Dist(q[0].sn, x) + (if 0 < i then 1 else 0) <= Dist(q[i].sn, x);
  }

  // After the fallback the stranded successor is the head of the list.
  lemma StrandedHead(s: Rx, f: RxFrame, e': Entry)
    requires WindowInv(s.e) && IsSeq(f.sn) && 1 <= s.e.win && Strands(s, f) && e' == Sort(s, f).e
    ensures e'.last == f.sn && e'.q != [] && e'.q[0].sn == Mask(f.sn + 1)
  {
    Position(s, f);
    var n := FallbackLeaves(s.e.q, s.e.last, s.e.win, f.sn);
    FirstIsNext(s.e.q[n..], f.sn, s.e.win);
    assert e'.q == s.e.q[n..];
  }

  // A frame numbered next is announced, and a list that does not start right after it stays.
  lemma AnnouncedPast(s: Rx, f: RxFrame)
    requires IsSeq(s.e.last) && f.sn == Mask(s.e.last + 1)
    requires s.e.q != [] && s.e.q[0].sn != Mask(f.sn + 1)
    ensures Sort(s, f).e.q == s.e.q && Sort(s, f).e.last == f.sn && Sort(s, f).e.up == s.e.up + [f.Item()]
  {
    var t := Announce(s, f);
    assert t.e.q[0..] == t.e.q && t.e.up + t.e.q[..0] == t.e.up;
  }

  /** Conversely, every stranding can end in a reordered delivery: after the next two numbers arrive,
      the end of the session hands up the stranded frame behind its own successor. */
  lemma StrandingReorders(s: Rx, f: RxFrame, f1: RxFrame, f2: RxFrame)
    requires WindowInv(s.e) && IsSeq(f.sn) && 1 <= s.e.win && Strands(s, f)
    requires f1.sn == Mask(f.sn + 1) && f2.sn == Mask(f1.sn + 1)
    ensures var t := Sort(s, f);
            && t.e.q != [] && t.e.q[0].sn == f1.sn
            && DelBa(Sort(Sort(t, f1), f2)).e.up == t.e.up + [f1.Item(), f2.Item()] + t.e.q
  {
    var t := Sort(s, f);
    StrandedHead(s, f, t.e);
    NextIsOne(f.sn);
    NextIsOne(f1.sn);
    NextIsOne(f2.sn);
    NotOwnSuccessor(f1.sn);
    AnnouncedPast(t, f1);
    AnnouncedPast(Sort(t, f1), f2);
  }

  lemma NotOwnSuccessor(x: int)
    requires IsSeq(x)
    ensures x != Mask(x + 1) && x != Mask(Mask(x + 1) + 1)
  {
    var j := MaskTurns(x + 1);
    var k := MaskTurns(Mask(x + 1) + 1);
  }
}
