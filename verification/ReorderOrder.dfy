/** The order of delivery over whole runs, and the agreement of the receive step with the rule of
    section 9.21.7.6 of IEEE 802.11-2012. */
module ReorderOrder {
  import opened Common
  import opened SeqNum
  import opened Reorder
  import opened ReorderSpec
  import opened ReorderSim

  /** Epochs never go back, numbers never go back within one, and only a marked number repeats. */
  predicate OrderedLog(up: seq<Delivery>, again: set<(nat, int)>) {
    forall i, j :: 0 <= i < j < |up| ==>
      && up[i].epoch <= up[j].epoch
      && (up[i].epoch == up[j].epoch ==>
            up[i].num <= up[j].num && (up[i].num == up[j].num ==> (up[i].epoch, up[i].num) in again))
  }

  predicate SameNum(a: Delivery, b: Delivery) {
    a.epoch == b.epoch && a.num == b.num
  }

  // A number is handed up again only directly after itself, so never three times.
  predicate AtMostTwice(up: seq<Delivery>) {
    forall i, k :: 0 <= i < k < |up| && SameNum(up[i], up[k]) ==> k == i + 1
  }

  predicate AtMostOnce(up: seq<Delivery>, epoch: nat, num: int) {
    forall i, j :: 0 <= i < j < |up| ==>
      !(up[i].epoch == up[j].epoch == epoch && up[i].num == up[j].num == num)
  }

  // Everything handed up so far in this epoch is numbered at most b.
  predicate Low(up: seq<Delivery>, epoch: nat, b: int) {
    forall i :: 0 <= i < |up| ==> up[i].epoch < epoch || (up[i].epoch == epoch && up[i].num <= b)
  }

  // The log is in order up to b, and the buffer starts after b.
  predicate Frontier(w: Window, b: int) {
    && OrderedLog(w.up, w.again) && AtMostTwice(w.up) && Low(w.up, w.epoch, b)
    && forall k :: k in w.buf ==> b < k
  }

  predicate OrderInv(w: Window) {
    && SpecInv(w)
    && match w.head
       case None => OrderedLog(w.up, w.again) && AtMostTwice(w.up)
                    && forall i :: 0 <= i < |w.up| ==> w.up[i].epoch < w.epoch
       case Some(h) =>
         && Frontier(w, h + 1)
         && AtMostOnce(w.up, w.epoch, h + 1)
         && forall i :: 0 <= i < |w.up| && w.up[i].epoch == w.epoch && w.up[i].num == h + 1
              ==> (w.epoch, h + 1) in w.again
  }

  // ---------- the pieces of a step ----------

  predicate Rising(l: seq<Delivery>, buf: map<int, Packet>, epoch: nat, lo: int, hi: int) {
    && (forall i :: 0 <= i < |l| ==> l[i].epoch == epoch && lo < l[i].num <= hi && l[i].num in buf)
    && (forall i, j :: 0 <= i < j < |l| ==> l[i].num < l[j].num)
  }

  lemma {:induction false} UptoRises(buf: map<int, Packet>, epoch: nat, lo: int, hi: int)
    ensures Rising(Upto(buf, epoch, lo, hi), buf, epoch, lo, hi)
    decreases hi - lo
  {
    if lo < hi {
      UptoRises(buf, epoch, lo, hi - 1);
      var l := Upto(buf, epoch, lo, hi - 1);
      assert Upto(buf, epoch, lo, hi) == if hi in buf then l + [Delivery(epoch, hi, buf[hi])] else l;
    }
  }

  // Deliveries above the frontier keep the log in order.
  lemma LogRises(up: seq<Delivery>, again: set<(nat, int)>, epoch: nat, b: int, more: seq<Delivery>, c: int)
    requires OrderedLog(up, again) && AtMostTwice(up) && Low(up, epoch, b) && b <= c
    requires forall i :: 0 <= i < |more| ==> more[i].epoch == epoch && b < more[i].num <= c
    requires forall i, j :: 0 <= i < j < |more| ==> more[i].num < more[j].num
    ensures forall i :: 0 <= i < |up + more| && (up + more)[i].epoch == epoch && (up + more)[i].num > b ==>
              (up + more)[i] in more
    ensures OrderedLog(up + more, again) && AtMostTwice(up + more) && Low(up + more, epoch, c)
    ensures b < c ==> AtMostOnce(up + more, epoch, c)
  {
    var l := up + more;
    forall i, j | 0 <= i < j < |l|
      ensures && l[i].epoch <= l[j].epoch
              && (l[i].epoch == l[j].epoch ==> l[i].num <= l[j].num)
              && (SameNum(l[i], l[j]) ==> j < |up|)
    {
    }
  }

  // One more delivery at the frontier or above it.
  lemma LogAdds(up: seq<Delivery>, again: set<(nat, int)>, epoch: nat, b: int, d: Delivery)
    requires OrderedLog(up, again) && AtMostTwice(up) && Low(up, epoch, b)
    requires d.epoch == epoch && b <= d.num
    requires d.num == b ==> AtMostOnce(up, epoch, b)
    requires forall i :: 0 <= i < |up| && SameNum(up[i], d) ==> (epoch, b) in again
    ensures OrderedLog(up + [d], again) && AtMostTwice(up + [d]) && Low(up + [d], epoch, d.num)
  {
    var last := |up| - 1;
    forall i | 0 <= i <= last && SameNum(up[i], d) ensures i == last {
      assert SameNum(up[last], d);
    }
  }

  // A number above the frontier is in the log only if it came out of the buffer.
  predicate FromBuffer(up: seq<Delivery>, w: Window, x: int) {
    forall i :: 0 <= i < |up| && up[i].epoch == w.epoch && up[i].num == x ==> x in w.buf
  }

  lemma OrdRelease(w: Window, b: int, x: int, h': int)
    requires w.head.Some? && w.head.value <= b && Frontier(w, b)
    ensures Frontier(ReleaseTo(w, x, h'), if b <= x then x else b)
    ensures b < x ==> AtMostOnce(ReleaseTo(w, x, h').up, w.epoch, x) && FromBuffer(ReleaseTo(w, x, h').up, w, x)
  {
    var l := Upto(w.buf, w.epoch, w.head.value, x);
    UptoRises(w.buf, w.epoch, w.head.value, x);
    LogRises(w.up, w.again, w.epoch, b, l, if b <= x then x else b);
  }

  // Handing up everything up to the head leaves the head in front.
  lemma OrdSettle(w: Window)
    requires w.head.Some? && Frontier(w, w.head.value) && w.head.value + 1 !in w.buf
    requires forall k :: k in w.buf ==> k <= w.head.value + w.win
    ensures OrderInv(w)
  {
  }

  lemma OrdAdvance(w: Window, w': Window)
    requires w.head.Some? && Frontier(w, w.head.value) && w' == Advance(w)
    requires forall k :: k in w.buf ==> k <= w.head.value + w.win
    ensures OrderInv(w')
  {
    var r := RunEnd(w.buf, w.head.value);
    OrdRelease(w, w.head.value, r, r);
    OrdSettle(w');
  }

  lemma OrdHandUp(w: Window, b: int, num: int, packet: Packet)
    requires Frontier(w, b) && b <= num && forall k :: k in w.buf ==> num < k
    requires num == b ==> AtMostOnce(w.up, w.epoch, b)
    requires forall i :: 0 <= i < |w.up| && w.up[i].epoch == w.epoch && w.up[i].num == num ==> (w.epoch, num) in w.again
    ensures Frontier(HandUp(w, num, packet), num)
  {
    LogAdds(w.up, w.again, w.epoch, b, Delivery(w.epoch, num, packet));
  }

  lemma OrdReset(w: Window, at: int, win: nat, w': Window)
    requires OrderInv(w) && w' == Reset(w).(at := at, win := win)
    ensures OrderInv(w')
  {
    if w.head.Some? {
      var h := w.head.value;
      OrdRelease(w, h + 1, h + w.win, h);
    }
  }

  lemma OrdMark(w: Window, num: int)
    requires OrderInv(w)
    ensures OrderInv(Mark(w, num))
  {
  }

  lemma OrdBarAhead(w: Window, x: int, w': Window)
    requires w.head.Some? && OrderInv(w) && w.head.value + 1 < x && w' == ReleaseTo(Mark(w, x), x, x - 1)
    ensures OrderInv(w')
  {
    hide OrderedLog, AtMostTwice, Low, Upto;
    var v := Mark(w, x);
    OrdMark(w, x);
    OrdRelease(v, w.head.value + 1, x, x - 1);
    assert FromBuffer(w'.up, v, x) && (x in v.buf ==> (v.epoch, x) in v.again);
    BarSpecInv(w, x, w');
  }

  lemma BarSpecInv(w: Window, x: int, w': Window)
    requires w.head.Some? && SpecInv(w) && w.head.value + 1 < x && w' == ReleaseTo(Mark(w, x), x, x - 1)
    ensures SpecInv(w')
  {
    hide Upto;
  }

  lemma BarInPlace(w: Window)
    requires w.head.Some? && SpecInv(w)
    ensures var h := w.head.value; ReleaseTo(Mark(w, h + 1), h + 1, h) == w
  {
    NothingDue(w, w.head.value + 1);
  }

  lemma OrdBar(w: Window, start: int, w': Window)
    requires OrderInv(w) && IsSeq(start) && w' == BarTo(w, start)
    ensures OrderInv(w')
  {
    if w.head.None? {
      OrdBarFresh(w, start, w');
    } else {
      hide Frontier, AtMostOnce, ReleaseTo, Mark, OrderedLog, AtMostTwice, SpecInv;
      var h, d := w.head.value, Mask(start - w.head.value);
      if d == 1 {
        BarInPlace(w);
      } else if 1 < d <= 2048 {
        OrdBarAhead(w, h + d, w');
      }
    }
  }

  lemma OrdBarFresh(w: Window, start: int, w': Window)
    requires OrderInv(w) && w.head.None? && w' == BarTo(w, start)
    ensures OrderInv(w')
  {
  }

  lemma OrdExpire(w: Window, clk: Clock, w': Window)
    requires OrderInv(w) && w' == Expire(w, clk)
    ensures OrderInv(w')
  {
    if w.head.Some? && w.buf != map[] && w' != w {
      if clk.After(w.at + clk.FlushAllTimeout()) && |w.buf| > 1 {
        OrdReset(w, clk.now, w.win, w');
      } else {
        OrdAdvance(w.(head := Some(w.head.value + 1), at := clk.now), w');
      }
    }
  }

  lemma OrdPass(w: Window, num: int, packet: Packet, w': Window)
    requires OrderInv(w) && w.head.Some? && w.head.value + 1 < num <= w.head.value + w.win
    requires num + 1 !in w.buf && 1 <= w.win
    requires w' == HandUp(ReleaseTo(Mark(w, num), num, num), num, packet)
    ensures OrderInv(w')
  {
    var h := w.head.value;
    OrdMark(w, num);
    var v := Mark(w, num);
    OrdRelease(v, h + 1, num, num);
    var u := ReleaseTo(v, num, num);
    OrdHandUp(u, num, num, packet);
    OrdSettle(w');
  }

  // Beyond the window: the window slides so that the frame is its last number.
  lemma OrdSlide(w: Window, num: int, v: Window)
    requires OrderInv(w) && w.head.Some? && 1 <= w.win && w.head.value + w.win < num
    requires v == ReleaseTo(w, num - w.win, num - w.win)
    ensures Frontier(v, num - w.win) && forall k :: k in v.buf ==> k < num
  {
    OrdRelease(w, w.head.value + 1, num - w.win, num - w.win);
  }

  lemma OrdBeyondPassed(v: Window, num: int, packet: Packet, w': Window)
    requires v.head.Some? && v.head.value < num && Frontier(v, v.head.value) && forall k :: k in v.buf ==> k < num
    requires w' == HandUp(ReleaseTo(v, num, num), num, packet)
    ensures OrderInv(w')
  {
    OrdRelease(v, v.head.value, num, num);
    OrdHandUp(ReleaseTo(v, num, num), num, num, packet);
    OrdSettle(w');
  }

  lemma OrdBeyond(w: Window, num: int, packet: Packet, stored: bool, w': Window)
    requires OrderInv(w) && w.head.Some? && w.head.value + w.win < num && 1 <= w.win
    requires w.head.value + 1 < num && w' == Receive(w, num, packet, stored)
    ensures OrderInv(w')
  {
    var v := ReleaseTo(w, num - w.win, num - w.win);
    OrdSlide(w, num, v);
    if stored {
      OrdAdvance(v.(buf := v.buf[num := packet]), w');
    } else {
      OrdBeyondPassed(v, num, packet, w');
    }
  }

  lemma OrdFirst(w: Window, num: int, packet: Packet, w': Window)
    requires OrderInv(w) && w.head.None? && w' == HandUp(w, num, packet)
    ensures OrderInv(w')
  {
    OrdHandUp(w, num, num, packet);
    OrdSettle(w');
  }

  lemma OrdNext(w: Window, num: int, packet: Packet, w': Window)
    requires OrderInv(w) && w.head == Some(num - 1) && w' == Advance(HandUp(w, num, packet)) && 1 <= w.win
    ensures OrderInv(w')
  {
    OrdHandUp(w, num, num, packet);
    OrdAdvance(HandUp(w, num, packet), w');
  }

  lemma OrdReceive(w: Window, num: int, packet: Packet, stored: bool, w': Window)
    requires OrderInv(w) && 1 <= w.win
    requires w.head.Some? && !stored && w.head.value + 1 < num <= w.head.value + w.win ==> num + 1 !in w.buf
    requires w' == Receive(w, num, packet, stored)
    ensures OrderInv(w')
  {
    hide Advance, ReleaseTo, HandUp, Mark, OrderInv;
    if w.head.None? {
      OrdFirst(w, num, packet, w');
    } else {
      var h := w.head.value;
      if num == h + 1 {
        OrdNext(w, num, packet, w');
      } else if h + w.win < num && h < num {
        OrdBeyond(w, num, packet, stored, w');
      } else if h < num && !stored {
        OrdPass(w, num, packet, w');
      } else if h < num {
        OrdStore(w, num, packet);
      }
    }
  }

  lemma OrdStore(w: Window, num: int, packet: Packet)
    requires OrderInv(w) && w.head.Some? && w.head.value + 1 < num <= w.head.value + w.win
    ensures OrderInv(w.(buf := w.buf[num := packet]))
  {
    hide OrderedLog, AtMostTwice, AtMostOnce, Low;
  }

  // The spec's reading of stranding: the frame passes while its successor is buffered.
  predicate StrandsSpec(w: Window, ev: Event, stored: bool) {
    && ev.Frame? && !stored
    && var v := Expire(w, ev.clk);
       var num := NumOf(v, ev.f.sn);
       v.head.Some? && v.head.value + 1 < num <= v.head.value + v.win && num + 1 in v.buf
  }

  /** Every step of the unbounded window keeps the log in order. */
  lemma OrdStep(w: Window, ev: Event, stored: bool, w': Window)
    requires OrderInv(w) && Encodable(ev) && (ev.Frame? ==> 1 <= w.win) && !StrandsSpec(w, ev, stored)
    requires w' == SpecStep(w, ev, stored)
    ensures OrderInv(w')
  {
    match ev
    case Frame(f, clk) => OrdFrame(w, f, clk, stored, Expire(w, clk), w');
    case Timeout(clk) => OrdExpire(w, clk, w');
    case Bar(start) => OrdBar(w, start, w');
    case IdleTimer(clk) =>
      if w' != w { OrdReset(w, w.at, w.win, w'); }
    case AddBaReq(bufSize, limit) => OrdReset(w, w.at, GrantedWin(bufSize, limit), w');
    case DelBaReq => OrdReset(w, w.at, 0, w');
  }

  lemma OrdFrame(w: Window, f: RxFrame, clk: Clock, stored: bool, v: Window, w': Window)
    requires OrderInv(w) && 1 <= w.win && v == Expire(w, clk) && !StrandsSpec(w, Frame(f, clk), stored)
    requires w' == Receive(v.(at := clk.now), NumOf(v, f.sn), f.packet, stored)
    ensures OrderInv(w')
  {
    OrdExpire(w, clk, v);
    ExpireWin(w, clk);
    OrdAt(v, clk.now);
    hide Expire, Receive, OrderInv;
    OrdReceive(v.(at := clk.now), NumOf(v, f.sn), f.packet, stored, w');
  }

  lemma ExpireWin(w: Window, clk: Clock)
    ensures Expire(w, clk).win == w.win
  {
  }

  lemma OrdAt(w: Window, at: int)
    requires OrderInv(w)
    ensures OrderInv(w.(at := at))
  {
    hide OrderedLog, AtMostTwice, AtMostOnce, Low;
  }
}
