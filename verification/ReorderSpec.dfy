/** The reordering buffer over unbounded sequence numbers, an integer head and a finite map of
    buffered frames, and the proof that the 12-bit sorted list does the same, wrap-around included. */
module ReorderSpec {
  import opened Common
  import opened SeqNum
  import opened Reorder
  import opened ReorderWindow

  // A packet handed up: the epoch (the span between two resets) and the true number it had there.
  datatype Delivery = Delivery(epoch: nat, num: int, packet: Packet)

  /** head is the last number passed up or given up on; None before the first frame of an epoch.
      again records the numbers that were handed up while the head stayed behind them or a copy followed. */
  datatype Window = Window(epoch: nat, head: Option<int>, win: nat, buf: map<int, Packet>, at: int,
                           up: seq<Delivery>, again: set<(nat, int)>)

  // The buffered frames numbered lo+1..hi, in order.
  function Upto(buf: map<int, Packet>, epoch: nat, lo: int, hi: int): seq<Delivery>
    decreases hi - lo
  {
    if hi <= lo then []
    else Upto(buf, epoch, lo, hi - 1) + if hi in buf then [Delivery(epoch, hi, buf[hi])] else []
  }

  function After(buf: map<int, Packet>, x: int): map<int, Packet> {
    map k | k in buf && k > x :: buf[k]
  }

  // The end of the run of consecutive buffered numbers that follows h.
  function RunEnd(buf: map<int, Packet>, h: int): (r: int)
    ensures h <= r && r + 1 !in buf
    ensures forall k :: h < k <= r ==> k in buf
    decreases buf.Keys
  {
    if h + 1 !in buf then h
    else
      assert h + 1 in buf.Keys && h + 1 !in (buf - {h + 1}).Keys;
      var r := RunEnd(buf - {h + 1}, h + 1);
      assert r + 1 != h + 1;
      r
  }

  // Hand up everything numbered at most x; the head becomes h'.
  function ReleaseTo(w: Window, x: int, h': int): Window
    requires w.head.Some?
  {
    w.(head := Some(h'), buf := After(w.buf, x), up := w.up + Upto(w.buf, w.epoch, w.head.value, x))
  }

  function Advance(w: Window): Window
    requires w.head.Some?
  {
    var r := RunEnd(w.buf, w.head.value);
    ReleaseTo(w, r, r)
  }

  function HandUp(w: Window, num: int, packet: Packet): Window {
    w.(head := Some(num), up := w.up + [Delivery(w.epoch, num, packet)])
  }

  // End the epoch: everything still buffered is handed up in order.
  function Reset(w: Window): Window {
    w.(epoch := w.epoch + 1, head := None, buf := map[],
       up := w.up + if w.head.Some? then Upto(w.buf, w.epoch, w.head.value, w.head.value + w.win) else [])
  }

  // Note that num, if buffered, is about to be handed up without the head moving past it.
  function Mark(w: Window, num: int): Window {
    if num in w.buf then w.(again := w.again + {(w.epoch, num)}) else w
  }

  // A frame with true number num; stored says whether the driver had a block to keep it in.
  function Receive(w: Window, num: int, packet: Packet, stored: bool): Window {
    if w.head.None? then HandUp(w, num, packet)
    else
      var h := w.head.value;
      if num <= h then w
      else if num == h + 1 then Advance(HandUp(w, num, packet))
      else if num <= h + w.win then
        if !stored then HandUp(ReleaseTo(Mark(w, num), num, num), num, packet)
        else if num in w.buf then w
        else w.(buf := w.buf[num := packet])
      else
        var start := num - w.win;
        var v := ReleaseTo(w, start, start);
        if !stored then HandUp(ReleaseTo(v, num, num), num, packet)
        else Advance(v.(buf := v.buf[num := packet]))
  }

  function Expire(w: Window, clk: Clock): Window {
    if w.buf == map[] || w.head.None? then w
    else if clk.After(w.at + clk.FlushAllTimeout()) && |w.buf| > 1 then Reset(w).(at := clk.now)
    else if clk.After(w.at + clk.PacketTimeout()) then
      Advance(w.(head := Some(w.head.value + 1), at := clk.now))
    else w
  }

  // A BlockAckReq whose start lies ahead releases up to it and puts the head just before it.
  function BarTo(w: Window, start: int): Window {
    match w.head
    case None => if start < 2048 then w.(head := Some(start - 1)) else w
    case Some(h) =>
      var d := Mask(start - h);
      if 1 <= d <= 2048 then
        ReleaseTo(Mark(w, h + d), h + d, h + d - 1)
      else w
  }

  // The true number of a frame: nearest the head, or the number itself when an epoch begins.
  function NumOf(w: Window, s: int): int {
    if w.head.Some? then Unwrap(w.head.value, s) else s
  }

  function SpecStep(w: Window, ev: Event, stored: bool): Window
    requires Encodable(ev)
  {
    match ev
    case Frame(f, clk) =>
      var v := Expire(w, clk).(at := clk.now);
      Receive(v, NumOf(v, f.sn), f.packet, stored)
    case Timeout(clk) => Expire(w, clk)
    case Bar(start) => BarTo(w, start)
    case IdleTimer(clk) => if w.win > 0 && clk.After(w.at + REC_BA_SESSION_IDLE_TIMEOUT) then Reset(w) else w
    case AddBaReq(bufSize, limit) => Reset(w).(win := GrantedWin(bufSize, limit))
    case DelBaReq => Reset(w).(win := 0)
  }

  // ---------- the relation between the list and the map ----------

  // The true number of a queued frame, given the true number of the last indicated one.
  function Num(s: int, h: int): int {
    h + Dist(s, Mask(h))
  }

  predicate BufIs(buf: map<int, Packet>, q: seq<Mpdu>, h: int) {
    && (forall i :: 0 <= i < |q| ==> Num(q[i].sn, h) in buf && buf[Num(q[i].sn, h)] == q[i].packet)
    && (forall k :: k in buf ==> exists i :: 0 <= i < |q| && Num(q[i].sn, h) == k)
  }

  predicate LogIs(up: seq<Mpdu>, log: seq<Delivery>) {
    && |up| == |log|
    && forall i :: 0 <= i < |up| ==> up[i].sn == Mask(log[i].num) && up[i].packet == log[i].packet
  }

  // The relation in the middle of a step, when the head's successor may still be queued.
  predicate PreSim(e: Entry, w: Window) {
    && e.win == w.win <= MAX_WIN && e.at == w.at && LogIs(e.up, w.up)
    && w.head.Some?
    && e.last == Mask(w.head.value)
    && Held(e.q, e.last, 1, e.win)
    && BufIs(w.buf, e.q, w.head.value)
  }

  /** The simulation: the session entry stands for the unbounded window. */
  predicate Sim(e: Entry, w: Window) {
    && WindowInv(e)
    && if w.head.Some? then PreSim(e, w)
       else e.last == RESET_RCV_SEQ && w.buf == map[] && e.win == w.win && e.at == w.at && LogIs(e.up, w.up)
  }

  function Lift(q: seq<Mpdu>, h: int, epoch: nat): seq<Delivery> {
    seq(|q|, i requires 0 <= i < |q| => Delivery(epoch, Num(q[i].sn, h), q[i].packet))
  }

  lemma MaskNum(s: int, h: int)
    requires IsSeq(s)
    ensures Mask(Num(s, h)) == s && h <= Num(s, h) < h + SEQ_SPACE
  {
    var i := MaskTurns(h);
    var j := MaskTurns(s - Mask(h));
    MaskIs(Num(s, h), i - j, s);
  }

  // A later head less than a turn ahead gives the same numbers to the frames ahead of it.
  lemma NumFrom(s: int, h: int, h': int)
    requires 0 <= h' - h <= Dist(s, Mask(h))
    ensures Num(s, h') == Num(s, h) && Dist(Mask(h'), Mask(h)) == h' - h
  {
    var i := MaskTurns(h);
    var j := MaskTurns(h');
    var k := MaskTurns(s - Mask(h));
    MaskIs(Mask(h') - Mask(h), i - j, h' - h);
    Rebase(s, Mask(h), Mask(h'));
  }

  lemma AheadOf(h: int, d: int)
    requires 0 <= d < SEQ_SPACE
    ensures Dist(Mask(h + d), Mask(h)) == d
  {
    var i := MaskTurns(h);
    var j := MaskTurns(h + d);
    MaskIs(Mask(h + d) - Mask(h), i - j, d);
  }

  // l lists the map in increasing order of number.
  predicate Lists(l: seq<Delivery>, buf: map<int, Packet>, epoch: nat) {
    && (forall i, j :: 0 <= i < j < |l| ==> l[i].num < l[j].num)
    && (forall i :: 0 <= i < |l| ==> l[i].epoch == epoch && l[i].num in buf && buf[l[i].num] == l[i].packet)
    && (forall k :: k in buf ==> exists i :: 0 <= i < |l| && l[i].num == k)
  }

  // No buffered number lies in (lo, hi].
  predicate Gap(buf: map<int, Packet>, lo: int, hi: int) {
    forall k :: k in buf ==> !(lo < k <= hi)
  }

  lemma {:induction false} UptoGap(buf: map<int, Packet>, epoch: nat, lo: int, mid: int, hi: int)
    requires lo <= mid <= hi && Gap(buf, mid, hi)
    ensures Upto(buf, epoch, lo, hi) == Upto(buf, epoch, lo, mid)
    decreases hi - mid
  {
    if mid < hi {
      UptoGap(buf, epoch, lo, mid, hi - 1);
    }
  }

  // Between two neighbours of the list there is no buffered number.
  lemma ListedGap(l: seq<Delivery>, buf: map<int, Packet>, epoch: nat, lo: int, n: nat, x: int)
    requires Lists(l, buf, epoch) && n <= |l|
    requires forall i :: 0 <= i < n ==> l[i].num <= lo
    requires forall i :: n <= i < |l| ==> x < l[i].num
    ensures Gap(buf, lo, x)
  {
    forall k | k in buf ensures !(lo < k <= x) {
      var i :| 0 <= i < |l| && l[i].num == k;
    }
  }

  lemma {:induction false} UptoIsListed(l: seq<Delivery>, buf: map<int, Packet>, epoch: nat, h: int, n: nat, x: int)
    requires Lists(l, buf, epoch) && h <= x && n <= |l|
    requires forall i :: 0 <= i < |l| ==> h < l[i].num && (l[i].num <= x <==> i < n)
    ensures Upto(buf, epoch, h, x) == l[..n]
    decreases n
  {
    if n == 0 {
      ListedGap(l, buf, epoch, h, 0, x);
      UptoGap(buf, epoch, h, h, x);
    } else {
      var top := l[n - 1].num;
      ListedGap(l, buf, epoch, top, n, x);
      UptoGap(buf, epoch, h, top, x);
      UptoIsListed(l, buf, epoch, h, n - 1, top - 1);
      assert l[..n] == l[..n - 1] + [l[n - 1]];
    }
  }

  /** The map lists the same frames, in the same order, as the released prefix of the list. */
  lemma UptoIsPrefix(q: seq<Mpdu>, h: int, win: int, buf: map<int, Packet>, epoch: nat, n: nat, x: int)
    requires Held(q, Mask(h), 1, win) && BufIs(buf, q, h) && h <= x && SplitAt(q, Mask(h), n, x - h)
    ensures Upto(buf, epoch, h, x) == Lift(q[..n], h, epoch)
  {
    var l := Lift(q, h, epoch);
    assert forall i :: 0 <= i < |q| ==> l[i].num == Num(q[i].sn, h);
    UptoIsListed(l, buf, epoch, h, n, x);
    assert l[..n] == Lift(q[..n], h, epoch);
  }

  lemma BufAfter(q: seq<Mpdu>, h: int, buf: map<int, Packet>, n: nat, x: int, h': int)
    requires BufIs(buf, q, h) && h <= h' <= x && SplitAt(q, Mask(h), n, x - h)
    ensures BufIs(After(buf, x), q[n..], h')
  {
    forall i | n <= i < |q| ensures Num(q[i].sn, h') == Num(q[i].sn, h) > x {
      NumFrom(q[i].sn, h, h');
    }
    hide Num;
    assert forall i :: n <= i < |q| ==> q[i] == q[n..][i - n];
    forall k | k in After(buf, x) ensures exists i :: 0 <= i < |q[n..]| && Num(q[n..][i].sn, h') == k {
      var i :| 0 <= i < |q| && Num(q[i].sn, h) == k;
      assert q[n..][i - n] == q[i];
    }
  }

  lemma LogGrows(up: seq<Mpdu>, log: seq<Delivery>, q: seq<Mpdu>, h: int, epoch: nat)
    requires LogIs(up, log) && forall i :: 0 <= i < |q| ==> IsSeq(q[i].sn)
    ensures LogIs(up + q, log + Lift(q, h, epoch))
  {
    forall i | 0 <= i < |q| ensures q[i].sn == Mask(Lift(q, h, epoch)[i].num) {
      MaskNum(q[i].sn, h);
    }
  }

  /** Releasing the frames not after x in the list is releasing the numbers up to x in the map. */
  lemma SimRelease(s: Rx, w: Window, n: nat, x: int, h': int, e': Entry, w': Window)
    requires PreSim(s.e, w) && w.head.value <= h' <= x && SplitAt(s.e.q, s.e.last, n, x - w.head.value)
    requires h' - w.head.value < SEQ_SPACE
    requires e' == Release(s, n).e.(last := Mask(h')) && w' == ReleaseTo(w, x, h')
    ensures PreSim(e', w')
  {
    var q, h, win := s.e.q, w.head.value, s.e.win;
    assert LogIs(e'.up, w'.up) by {
      UptoIsPrefix(q, h, win, w.buf, w.epoch, n, x);
      LogGrows(s.e.up, w.up, q[..n], h, w.epoch);
    }
    assert BufIs(w'.buf, e'.q, h') by { BufAfter(q, h, w.buf, n, x, h'); }
    assert Held(e'.q, e'.last, 1, win) by { HeldPast(q, h, win, n, x, h'); }
  }

  lemma HeldPast(q: seq<Mpdu>, h: int, win: int, n: nat, x: int, h': int)
    requires Held(q, Mask(h), 1, win) && h <= h' <= x && SplitAt(q, Mask(h), n, x - h) && h' - h < SEQ_SPACE
    ensures Held(q[n..], Mask(h'), 1, win)
  {
    AheadOf(h, h' - h);
    HeldAfter(q, Mask(h), win, n, Mask(h'), 1);
  }

  lemma SimLe(s: Rx, w: Window, x: int, back: int, e': Entry, w': Window)
    requires PreSim(s.e, w) && IsSeq(x) && Dist(x, s.e.last) <= 2048 && 0 <= back <= Dist(x, s.e.last)
    requires var num := Num(x, w.head.value);
             e' == IndicateLe(s, x).e.(last := Mask(num - back)) && w' == ReleaseTo(w, num, num - back)
    ensures PreSim(e', w')
  {
    LeSplits(s.e.q, s.e.last, s.e.win, x);
    SimRelease(s, w, LeCount(s.e.q, x), Num(x, w.head.value), Num(x, w.head.value) - back, e', w');
  }

  lemma RunEndIs(q: seq<Mpdu>, h: int, win: int, buf: map<int, Packet>, n: nat)
    requires BufIs(buf, q, h) && Held(q, Mask(h), 1, win) && RunOf(q, Mask(h), n, 0)
    ensures RunEnd(buf, h) == h + n
  {
    forall k | h < k <= h + n ensures k in buf {
      assert Num(q[k - h - 1].sn, h) == k;
    }
    assert h + n + 1 !in buf;
  }

  lemma InOrderIsRelease(s: Rx, h: int, n: nat)
    requires s.e.last == Mask(h) && n == InOrderCount(s.e.q, s.e.last)
    requires n > 0 ==> s.e.q[n - 1].sn == Mask(h + n)
    ensures IndicateInOrder(s, s.e.last).e == Release(s, n).e.(last := Mask(h + n))
  {
  }

  lemma SimDrained(s: Rx, w: Window, n: nat, e': Entry, w': Window)
    requires PreSim(s.e, w) && n == InOrderCount(s.e.q, s.e.last) && n < SEQ_SPACE
    requires RunEnd(w.buf, w.head.value) == w.head.value + n && SplitAt(s.e.q, s.e.last, n, n)
    requires n > 0 ==> s.e.q[n - 1].sn == Mask(w.head.value + n)
    requires e' == IndicateInOrder(s, s.e.last).e && w' == Advance(w)
    ensures PreSim(e', w')
  {
    hide InOrderCount, IndicateInOrder, Advance, ReleaseTo, RunEnd, SplitAt, Held, BufIs, LogIs, Release, Mask;
    var h := w.head.value;
    InOrderIsRelease(s, h, n);
    AdvanceIsRelease(w, n);
    SimRelease(s, w, n, h + n, h + n, e', w');
  }

  /** The in-order drain of the list is the advance of the map. */
  lemma SimInOrder(s: Rx, w: Window, e': Entry, w': Window)
    requires PreSim(s.e, w) && IsSeq(s.e.last)
    requires e' == IndicateInOrder(s, s.e.last).e && w' == Advance(w)
    ensures PreSim(e', w')
  {
    hide InOrderCount, IndicateInOrder, Advance, RunEnd, SplitAt, Held, BufIs, LogIs, Mask;
    DrainCount(s.e.q, w.head.value, s.e.win, w.buf);
    SimDrained(s, w, InOrderCount(s.e.q, s.e.last), e', w');
  }

  lemma AdvanceIsRelease(w: Window, n: nat)
    requires w.head.Some? && RunEnd(w.buf, w.head.value) == w.head.value + n
    ensures Advance(w) == ReleaseTo(w, w.head.value + n, w.head.value + n)
  {
  }

  lemma DrainCount(q: seq<Mpdu>, h: int, win: int, buf: map<int, Packet>)
    requires 0 <= win <= MAX_WIN && IsSeq(Mask(h)) && Held(q, Mask(h), 1, win) && BufIs(buf, q, h)
    ensures var n := InOrderCount(q, Mask(h));
            && RunEnd(buf, h) == h + n && n < SEQ_SPACE
            && (n > 0 ==> q[n - 1].sn == Mask(h + n))
            && SplitAt(q, Mask(h), n, n)
  {
    var n := InOrderCount(q, Mask(h));
    HeldSeqs(q, Mask(h), win);
    hide InOrderCount, RunEnd, SplitAt, Held, BufIs, RunOf, Mask;
    InOrderFromLast(q, Mask(h), win);
    RunEndIs(q, h, win, buf, n);
    LastOfRun(q, h, n);
  }

  lemma HeldSeqs(q: seq<Mpdu>, last: int, win: int)
    requires Held(q, last, 1, win)
    ensures forall i :: 0 <= i < |q| ==> IsSeq(q[i].sn)
  {
  }

  lemma LastOfRun(q: seq<Mpdu>, h: int, n: nat)
    requires RunOf(q, Mask(h), n, 0) && forall i :: 0 <= i < |q| ==> IsSeq(q[i].sn)
    ensures n > 0 ==> q[n - 1].sn == Mask(h + n)
    ensures n < SEQ_SPACE
    ensures SplitAt(q, Mask(h), n, n)
  {
    if n > 0 {
      MaskNum(q[n - 1].sn, h);
    }
  }

  // A queued frame is ahead of the head by its distance.
  lemma FrameNum(h: int, s: int, win: int)
    requires IsSeq(s) && win <= MAX_WIN && 0 <= win
    ensures var num := Unwrap(h, s);
            && Mask(num) == s
            && (num > h ==> num == Num(s, h))
            && (num == h + 1 <==> StepOne(s, Mask(h)))
            && (num == h <==> s == Mask(h))
            && (num < h <==> Smaller(s, Mask(h)))
            && (num > h ==> (num <= h + win <==> Smaller(s, Mask(Mask(h) + win + 1))))
            && num <= h + 2047
  {
    Classify(h, s, win);
  }

  // Handing up a packet numbered as the head only extends the log.
  lemma SimHandUp(e: Entry, w: Window, f: RxFrame, num: int, e': Entry, w': Window)
    requires PreSim(e, w) && w.head == Some(num) && f.sn == Mask(num)
    requires e' == e.(up := e.up + [f.Item()]) && w' == HandUp(w, num, f.packet)
    ensures PreSim(e', w')
  {
  }

  lemma BufInsert(q: seq<Mpdu>, h: int, buf: map<int, Packet>, k: nat, m: Mpdu)
    requires BufIs(buf, q, h) && k <= |q| && Num(m.sn, h) !in buf
    ensures BufIs(buf[Num(m.sn, h) := m.packet], q[..k] + [m] + q[k..], h)
  {
    var num, r := Num(m.sn, h), q[..k] + [m] + q[k..];
    var buf' := buf[num := m.packet];
    forall i | 0 <= i < |r| ensures Num(r[i].sn, h) in buf' && buf'[Num(r[i].sn, h)] == r[i].packet {
      if i < k { assert r[i] == q[i]; } else if i > k { assert r[i] == q[i - 1]; }
    }
    forall x | x in buf' ensures exists i :: 0 <= i < |r| && Num(r[i].sn, h) == x {
      if x == num {
        assert r[k] == m;
      } else {
        BufIndex(buf, q, h, x, k, m);
      }
    }
  }

  lemma BufIndex(buf: map<int, Packet>, q: seq<Mpdu>, h: int, x: int, k: nat, m: Mpdu)
    requires BufIs(buf, q, h) && x in buf && k <= |q|
    ensures var r := q[..k] + [m] + q[k..]; exists i :: 0 <= i < |r| && Num(r[i].sn, h) == x
  {
    var i :| 0 <= i < |q| && Num(q[i].sn, h) == x;
    var r := q[..k] + [m] + q[k..];
    assert r[if i < k then i else i + 1] == q[i];
  }

  lemma QueuedIffBuffered(q: seq<Mpdu>, h: int, win: int, buf: map<int, Packet>, s: int)
    requires BufIs(buf, q, h) && IsSeq(s) && Held(q, Mask(h), 1, win)
    ensures Num(s, h) in buf <==> IsQueued(q, s)
  {
    if Num(s, h) in buf {
      var i :| 0 <= i < |q| && Num(q[i].sn, h) == Num(s, h);
      MaskNum(s, h);
      MaskNum(q[i].sn, h);
      assert q[i].sn == s;
    }
  }

  // Storing a frame in the list is storing it in the map, duplicates refused alike.
  lemma SimInsert(s: Rx, w: Window, f: RxFrame, e': Entry, w': Window)
    requires PreSim(s.e, w) && IsSeq(f.sn) && 1 <= Dist(f.sn, s.e.last) <= s.e.win && Queues(s, f)
    requires e' == Enqueue(s, f).e
    requires var num := Num(f.sn, w.head.value);
             w' == if num in w.buf then w else w.(buf := w.buf[num := f.packet])
    ensures PreSim(e', w')
  {
    var q, h := s.e.q, w.head.value;
    QueuedIffBuffered(q, h, s.e.win, w.buf, f.sn);
    InsertSorts(q, s.e.last, 1, s.e.win, f.Item());
    var k := InsertPosition(q, s.e.last, 1, s.e.win, f.Item());
    if Num(f.sn, h) !in w.buf {
      BufInsert(q, h, w.buf, k, f.Item());
    }
  }
}
