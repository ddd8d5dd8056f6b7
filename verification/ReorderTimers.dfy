/** What the durations and limits of common/ba_action.c amount to, in numbers. */
module ReorderTimers {
  import opened SeqNum
  import opened Reorder
  import opened ReorderWindow
  import opened ReorderSystem

  /** RTMP_TIME_AFTER on a counter that wraps decides the order of times less than half its range apart. */
  lemma AfterIff(clk: Clock, t: int)
    requires -(clk.span / 2) <= t - clk.now < (clk.span + 1) / 2
    ensures clk.After(t) <==> t < clk.now
  {
    var d := t - clk.now;
    if d >= 0 {
      SmallRemainder(d, clk.span);
    } else {
      SmallRemainder(d + clk.span, clk.span);
      OneTurn(d, clk.span);
    }
  }

  lemma SmallRemainder(d: int, span: int)
    requires 0 <= d < span
    ensures d % span == d
  {
  }

  lemma OneTurn(d: int, span: int)
    requires 0 < span && -span <= d < 0
    ensures d % span == (d + span) % span
  {
    var q, r := d / span, d % span;
    assert d == q * span + r;
    Multiples(q, span);
    if d == -span {
      assert q == -1;
    }
  }

  lemma Multiples(q: int, span: int)
    requires 0 < span
    ensures q >= 0 ==> q * span >= 0
    ensures q <= -2 ==> q * span <= -2 * span
  {
  }

  lemma Durations(clk: Clock, elapsed: nat)
    ensures elapsed > clk.PacketTimeout() <==> 1000 * elapsed > 100 * clk.hz
    ensures elapsed > clk.FlushAllTimeout() <==> 1000 * elapsed > 500 * clk.hz
    ensures 0 <= clk.PacketTimeout() <= clk.hz / 2 && 0 <= clk.FlushAllTimeout() <= clk.hz / 2
  {
  }

  // What the two comparisons of the flush say, elapsed ticks after the last frame.
  lemma Comparisons(s: Rx, clk: Clock, elapsed: nat)
    requires elapsed == clk.now - s.e.at && elapsed <= clk.span / 2 && clk.hz < clk.span
    ensures clk.After(s.e.at + clk.PacketTimeout()) <==> 1000 * elapsed > 100 * clk.hz
    ensures clk.After(s.e.at + clk.FlushAllTimeout()) <==> 1000 * elapsed > 500 * clk.hz
  {
    Durations(clk, elapsed);
    AfterIff(clk, s.e.at + clk.PacketTimeout());
    AfterIff(clk, s.e.at + clk.FlushAllTimeout());
  }

  /** A list that has waited at most 100 ms is left alone; past that it is shifted to the next number;
      past 500 ms two frames or more are all handed up, and the session starts afresh. */
  lemma FlushTimeoutMeans(s: Rx, clk: Clock, elapsed: nat)
    requires elapsed == clk.now - s.e.at && elapsed <= clk.span / 2 && clk.hz < clk.span
    ensures
      var t := FlushTimeout(s, clk);
      if s.e.q == [] || 1000 * elapsed <= 100 * clk.hz then t == s
      else if |s.e.q| == 1 || 1000 * elapsed <= 500 * clk.hz then t == FlushOne(s, clk.now)
      else t.e.q == [] && t.e.up == s.e.up + s.e.q && t.e.last == 0xffff && t.e.at == clk.now
           && t.free == s.free + |s.e.q|
  {
    Comparisons(s, clk, elapsed);
    hide Clock.After, Clock.PacketTimeout, Clock.FlushAllTimeout, FlushOne;
  }

  /** The shift gives up the number after the last one and those queued in a row behind it, and sets the
      time anew. */
  lemma FlushOneMeans(s: Rx, now: int)
    requires WindowInv(s.e) && s.e.q != []
    ensures
      var e := FlushOne(s, now).e;
      var n := |s.e.q| - |e.q|;
      && e.at == now && n >= 0 && e.q == s.e.q[n..] && e.up == s.e.up + s.e.q[..n]
      && Dist(e.last, s.e.last) == 1 + n
      && (forall k :: 0 <= k < n ==> Dist(s.e.q[k].sn, s.e.last) == 2 + k)
      && (n < |s.e.q| ==> Dist(s.e.q[n].sn, s.e.last) > 2 + n)
  {
    var q, last, next := s.e.q, s.e.last, Mask(s.e.last + 1);
    NextIsOne(last);
    NoneDue(q, last, s.e.win);
    FlushOneIsDrain(s, now);
    var n := InOrderCount(q, next);
    InOrderFromLast(q, next, s.e.win);
    hide FlushOne, InOrderCount;
    RunFrom(q, last, next, s.e.win, n);
  }

  lemma RunFrom(q: seq<Mpdu>, last: int, next: int, win: int, n: nat)
    requires IsSeq(last) && IsSeq(next) && Dist(next, last) == 1 && Held(q, last, 2, win) && RunOf(q, next, n, 0)
    ensures n <= |q| && (n > 0 ==> Dist(q[n - 1].sn, last) == 1 + n)
    ensures forall k :: 0 <= k < n ==> Dist(q[k].sn, last) == 2 + k
    ensures n < |q| ==> Dist(q[n].sn, last) > 2 + n
  {
    forall k | 0 <= k < |q| ensures Dist(q[k].sn, last) == Dist(q[k].sn, next) + 1 {
      Rebase(q[k].sn, last, next);
    }
  }

  /** An accepted session is reset once it has been idle for more than 1000 ticks, and not before. */
  lemma IdleMeans(s: Rx, clk: Clock, elapsed: nat)
    requires elapsed == clk.now - s.e.at && elapsed <= clk.span / 2 && 2000 < clk.span
    ensures
      var t := Idle(s, clk);
      if s.e.win == 0 || elapsed <= 1000 then t == s
      else t.e.q == [] && t.e.up == s.e.up + s.e.q && t.e.last == 0xffff && t.e.win == s.e.win
  {
    AfterIff(clk, s.e.at + 1000);
    hide Clock.After;
  }

  /** The window granted is the smaller of the peer's buffer, in 8 bits, and our limit; 64 stands for 0. */
  lemma GrantedWinMeans(bufSize: nat, limit: nat)
    requires limit <= MAX_WIN
    ensures
      var win := GrantedWin(bufSize, limit);
      && (0 < bufSize < 256 && 0 < limit ==>
            win <= bufSize && win <= limit && (win == bufSize || win == limit))
      && (bufSize % 256 == 0 || limit == 0 ==> win == 64)
      && (bufSize >= 256 ==> win == GrantedWin(bufSize - 256, limit))
  {
  }

  /** A frame for no session is announced as it is; one of more than 1520 bytes that is no A-MSDU, or
      from an unknown station, is freed; neither touches a session. */
  lemma OutsideMeans(y: Sys, to: Lookup, f: RxFrame, clk: Clock)
    requires Possible(y, Ampdu(to, f, clk))
    ensures
      var z := SysStep(y, Ampdu(to, f, clk));
      && (!f.amsdu && f.size > 1520 ==> z == y.(refused := y.refused + [f.Item()]))
      && (f.amsdu || f.size <= 1520 ==>
            && (to == NoSession ==> z == y.(direct := y.direct + [f.Item()]))
            && (to == BadWcid ==> z == y.(refused := y.refused + [f.Item()])))
  {
  }

  /** Old frames and repetitions are counted and freed, and change nothing else; no other frame is. */
  lemma DropsMeans(s: Rx, f: RxFrame)
    requires IsSeq(f.sn) && IsSeq(s.e.last)
    ensures
      var t, late := Sort(s, f), f.sn == s.e.last || Dist(f.sn, s.e.last) >= 2048;
      && (late ==> t == s.(e := s.e.(drops := s.e.drops + 1, freed := s.e.freed + [f.Item()])))
      && (!late ==> t.e.drops == s.e.drops)
  {
    StepOneDist(f.sn, s.e.last);
    SmallerIsHalfSpace(f.sn, s.e.last);
  }

  /** Inside the window a frame goes up at once exactly when it is an EAPOL frame or the pool is empty. */
  lemma FallbackMeans(s: Rx, f: RxFrame)
    requires InWindow(s, f)
    ensures f.eapol || s.free == 0 ==>
      var e := Sort(s, f).e;
      e.last == f.sn && e.up != [] && e.up[|e.up| - 1] == f.Item() && |e.q| <= |s.e.q|
    ensures !f.eapol && s.free > 0 ==> Sort(s, f).e.up == s.e.up && Sort(s, f).e.last == s.e.last
  {
  }
}
