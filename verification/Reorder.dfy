/** The receive reordering buffer of one Block Ack session, as values: what each routine of
    common/ba_action.c does to one BA_REC_ENTRY, to the shared pool of mpdu blocks, and to the packets. */
module Reorder {
  import opened Common
  import opened SeqNum

  // The identity of a received packet buffer.
  type Packet = nat

  // A queued reordering_mpdu, and likewise a packet announced or freed.
  datatype Mpdu = Mpdu(sn: int, packet: Packet)

  datatype RxFrame = RxFrame(sn: int, packet: Packet, eapol: bool, amsdu: bool, size: nat) {
    function Item(): Mpdu { Mpdu(sn, packet) }
  }

  type Pos = x: int | 0 < x witness 1

  // System time in ticks, the number of ticks in a second, and the number of values an unsigned long has.
  datatype Clock = Clock(now: int, hz: nat, span: Pos) {
    // RTMP_TIME_AFTER(now, t): t - now is negative as a long
    predicate After(t: int) { (t - now) % span >= (span + 1) / 2 }
    function PacketTimeout(): int { (100 * hz) / 1000 }
    function FlushAllTimeout(): int { ((3000 * hz) / 1000) / 6 }
  }

  const REC_BA_SESSION_IDLE_TIMEOUT := 1000

  /** BA_REC_ENTRY. The fields up and freed record, in order, the packets of this session that
      were announced to the upper layer and those that were freed. */
  datatype Entry = Entry(last: int, win: nat, q: seq<Mpdu>, at: int, drops: nat,
                         up: seq<Mpdu>, freed: seq<Mpdu>)

  /** One session beside the block pool: the blocks on the free list, and those that were taken
      off it and never returned. */
  datatype Rx = Rx(e: Entry, free: nat, kept: nat)

  // The number of list heads that the loop of ba_indicate_reordering_mpdus_le_seq takes.
  function LeCount(q: seq<Mpdu>, x: int): (n: nat)
    ensures n <= |q|
  {
    if q != [] && (q[0].sn == x || Smaller(q[0].sn, x)) then 1 + LeCount(q[1..], x) else 0
  }

  // The number of list heads that the loop of ba_indicate_reordering_mpdus_in_order takes.
  function InOrderCount(q: seq<Mpdu>, x: int): (n: nat)
    ensures n <= |q|
  {
    if q != [] && StepOne(q[0].sn, x) then 1 + InOrderCount(q[1..], q[0].sn) else 0
  }

  // ba_reordering_mpdu_insertsorted: None when the frame is already queued.
  function InsertSorted(q: seq<Mpdu>, m: Mpdu): Option<seq<Mpdu>> {
    if q == [] then Some([m])
    else if Smaller(q[0].sn, m.sn) then
      match InsertSorted(q[1..], m)
      case Some(r) => Some([q[0]] + r)
      case None => None
    else if q[0].sn == m.sn then None
    else Some([m] + q)
  }

  // Dequeue n heads, announce them and return their blocks to the pool.
  function Release(s: Rx, n: nat): Rx
    requires n <= |s.e.q|
  {
    Rx(s.e.(q := s.e.q[n..], up := s.e.up + s.e.q[..n]), s.free + n, s.kept)
  }

  function IndicateLe(s: Rx, x: int): Rx {
    Release(s, LeCount(s.e.q, x))
  }

  // The in-order drain, and the callers' update of LastIndSeq unless the result is RESET_RCV_SEQ.
  function IndicateInOrder(s: Rx, x: int): Rx {
    var n := InOrderCount(s.e.q, x);
    var t := Release(s, n);
    if n == 0 then t else t.(e := t.e.(last := s.e.q[n - 1].sn))
  }

  function Refresh(s: Rx): Rx {
    var t := Release(s, |s.e.q|);
    t.(e := t.e.(last := RESET_RCV_SEQ))
  }

  // The shift by one when the oldest wait has timed out.
  function FlushOne(s: Rx, now: int): Rx {
    var next := Mask(s.e.last + 1);
    var t := IndicateLe(s, next);
    IndicateInOrder(t.(e := t.e.(at := now, last := next)), next)
  }

  // ba_flush_reordering_timeout_mpdus
  function FlushTimeout(s: Rx, clk: Clock): Rx {
    if |s.e.q| == 0 then s
    else if clk.After(s.e.at + clk.FlushAllTimeout()) && |s.e.q| > 1 then
      var t := Refresh(s);
      t.(e := t.e.(at := clk.now))
    else if clk.After(s.e.at + clk.PacketTimeout()) then
      FlushOne(s, clk.now)
    else s
  }

  predicate Queues(s: Rx, f: RxFrame) {
    s.free > 0 && !f.eapol
  }

  // ba_enqueue_reordering_packet
  function Enqueue(s: Rx, f: RxFrame): Rx {
    if Queues(s, f) then
      match InsertSorted(s.e.q, f.Item())
      case Some(r) => Rx(s.e.(q := r), s.free - 1, s.kept)
      case None => s.(e := s.e.(freed := s.e.freed + [f.Item()]))
    else
      // an EAPOL frame took a block that nothing returns
      var a := if s.free > 0 then s.(free := s.free - 1, kept := s.kept + 1) else s;
      var t := IndicateLe(a, f.sn);
      t.(e := t.e.(last := f.sn, up := t.e.up + [f.Item()]))
  }

  function Announce(s: Rx, f: RxFrame): Rx {
    s.(e := s.e.(last := f.sn, up := s.e.up + [f.Item()]))
  }

  function Drop(s: Rx, f: RxFrame): Rx {
    s.(e := s.e.(drops := s.e.drops + 1, freed := s.e.freed + [f.Item()]))
  }

  // The window start that a frame beyond the window moves to.
  function WinStart(s: Rx, f: RxFrame): int {
    var tmp := f.sn - s.e.win - 1;
    Mask((if tmp < 0 then MAXSEQ + 1 + tmp else tmp) + 1)
  }

  predicate InWindow(s: Rx, f: RxFrame) {
    && s.e.last != RESET_RCV_SEQ
    && !StepOne(f.sn, s.e.last)
    && f.sn != s.e.last
    && !Smaller(f.sn, s.e.last)
    && Smaller(f.sn, Mask(s.e.last + s.e.win + 1))
  }

  // Indicate_AMPDU_Packet from the reset check on: the five cases.
  function Sort(s: Rx, f: RxFrame): Rx {
    if s.e.last == RESET_RCV_SEQ then Announce(s, f)
    else if StepOne(f.sn, s.e.last) then IndicateInOrder(Announce(s, f), f.sn)
    else if f.sn == s.e.last then Drop(s, f)
    else if Smaller(f.sn, s.e.last) then Drop(s, f)
    else if Smaller(f.sn, Mask(s.e.last + s.e.win + 1)) then Enqueue(s, f)
    else
      var start := WinStart(s, f);
      var t := IndicateLe(s, start);
      var u := Enqueue(t.(e := t.e.(last := start)), f);
      IndicateInOrder(u, u.e.last)
  }

  function Flushed(s: Rx, clk: Clock): Rx {
    var t := FlushTimeout(s, clk);
    t.(e := t.e.(at := clk.now))
  }

  // Indicate_AMPDU_Packet for a frame whose session was found.
  function Arrive(s: Rx, f: RxFrame, clk: Clock): Rx {
    Sort(Flushed(s, clk), f)
  }

  // CntlEnqueueForRecv
  function BlockAckReq(s: Rx, start: int): Rx {
    if Smaller(s.e.last, start) then
      var t := IndicateLe(s, start);
      t.(e := t.e.(last := if start == 0 then MAXSEQ else start - 1))
    else s
  }

  // BARecSessionIdleTimeout; an accepted session is one with a window.
  function Idle(s: Rx, clk: Clock): Rx {
    if s.e.win > 0 && clk.After(s.e.at + REC_BA_SESSION_IDLE_TIMEOUT) then Refresh(s) else s
  }

  /** The window BARecSessionAdd grants: the smaller of the peer's BufSize, cut to a UCHAR, and
      our limit, and 64 in place of 0. */
  function GrantedWin(bufSize: nat, limit: nat): (win: nat)
    requires limit <= MAX_WIN
    ensures 1 <= win <= MAX_WIN
  {
    var size := bufSize % 256;
    var win := if size < limit then size else limit;
    if win == 0 then 64 else win
  }

  function AddBa(s: Rx, win: nat): Rx {
    var t := Refresh(s);
    t.(e := t.e.(win := win))
  }

  function DelBa(s: Rx): Rx {
    var t := Refresh(s);
    t.(e := t.e.(win := 0))
  }

  datatype Event =
    | Frame(f: RxFrame, clk: Clock)
    | Timeout(clk: Clock)
    | Bar(start: int)
    | IdleTimer(clk: Clock)
    | AddBaReq(bufSize: nat, limit: nat)
    | DelBaReq

  // The 12-bit fields hold 12 bits and the configured window limit is a UCHAR.
  predicate Encodable(ev: Event) {
    match ev
    case Frame(f, _) => IsSeq(f.sn)
    case Bar(start) => IsSeq(start)
    case AddBaReq(_, limit) => limit <= MAX_WIN
    case _ => true
  }

  function Step(s: Rx, ev: Event): Rx
    requires Encodable(ev)
  {
    match ev
    case Frame(f, clk) => Arrive(s, f, clk)
    case Timeout(clk) => FlushTimeout(s, clk)
    case Bar(start) => BlockAckReq(s, start)
    case IdleTimer(clk) => Idle(s, clk)
    case AddBaReq(bufSize, limit) => AddBa(s, GrantedWin(bufSize, limit))
    case DelBaReq => DelBa(s)
  }
}
