/** All receive sessions together over the one pool of mpdu blocks: where every packet and every
    block is, over all runs, and when the pool cannot run dry. */
module ReorderSystem {
  import opened SeqNum
  import opened Reorder
  import opened ReorderWindow

  const MAX_RX_PKT_LEN := 1520

  // What the wcid and TID of a frame lead to in the session table.
  datatype Lookup = BadWcid | NoSession | Session(i: nat)

  datatype SysEvent = Ampdu(to: Lookup, f: RxFrame, clk: Clock) | Local(i: nat, ev: Event)

  /** The sessions, the pool, and the packets that were announced or freed outside any session. */
  datatype Sys = Sys(entries: seq<Entry>, free: nat, kept: nat, direct: seq<Mpdu>, refused: seq<Mpdu>) {
    function Rx(i: nat): Reorder.Rx
      requires i < |entries|
    {
      Reorder.Rx(entries[i], free, kept)
    }

    function Put(i: nat, s: Reorder.Rx): Sys
      requires i < |entries|
    {
      this.(entries := entries[i := s.e], free := s.free, kept := s.kept)
    }
  }

  predicate Possible(y: Sys, e: SysEvent) {
    match e
    case Ampdu(to, f, _) => IsSeq(f.sn) && (to.Session? ==> to.i < |y.entries|)
    case Local(i, ev) => i < |y.entries| && Encodable(ev) && !ev.Frame?
  }

  // Indicate_AMPDU_Packet from its beginning, and the other events of a session.
  function SysStep(y: Sys, e: SysEvent): Sys
    requires Possible(y, e)
  {
    match e
    case Ampdu(to, f, clk) =>
      if !f.amsdu && f.size > MAX_RX_PKT_LEN then y.(refused := y.refused + [f.Item()])
      else if to.NoSession? then y.(direct := y.direct + [f.Item()])
      else if to.BadWcid? then y.(refused := y.refused + [f.Item()])
      else y.Put(to.i, Step(y.Rx(to.i), Frame(f, clk)))
    case Local(i, ev) => y.Put(i, Step(y.Rx(i), ev))
  }

  // ---------- packets ----------

  function EntryPackets(e: Entry): multiset<Mpdu> {
    multiset(e.up) + multiset(e.freed) + multiset(e.q)
  }

  function ListPackets(es: seq<Entry>): multiset<Mpdu> {
    if es == [] then multiset{} else EntryPackets(es[0]) + ListPackets(es[1..])
  }

  // Every packet the driver still holds, has announced or has freed.
  function Packets(y: Sys): multiset<Mpdu> {
    ListPackets(y.entries) + multiset(y.direct) + multiset(y.refused)
  }

  function HandedIn(e: SysEvent): multiset<Mpdu> {
    if e.Ampdu? then multiset{e.f.Item()} else multiset{}
  }

  lemma ReleaseKeeps(s: Rx, n: nat)
    requires n <= |s.e.q|
    ensures EntryPackets(Release(s, n).e) == EntryPackets(s.e)
    ensures Release(s, n).free + |Release(s, n).e.q| == s.free + |s.e.q|
  {
    assert s.e.q == s.e.q[..n] + s.e.q[n..];
    assert multiset(s.e.q) == multiset(s.e.q[..n]) + multiset(s.e.q[n..]);
  }

  lemma {:induction false} InsertAdds(q: seq<Mpdu>, m: Mpdu)
    ensures InsertSorted(q, m).Some? ==>
              multiset(InsertSorted(q, m).value) == multiset(q) + multiset{m} && |InsertSorted(q, m).value| == |q| + 1
  {
    if q == [] {
    } else {
      assert q == [q[0]] + q[1..];
      InsertAdds(q[1..], m);
    }
  }

  function Blocks(s: Rx): nat {
    s.free + s.kept + |s.e.q|
  }

  // A step from s to t takes in the packets m and loses no packet and no block.
  predicate Keeps(s: Rx, t: Rx, m: multiset<Mpdu>) {
    EntryPackets(t.e) == EntryPackets(s.e) + m && Blocks(t) == Blocks(s)
  }

  // t holds what s held, in the same places.
  predicate SameHolding(s: Rx, t: Rx) {
    s.e.up == t.e.up && s.e.freed == t.e.freed && s.e.q == t.e.q && s.free == t.free && s.kept == t.kept
  }

  lemma KeepsThenQuiet(s: Rx, t: Rx, t': Rx, u: Rx, m: multiset<Mpdu>)
    requires Keeps(s, t, m) && SameHolding(t, t') && Keeps(t', u, multiset{})
    ensures Keeps(s, u, m)
  {
    assert EntryPackets(u.e) == EntryPackets(t'.e);
  }

  lemma QuietThenKeeps(s: Rx, t: Rx, t': Rx, u: Rx, m: multiset<Mpdu>)
    requires Keeps(s, t, multiset{}) && SameHolding(t, t') && Keeps(t', u, m)
    ensures Keeps(s, u, m)
  {
    assert EntryPackets(t.e) == EntryPackets(s.e);
  }

  // Releasing heads from s, whatever else of the entry changes besides.
  lemma ReleasedKeeps(s: Rx, n: nat, t: Rx)
    requires n <= |s.e.q| && SameHolding(Release(s, n), t)
    ensures Keeps(s, t, multiset{})
  {
    ReleaseKeeps(s, n);
  }

  lemma IndicateKeeps(s: Rx, x: int)
    ensures Keeps(s, IndicateLe(s, x), multiset{}) && Keeps(s, IndicateInOrder(s, x), multiset{})
  {
    ReleasedKeeps(s, LeCount(s.e.q, x), IndicateLe(s, x));
    ReleasedKeeps(s, InOrderCount(s.e.q, x), IndicateInOrder(s, x));
  }

  lemma LeThenInOrderKeeps(s: Rx, x: int, e: Entry, u: Rx)
    requires e.q == IndicateLe(s, x).e.q && e.up == IndicateLe(s, x).e.up && e.freed == s.e.freed
    requires u == IndicateInOrder(IndicateLe(s, x).(e := e), x)
    ensures Keeps(s, u, multiset{})
  {
    var t := IndicateLe(s, x);
    var t' := t.(e := e);
    IndicateKeeps(s, x);
    IndicateKeeps(t', x);
    KeepsThenQuiet(s, t, t', u, multiset{});
  }

  lemma FlushKeeps(s: Rx, clk: Clock, u: Rx)
    requires u == FlushTimeout(s, clk)
    ensures Keeps(s, u, multiset{})
  {
    var next := Mask(s.e.last + 1);
    if u == FlushOne(s, clk.now) {
      LeThenInOrderKeeps(s, next, IndicateLe(s, next).e.(at := clk.now, last := next), u);
    } else if u != s {
      ReleasedKeeps(s, |s.e.q|, u);
    }
  }

  // Announcing or freeing one packet adds it.
  lemma OneMore(s: Rx, m: Mpdu)
    ensures EntryPackets(s.e.(up := s.e.up + [m])) == EntryPackets(s.e) + multiset{m}
    ensures EntryPackets(s.e.(freed := s.e.freed + [m])) == EntryPackets(s.e) + multiset{m}
  {
  }

  lemma AnnounceKeeps(s: Rx, f: RxFrame)
    ensures Keeps(s, Announce(s, f), multiset{f.Item()}) && Keeps(s, Drop(s, f), multiset{f.Item()})
  {
    OneMore(s, f.Item());
    assert EntryPackets(Announce(s, f).e) == EntryPackets(s.e.(up := s.e.up + [f.Item()]));
    assert EntryPackets(Drop(s, f).e) == EntryPackets(s.e.(freed := s.e.freed + [f.Item()]));
  }

  lemma QueueKeeps(s: Rx, f: RxFrame)
    requires Queues(s, f)
    ensures Keeps(s, Enqueue(s, f), multiset{f.Item()})
  {
    InsertAdds(s.e.q, f.Item());
    OneMore(s, f.Item());
  }

  lemma FallbackKeeps(s: Rx, f: RxFrame, a: Rx, t: Rx, u: Rx)
    requires !Queues(s, f) && u == Enqueue(s, f)
    requires a == (if s.free > 0 then s.(free := s.free - 1, kept := s.kept + 1) else s) && t == IndicateLe(a, f.sn)
    ensures Keeps(s, u, multiset{f.Item()})
  {
    IndicateKeeps(a, f.sn);
    AnnounceKeeps(t, f);
    assert u == Announce(t, f);
    QuietThenKeeps(a, t, t, u, multiset{f.Item()});
    assert EntryPackets(a.e) == EntryPackets(s.e);
  }

  lemma EnqueueKeeps(s: Rx, f: RxFrame, u: Rx)
    requires u == Enqueue(s, f)
    ensures Keeps(s, u, multiset{f.Item()})
  {
    if Queues(s, f) {
      QueueKeeps(s, f);
    } else {
      var a := if s.free > 0 then s.(free := s.free - 1, kept := s.kept + 1) else s;
      FallbackKeeps(s, f, a, IndicateLe(a, f.sn), u);
    }
  }

  lemma NextKeeps(s: Rx, f: RxFrame)
    ensures Keeps(s, IndicateInOrder(Announce(s, f), f.sn), multiset{f.Item()})
  {
    AnnounceKeeps(s, f);
    var t := Announce(s, f);
    IndicateKeeps(t, f.sn);
    KeepsThenQuiet(s, t, t, IndicateInOrder(t, f.sn), multiset{f.Item()});
  }

  lemma BeyondKeeps(s: Rx, f: RxFrame, t: Rx, t': Rx, u: Rx, v: Rx)
    requires t == IndicateLe(s, WinStart(s, f)) && t' == t.(e := t.e.(last := WinStart(s, f)))
    requires u == Enqueue(t', f) && v == IndicateInOrder(u, u.e.last)
    ensures Keeps(s, v, multiset{f.Item()})
  {
    IndicateKeeps(s, WinStart(s, f));
    EnqueueKeeps(t', f, u);
    QuietThenKeeps(s, t, t', u, multiset{f.Item()});
    IndicateKeeps(u, u.e.last);
    KeepsThenQuiet(s, u, u, v, multiset{f.Item()});
  }

  lemma SortKeeps(s: Rx, f: RxFrame, v: Rx)
    requires v == Sort(s, f)
    ensures Keeps(s, v, multiset{f.Item()})
  {
    if BeyondWindow(s, f) {
      var t := IndicateLe(s, WinStart(s, f));
      var t' := t.(e := t.e.(last := WinStart(s, f)));
      BeyondKeeps(s, f, t, t', Enqueue(t', f), v);
    } else if InWindow(s, f) {
      EnqueueKeeps(s, f, v);
    } else {
      AnnounceKeeps(s, f);
      NextKeeps(s, f);
    }
  }

  lemma ArriveKeeps(s: Rx, f: RxFrame, clk: Clock, v: Rx)
    requires v == Arrive(s, f, clk)
    ensures Keeps(s, v, multiset{f.Item()})
  {
    FlushKeeps(s, clk, FlushTimeout(s, clk));
    SortKeeps(Flushed(s, clk), f, v);
    QuietThenKeeps(s, FlushTimeout(s, clk), Flushed(s, clk), v, multiset{f.Item()});
  }

  /** One session, every event: the frame handed in is announced, freed or queued, once; nothing
      else moves in or out, and no block is lost. */
  lemma StepKeeps(s: Rx, ev: Event, t: Rx)
    requires Encodable(ev) && t == Step(s, ev)
    ensures Keeps(s, t, if ev.Frame? then multiset{ev.f.Item()} else multiset{})
  {
    match ev
    case Frame(f, clk) => ArriveKeeps(s, f, clk, t);
    case Timeout(clk) => FlushKeeps(s, clk, t);
    case Bar(start) =>
      if t != s { ReleasedKeeps(s, LeCount(s.e.q, start), t); }
    case _ =>
      if t != s { ReleasedKeeps(s, |s.e.q|, t); }
  }

  lemma {:induction false} PutPackets(es: seq<Entry>, i: nat, e: Entry, m: multiset<Mpdu>)
    requires i < |es| && EntryPackets(e) == EntryPackets(es[i]) + m
    ensures ListPackets(es[i := e]) == ListPackets(es) + m
  {
    if i > 0 {
      assert es[i := e][1..] == es[1..][i - 1 := e];
      PutPackets(es[1..], i - 1, e, m);
    } else {
      assert es[0 := e][1..] == es[1..];
    }
  }

  function Queued(es: seq<Entry>): nat {
    if es == [] then 0 else |es[0].q| + Queued(es[1..])
  }

  lemma {:induction false} PutQueued(es: seq<Entry>, i: nat, e: Entry)
    requires i < |es|
    ensures Queued(es[i := e]) == Queued(es) - |es[i].q| + |e.q|
  {
    if i > 0 {
      assert es[i := e][1..] == es[1..][i - 1 := e];
      PutQueued(es[1..], i - 1, e);
    } else {
      assert es[0 := e][1..] == es[1..];
    }
  }

  lemma PutKeeps(y: Sys, i: nat, t: Rx, m: multiset<Mpdu>)
    requires i < |y.entries| && Keeps(y.Rx(i), t, m)
    ensures Packets(y.Put(i, t)) == Packets(y) + m
    ensures var z := y.Put(i, t); z.free + z.kept + Queued(z.entries) == y.free + y.kept + Queued(y.entries)
  {
    PutPackets(y.entries, i, t.e, m);
    PutQueued(y.entries, i, t.e);
  }

  // A packet dealt with outside any session.
  lemma OutsideKeeps(y: Sys, m: Mpdu)
    ensures Packets(y.(refused := y.refused + [m])) == Packets(y) + multiset{m}
    ensures Packets(y.(direct := y.direct + [m])) == Packets(y) + multiset{m}
  {
    assert multiset(y.refused + [m]) == multiset(y.refused) + multiset{m};
    assert multiset(y.direct + [m]) == multiset(y.direct) + multiset{m};
  }

  /** Packet and block conservation for the whole system, fallback branch included. */
  lemma SysKeeps(y: Sys, e: SysEvent, z: Sys)
    requires Possible(y, e) && z == SysStep(y, e)
    ensures Packets(z) == Packets(y) + HandedIn(e)
    ensures z.free + z.kept + Queued(z.entries) == y.free + y.kept + Queued(y.entries)
  {
    hide Step, Keeps, ListPackets, Queued, EntryPackets;
    match e
    case Local(i, ev) =>
      var t := Step(y.Rx(i), ev);
      StepKeeps(y.Rx(i), ev, t);
      PutKeeps(y, i, t, multiset{});
      assert z == y.Put(i, t);
    case Ampdu(to, f, clk) =>
      if to.Session? && (f.amsdu || f.size <= MAX_RX_PKT_LEN) {
        var t := Step(y.Rx(to.i), Frame(f, clk));
        StepKeeps(y.Rx(to.i), Frame(f, clk), t);
        PutKeeps(y, to.i, t, multiset{f.Item()});
        assert z == y.Put(to.i, t);
      } else {
        OutsideKeeps(y, f.Item());
      }
  }

  // ---------- whole runs ----------

  predicate PossibleRun(y: Sys, run: seq<SysEvent>)
    decreases |run|
  {
    run == [] || (Possible(y, run[0]) && PossibleRun(SysStep(y, run[0]), run[1..]))
  }

  function SysRun(y: Sys, run: seq<SysEvent>): Sys
    requires PossibleRun(y, run)
    decreases |run|
  {
    if run == [] then y else SysRun(SysStep(y, run[0]), run[1..])
  }

  function AllHandedIn(run: seq<SysEvent>): multiset<Mpdu> {
    if run == [] then multiset{} else HandedIn(run[0]) + AllHandedIn(run[1..])
  }

  /** Over every run, each packet handed in is in exactly one place. */
  lemma {:induction false} RunKeeps(y: Sys, run: seq<SysEvent>)
    requires PossibleRun(y, run)
    ensures Packets(SysRun(y, run)) == Packets(y) + AllHandedIn(run)
    ensures var z := SysRun(y, run); z.free + z.kept + Queued(z.entries) == y.free + y.kept + Queued(y.entries)
    decreases |run|
  {
    if run == [] {
    } else {
      SysKeeps(y, run[0], SysStep(y, run[0]));
      RunKeeps(SysStep(y, run[0]), run[1..]);
    }
  }

  // ---------- the pool suffices ----------

  function Windows(es: seq<Entry>): nat {
    if es == [] then 0 else es[0].win + Windows(es[1..])
  }

  // Blocks enough for every granted window, none lost, and every list within its window.
  predicate Provisioned(y: Sys, num: nat) {
    && y.kept == 0
    && y.free + Queued(y.entries) == num
    && Windows(y.entries) <= num
    && forall i :: 0 <= i < |y.entries| ==> WindowInv(y.entries[i])
  }

  // The frame comes to the insertion: cases IV and V.
  predicate Inserts(s: Rx, f: RxFrame) {
    InWindow(s, f) || BeyondWindow(s, f)
  }

  // No EAPOL frame is out of order, frames reach live sessions, and a grant fits the pool.
  predicate Orderly(y: Sys, e: SysEvent, num: nat)
    requires Possible(y, e)
  {
    && Windows(SysStep(y, e).entries) <= num
    && (e.Ampdu? && e.to.Session? ==>
          1 <= y.entries[e.to.i].win && (e.f.eapol ==> !Inserts(Flushed(y.Rx(e.to.i), e.clk), e.f)))
  }

  lemma LengthWithin(e: Entry)
    requires WindowInv(e)
    ensures |e.q| <= e.win && (1 <= e.win ==> |e.q| <= e.win - 1)
  {
    if e.last != RESET_RCV_SEQ {
      if e.win == 0 {
        HeldLength(e.q, e.last, 1, 0);
      } else {
        HeldLength(e.q, e.last, 2, e.win);
      }
    }
  }

  lemma {:induction false} QueuedWithin(es: seq<Entry>)
    requires forall i :: 0 <= i < |es| ==> WindowInv(es[i])
    ensures Queued(es) <= Windows(es)
  {
    if es == [] {
    } else {
      LengthWithin(es[0]);
      QueuedWithin(es[1..]);
    }
  }

  // The list that a frame finds when it comes to be inserted is shorter than the window.
  lemma RoomAtInsertion(s: Rx, f: RxFrame)
    requires WindowInv(s.e) && IsSeq(f.sn) && 1 <= s.e.win && Inserts(s, f)
    ensures |AtInsertion(s, f).e.q| <= s.e.win - 1 && AtInsertion(s, f).e.win == s.e.win
  {
    AtInsertionHeld(s, f);
    var t := AtInsertion(s, f);
    HeldLength(t.e.q, t.e.last, if InWindow(s, f) then 2 else 1, if InWindow(s, f) then s.e.win else s.e.win - 1);
  }

  // Before the insertion only releases have happened.
  lemma AtInsertionBlocks(s: Rx, f: RxFrame)
    ensures AtInsertion(s, f).kept == s.kept && Blocks(AtInsertion(s, f)) == Blocks(s)
  {
    IndicateKeeps(s, WinStart(s, f));
  }

  /** In a provisioned system the allocation that an out-of-order frame asks for succeeds. */
  lemma AllocationSucceeds(y: Sys, num: nat, i: nat, f: RxFrame, clk: Clock)
    requires Provisioned(y, num) && i < |y.entries| && 1 <= y.entries[i].win && IsSeq(f.sn)
    requires Inserts(Flushed(y.Rx(i), clk), f)
    ensures AtInsertion(Flushed(y.Rx(i), clk), f).free > 0
  {
    var s := Flushed(y.Rx(i), clk);
    FlushTimeoutHeld(y.Rx(i), clk);
    FlushKeeps(y.Rx(i), clk, FlushTimeout(y.Rx(i), clk));
    var t := AtInsertion(s, f);
    RoomAtInsertion(s, f);
    AtInsertionBlocks(s, f);
    // the other lists are within their windows, and this one is shorter than its own
    OthersWithin(y.entries, i);
    FlushedKept(y.Rx(i), clk);
  }

  lemma FlushedKept(s: Rx, clk: Clock)
    ensures Flushed(s, clk).kept == s.kept
  {
  }

  // The lists other than the i-th are within their windows.
  lemma {:induction false} OthersWithin(es: seq<Entry>, i: nat)
    requires i < |es| && forall j :: 0 <= j < |es| ==> WindowInv(es[j])
    ensures Queued(es) - |es[i].q| <= Windows(es) - es[i].win
  {
    if i > 0 {
      LengthWithin(es[0]);
      OthersWithin(es[1..], i - 1);
    } else {
      QueuedWithin(es[1..]);
    }
  }

  lemma SortKept(s: Rx, f: RxFrame)
    requires Inserts(s, f) ==> Queues(AtInsertion(s, f), f)
    ensures Sort(s, f).kept == s.kept
  {
    if BeyondWindow(s, f) {
      var u := Enqueue(AtInsertion(s, f), f);
      assert u.kept == s.kept;
      assert Sort(s, f) == IndicateInOrder(u, u.e.last);
    }
  }

  // Keeping a frame takes no block out of circulation, and neither do the other events.
  lemma KeptUnchanged(s: Rx, ev: Event)
    requires Encodable(ev)
    requires ev.Frame? && Inserts(Flushed(s, ev.clk), ev.f) ==> Queues(AtInsertion(Flushed(s, ev.clk), ev.f), ev.f)
    ensures Step(s, ev).kept == s.kept
  {
    if ev.Frame? {
      FlushedKept(s, ev.clk);
      SortKept(Flushed(s, ev.clk), ev.f);
    }
  }

  lemma QueuedDoesNotStrand(s: Rx, ev: Event)
    requires ev.Frame? && Inserts(Flushed(s, ev.clk), ev.f) ==> Queues(AtInsertion(Flushed(s, ev.clk), ev.f), ev.f)
    ensures !StrandsEvent(s, ev)
  {
  }

  lemma PutProvisions(y: Sys, num: nat, i: nat, ev: Event)
    requires Provisioned(y, num) && i < |y.entries| && Deliverable(y.Rx(i), ev)
    requires var s := y.Rx(i);
             ev.Frame? && Inserts(Flushed(s, ev.clk), ev.f) ==> Queues(AtInsertion(Flushed(s, ev.clk), ev.f), ev.f)
    requires Windows(y.Put(i, Step(y.Rx(i), ev)).entries) <= num
    ensures Provisioned(y.Put(i, Step(y.Rx(i), ev)), num)
  {
    var s := y.Rx(i);
    KeptUnchanged(s, ev);
    QueuedDoesNotStrand(s, ev);
    StepHeld(s, ev);
    StepKeeps(s, ev, Step(s, ev));
    PutKeeps(y, i, Step(s, ev), if ev.Frame? then multiset{ev.f.Item()} else multiset{});
  }

  /** A provisioned system stays provisioned: the lists stay in their windows and no block is lost. */
  lemma StaysProvisioned(y: Sys, num: nat, e: SysEvent)
    requires Provisioned(y, num) && Possible(y, e) && Orderly(y, e, num)
    ensures Provisioned(SysStep(y, e), num)
  {
    match e
    case Local(i, ev) => PutProvisions(y, num, i, ev);
    case Ampdu(to, f, clk) =>
      if to.Session? && (f.amsdu || f.size <= MAX_RX_PKT_LEN) {
        if Inserts(Flushed(y.Rx(to.i), clk), f) {
          AllocationSucceeds(y, num, to.i, f, clk);
        }
        PutProvisions(y, num, to.i, Frame(f, clk));
      }
  }

  predicate OrderlyRun(y: Sys, num: nat, run: seq<SysEvent>)
    requires PossibleRun(y, run)
    decreases |run|
  {
    run == [] || (Orderly(y, run[0], num) && OrderlyRun(SysStep(y, run[0]), num, run[1..]))
  }

  // A frame that is to be queued finds a free block.
  predicate Allocates(y: Sys, e: SysEvent)
    requires Possible(y, e)
  {
    e.Ampdu? && e.to.Session? && (e.f.amsdu || e.f.size <= MAX_RX_PKT_LEN)
      && Inserts(Flushed(y.Rx(e.to.i), e.clk), e.f) ==>
      AtInsertion(Flushed(y.Rx(e.to.i), e.clk), e.f).free > 0
  }

  predicate NeverFails(y: Sys, run: seq<SysEvent>)
    requires PossibleRun(y, run)
    decreases |run|
  {
    run == [] || (Allocates(y, run[0]) && NeverFails(SysStep(y, run[0]), run[1..]))
  }

  lemma OrderlyAllocates(y: Sys, num: nat, e: SysEvent)
    requires Provisioned(y, num) && Possible(y, e) && Orderly(y, e, num)
    ensures Allocates(y, e)
  {
    hide Provisioned, Flushed, AtInsertion, Inserts;
    if e.Ampdu? && e.to.Session? && Inserts(Flushed(y.Rx(e.to.i), e.clk), e.f) {
      AllocationSucceeds(y, num, e.to.i, e.f, e.clk);
    }
  }

  /** Over every run of any number of sessions: as long as no EAPOL frame is out of order and the grants
      together fit the pool, no allocation of the run fails and every list stays inside its window. */
  lemma {:induction false} PoolSuffices(y: Sys, num: nat, run: seq<SysEvent>)
    requires Provisioned(y, num) && PossibleRun(y, run) && OrderlyRun(y, num, run)
    ensures NeverFails(y, run) && Provisioned(SysRun(y, run), num)
    decreases |run|
  {
    hide Provisioned, Orderly, Allocates, SysStep;
    if run == [] {
    } else {
      OrderlyAllocates(y, num, run[0]);
      StaysProvisioned(y, num, run[0]);
      PoolSuffices(SysStep(y, run[0]), num, run[1..]);
    }
  }
}
