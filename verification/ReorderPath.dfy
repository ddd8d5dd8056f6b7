/** The receive path of one session as the driver runs it: fields and linked lists changed in place,
    each routine proved to do to them what its function in Reorder does to the values. */
module ReorderPath {
  import opened Common
  import opened SeqNum
  import opened Reorder
  import opened ReorderList

  lemma ReleaseMore(s: Rx, n: nat)
    requires n < |s.e.q|
    ensures Release(Release(s, n), 1) == Release(s, n + 1)
  {
    assert s.e.q[n..][1..] == s.e.q[n + 1..];
    assert s.e.up + s.e.q[..n] + s.e.q[n..][..1] == s.e.up + s.e.q[..n + 1];
  }

  lemma InOrderUnfold(q: seq<Mpdu>, n: nat, x: int)
    requires n <= |q|
    ensures n == |q| || !StepOne(q[n].sn, x) ==> InOrderCount(q[n..], x) == 0
    ensures n < |q| && StepOne(q[n].sn, x) ==> InOrderCount(q[n..], x) == 1 + InOrderCount(q[n + 1..], q[n].sn)
  {
    if n < |q| {
      assert q[n..][1..] == q[n + 1..];
    }
  }

  lemma ReleaseNone(s: Rx)
    ensures Release(s, 0) == s
  {
    assert s.e.q[0..] == s.e.q && s.e.up + s.e.q[..0] == s.e.up;
  }

  // The queueing branch once its block has been taken off the free list.
  function Queued(a: Rx, f: RxFrame): Rx {
    match InsertSorted(a.e.q, f.Item())
    case Some(r) => a.(e := a.e.(q := r))
    case None => Rx(a.e.(freed := a.e.freed + [f.Item()]), a.free + 1, a.kept)
  }

  lemma QueuedIsEnqueue(s: Rx, f: RxFrame)
    requires Queues(s, f)
    ensures Reorder.Enqueue(s, f) == Queued(s.(free := s.free - 1), f)
  {
  }

  // Releasing up to x and making x the last number.
  function Moved(s: Rx, x: int): Rx {
    var t := IndicateLe(s, x);
    t.(e := t.e.(last := x))
  }

  lemma MovedIsEnqueue(s: Rx, a: Rx, f: RxFrame, u: Rx)
    requires !Queues(s, f) && a == if s.free > 0 then s.(free := s.free - 1, kept := s.kept + 1) else s
    requires u == Moved(a, f.sn)
    ensures Reorder.Enqueue(s, f) == u.(e := u.e.(up := u.e.up + [f.Item()]))
  {
  }

  lemma FlushOneForm(s: Rx, now: int, t: Rx)
    requires t == Moved(s, Mask(s.e.last + 1))
    ensures Reorder.FlushOne(s, now) == IndicateInOrder(t.(e := t.e.(at := now)), Mask(s.e.last + 1))
  {
  }

  // Case V in terms of the moves it makes.
  function Slid(s: Rx, f: RxFrame): Rx {
    var u := Enqueue(Moved(s, WinStart(s, f)), f);
    IndicateInOrder(u, u.e.last)
  }

  lemma SlidForm(s: Rx, f: RxFrame, t: Rx, u: Rx, v: Rx)
    requires t == Moved(s, WinStart(s, f)) && u == Reorder.Enqueue(t, f) && v == IndicateInOrder(u, u.e.last)
    ensures v == Slid(s, f)
  {
  }

  lemma SlidIsSort(s: Rx, f: RxFrame)
    requires s.e.last != RESET_RCV_SEQ && !StepOne(f.sn, s.e.last) && f.sn != s.e.last && !Smaller(f.sn, s.e.last)
    requires !Smaller(f.sn, Mask(s.e.last + s.e.win + 1))
    ensures Reorder.Sort(s, f) == Slid(s, f)
  {
  }

  lemma {:induction false} InsertedSeqs(q: seq<Mpdu>, m: Mpdu)
    requires IsSeq(m.sn) && forall i :: 0 <= i < |q| ==> IsSeq(q[i].sn)
    ensures InsertSorted(q, m).Some? ==>
              forall i :: 0 <= i < |InsertSorted(q, m).value| ==> IsSeq(InsertSorted(q, m).value[i].sn)
  {
    if q == [] {
    } else {
      InsertedSeqs(q[1..], m);
    }
  }

  class RxPath {
    var last: int
    var win: nat
    var at: int
    var drops: nat
    var up: seq<Mpdu>
    var freed: seq<Mpdu>
    ghost var kept: nat
    const list: BlockList
    const pool: BlockList

    ghost predicate Valid()
      reads list, pool, list.nodes, pool.nodes
    {
      && list != pool && list.Valid() && pool.Valid()
      && (forall i, j :: 0 <= i < |list.nodes| && 0 <= j < |pool.nodes| ==> list.nodes[i] != pool.nodes[j])
      && forall i :: 0 <= i < |list.contents| ==> IsSeq(list.contents[i].sn)
    }

    // The session and the pool as values.
    ghost function State(): Rx
      reads this, list, pool
    {
      Rx(Entry(last, win, list.contents, at, drops, up, freed), pool.qlen, kept)
    }

    ghost function Parts(): set<object>
      reads list, pool
    {
      {this, list, pool} + (set b | b in list.nodes) + (set b | b in pool.nodes)
    }

    // ba_reordering_resource_init, and the entry as BARecSessionAdd fills it in.
    constructor (num: nat, win: nat)
      ensures Valid() && fresh(Parts())
      ensures State() == Rx(Entry(RESET_RCV_SEQ, win, [], 0, 0, [], []), num, 0)
    {
      var freelist := new BlockList();
      list := new BlockList();
      pool := freelist;
      last, this.win, at, drops, up, freed, kept := RESET_RCV_SEQ, win, 0, 0, [], [], 0;
      var i := 0;
      while i < num
        invariant i <= num && freelist.Valid() && freelist.qlen == i
        invariant fresh(freelist) && forall b :: b in freelist.nodes ==> fresh(b)
        modifies freelist
      {
        var b := new Block();
        freelist.Push(b);
        i := i + 1;
      }
      new;
    }

    // ba_mpdu_blk_alloc: a zeroed block, or null when the pool is empty.
    method Alloc() returns (b: Block?)
      requires Valid()
      modifies pool, pool.nodes
      ensures Valid() && Parts() <= old(Parts())
      ensures b == null <==> old(pool.qlen) == 0
      ensures State() == old(State()).(free := if b == null then 0 else old(pool.qlen) - 1)
      ensures b != null ==> b in old(Parts()) && b !in list.nodes && b !in pool.nodes
    {
      b := pool.Pop();
      if b != null {
        b.sn, b.packet := 0, 0;
      }
    }

    // ba_mpdu_blk_free: the block goes back to the pool.
    method PutBack(b: Block)
      requires Valid() && b !in list.nodes && b !in pool.nodes
      modifies pool, b
      ensures Valid() && Parts() == old(Parts()) + {b}
      ensures State() == old(State()).(free := old(pool.qlen) + 1)
    {
      pool.Push(b);
    }

    method TakeHead() returns (b: Block)
      requires Valid() && list.contents != []
      modifies list, list.nodes
      ensures Valid() && b !in list.nodes && b !in pool.nodes && old(Parts()) == Parts() + {b}
      ensures Mpdu(b.sn, b.packet) == old(list.contents)[0] && list.contents == old(list.contents)[1..]
      ensures pool.qlen == old(pool.qlen)
    {
      b := list.Pop();
    }

    // Dequeue the head of the list, announce it and free its block.
    method ReleaseHead() returns (sn: int)
      requires Valid() && list.contents != []
      modifies Parts()
      ensures Valid() && Parts() <= old(Parts())
      ensures State() == Release(old(State()), 1) && sn == old(list.contents)[0].sn
      ensures list.contents == old(list.contents)[1..]
    {
      hide Valid, BlockList.Valid;
      var b := TakeHead();
      up := up + [Mpdu(b.sn, b.packet)];
      sn := b.sn;
      PutBack(b);
    }

    // ba_indicate_reordering_mpdus_in_order: the last number announced, or RESET_RCV_SEQ.
    method IndicateInOrder(x: int) returns (lastInd: int)
      requires Valid()
      modifies Parts()
      ensures Valid() && Parts() <= old(Parts())
      ensures var n := InOrderCount(old(list.contents), x);
              && State() == Release(old(State()), n)
              && lastInd == (if n == 0 then RESET_RCV_SEQ else old(list.contents)[n - 1].sn)
    {
      hide Release, InOrderCount, StepOne, BlockList.Valid;
      var start := x;
      lastInd := RESET_RCV_SEQ;
      ghost var s, n := State(), 0;
      ReleaseNone(s);
      assert s.e.q[0..] == s.e.q;
      while list.head != null
        invariant Valid() && Parts() <= old(Parts())
        invariant 0 <= n <= |s.e.q| && State() == Release(s, n) && list.contents == s.e.q[n..]
        invariant InOrderCount(s.e.q, x) == n + InOrderCount(s.e.q[n..], start)
        invariant start == if n == 0 then x else s.e.q[n - 1].sn
        invariant lastInd == if n == 0 then RESET_RCV_SEQ else start
        decreases |s.e.q| - n
      {
        list.HeadIs();
        InOrderUnfold(s.e.q, n, start);
        if !StepOne(list.head.sn, start) {
          break;
        }
        ReleaseMore(s, n);
        start := ReleaseHead();
        lastInd := start;
        assert s.e.q[n..][1..] == s.e.q[n + 1..];
        n := n + 1;
      }
      list.HeadIs();
      InOrderUnfold(s.e.q, n, start);
    }

    // ba_indicate_reordering_mpdus_le_seq
    method IndicateLe(x: int)
      requires Valid()
      modifies Parts()
      ensures Valid() && Parts() <= old(Parts())
      ensures State() == Reorder.IndicateLe(old(State()), x)
    {
      ghost var s, n := State(), 0;
      ReleaseNone(s);
      while list.head != null
        invariant Valid() && Parts() <= old(Parts())
        invariant 0 <= n <= |s.e.q| && State() == Release(s, n)
        invariant LeCount(s.e.q, x) == n + LeCount(s.e.q[n..], x)
        decreases |s.e.q| - n
      {
        if list.head.sn == x || Smaller(list.head.sn, x) {
          ReleaseMore(s, n);
          var sn := ReleaseHead();
          n := n + 1;
        } else {
          break;
        }
      }
    }

    // ba_refresh_reordering_mpdus: the last number follows every announcement and then is reset.
    method Refresh()
      requires Valid()
      modifies Parts()
      ensures Valid() && Parts() <= old(Parts())
      ensures State() == Reorder.Refresh(old(State()))
    {
      ghost var s, n := State(), 0;
      ReleaseNone(s);
      while list.qlen != 0
        invariant Valid() && Parts() <= old(Parts())
        invariant 0 <= n <= |s.e.q| && State() == (var t := Release(s, n); t.(e := t.e.(last := last)))
        decreases |s.e.q| - n
      {
        ReleaseMore(s, n);
        last := ReleaseHead();
        n := n + 1;
      }
      last := RESET_RCV_SEQ;
    }

    // The in-order drain with its caller's update of the last number.
    method Drain(x: int)
      requires Valid()
      modifies Parts()
      ensures Valid() && Parts() <= old(Parts())
      ensures State() == Reorder.IndicateInOrder(old(State()), x)
    {
      var lastInd := IndicateInOrder(x);
      if lastInd != RESET_RCV_SEQ {
        last := lastInd;
      }
    }

    // ba_flush_reordering_timeout_mpdus
    method FlushTimeout(clk: Clock)
      requires Valid()
      modifies Parts()
      ensures Valid() && Parts() <= old(Parts())
      ensures State() == Reorder.FlushTimeout(old(State()), clk)
    {
      hide Clock.After, Clock.PacketTimeout, Clock.FlushAllTimeout, Reorder.FlushOne, Reorder.Refresh, BlockList.Valid;
      list.HeadIs();
      if list.qlen <= 0 {
        return;
      }
      if clk.After(at + clk.FlushAllTimeout()) && list.qlen > 1 {
        Refresh();
        at := clk.now;
      } else if clk.After(at + clk.PacketTimeout()) && list.qlen > 0 {
        FlushOne(clk.now);
      }
    }

    // Release everything up to x and make x the last number.
    method MoveTo(x: int)
      requires Valid()
      modifies Parts()
      ensures Valid() && Parts() <= old(Parts())
      ensures State() == Moved(old(State()), x)
    {
      IndicateLe(x);
      last := x;
    }

    // The forced shift to the next number.
    method FlushOne(now: int)
      requires Valid()
      modifies Parts()
      ensures Valid() && Parts() <= old(Parts())
      ensures State() == Reorder.FlushOne(old(State()), now)
    {
      hide Reorder.FlushOne, Reorder.IndicateInOrder, Moved, Mask;
      var sequence := Mask(last + 1);
      MoveTo(sequence);
      FlushOneForm(old(State()), now, State());
      at := now;
      Drain(sequence);
    }

    // Insert a filled-in block into the list, unless its number is there already.
    method Place(b: Block) returns (ok: bool)
      requires Valid() && IsSeq(b.sn) && b !in list.nodes && b !in pool.nodes
      modifies list, list.nodes, b
      ensures Valid() && Parts() <= old(Parts()) + {b} && b.sn == old(b.sn) && b.packet == old(b.packet)
      ensures ok <==> InsertSorted(old(list.contents), Mpdu(b.sn, b.packet)).Some?
      ensures ok ==> InsertSorted(old(list.contents), Mpdu(b.sn, b.packet)) == Some(list.contents)
      ensures !ok ==> list.contents == old(list.contents) && b !in list.nodes
    {
      InsertedSeqs(list.contents, Mpdu(b.sn, b.packet));
      ok := list.Insert(b);
    }

    // The queueing branch of ba_enqueue_reordering_packet: fill the block in and insert it.
    method Queue(b: Block, f: RxFrame)
      requires Valid() && IsSeq(f.sn) && b !in list.nodes && b !in pool.nodes
      modifies Parts(), b
      ensures Valid() && Parts() <= old(Parts()) + {b}
      ensures State() == Queued(old(State()), f)
    {
      hide InsertSorted;
      b.sn, b.packet := f.sn, f.packet;
      var ok := Place(b);
      if !ok {
        hide Valid, BlockList.Valid;
        freed := freed + [f.Item()];
        PutBack(b);
      }
    }

    // ba_enqueue_reordering_packet
    method Enqueue(f: RxFrame)
      requires Valid() && IsSeq(f.sn)
      modifies Parts()
      ensures Valid() && Parts() <= old(Parts())
      ensures State() == Reorder.Enqueue(old(State()), f)
    {
      hide Moved, Queued, Reorder.Enqueue, InsertSorted, BlockList.Valid, Valid;
      var b := Alloc();
      if b != null && !f.eapol {
        QueuedIsEnqueue(old(State()), f);
        Queue(b, f);
      } else {
        if b != null {
          kept := kept + 1;
        }
        ghost var a := State();
        MoveTo(f.sn);
        MovedIsEnqueue(old(State()), a, f, State());
        up := up + [f.Item()];
      }
    }

    // Indicate_AMPDU_Packet for a frame of this session.
    method Indicate(f: RxFrame, clk: Clock)
      requires Valid() && IsSeq(f.sn)
      modifies Parts()
      ensures Valid() && Parts() <= old(Parts())
      ensures State() == Reorder.Arrive(old(State()), f, clk)
    {
      FlushTimeout(clk);
      at := clk.now;
      Sort(f);
    }

    // Its five cases, and the first frame after a reset.
    method Sort(f: RxFrame)
      requires Valid() && IsSeq(f.sn)
      modifies Parts()
      ensures Valid() && Parts() <= old(Parts())
      ensures State() == Reorder.Sort(old(State()), f)
    {
      if last == RESET_RCV_SEQ {
        Announce(f);
      } else if StepOne(f.sn, last) {
        Announce(f);
        Drain(f.sn);
      } else if f.sn == last {
        Drop(f);
      } else if Smaller(f.sn, last) {
        Drop(f);
      } else if Smaller(f.sn, Mask(last + win + 1)) {
        Enqueue(f);
      } else {
        SlidIsSort(State(), f);
        Slide(f);
      }
    }

    // Hand the frame up and make its number the last one.
    method Announce(f: RxFrame)
      modifies this`last, this`up
      ensures State() == Reorder.Announce(old(State()), f)
    {
      last := f.sn;
      up := up + [f.Item()];
    }

    method Drop(f: RxFrame)
      modifies this`drops, this`freed
      ensures State() == Reorder.Drop(old(State()), f)
    {
      drops := drops + 1;
      freed := freed + [f.Item()];
    }

    // Case V: the frame surpasses the window.
    method Slide(f: RxFrame)
      requires Valid() && IsSeq(f.sn)
      modifies Parts()
      ensures Valid() && Parts() <= old(Parts())
      ensures State() == Slid(old(State()), f)
    {
      var tmp := f.sn - win - 1;
      if tmp < 0 {
        tmp := MAXSEQ + 1 + tmp;
      }
      var winStart := Mask(tmp + 1);
      SlideTo(f, winStart);
    }

    method SlideTo(f: RxFrame, winStart: int)
      requires Valid() && IsSeq(f.sn) && winStart == WinStart(State(), f)
      modifies Parts()
      ensures Valid() && Parts() <= old(Parts())
      ensures State() == Slid(old(State()), f)
    {
      ghost var s := State();
      MoveTo(winStart);
      ghost var t := State();
      Enqueue(f);
      ghost var u := State();
      Drain(last);
      SlidForm(s, f, t, u, State());
    }

    // CntlEnqueueForRecv for this session.
    method BlockAckReq(start: int)
      requires Valid() && IsSeq(start)
      modifies Parts()
      ensures Valid() && Parts() <= old(Parts())
      ensures State() == Reorder.BlockAckReq(old(State()), start)
    {
      if Smaller(last, start) {
        IndicateLe(start);
        last := if start == 0 then MAXSEQ else start - 1;
      }
    }

    // BARecSessionIdleTimeout
    method IdleTimeout(clk: Clock)
      requires Valid()
      modifies Parts()
      ensures Valid() && Parts() <= old(Parts())
      ensures State() == Reorder.Idle(old(State()), clk)
    {
      if win > 0 && clk.After(at + REC_BA_SESSION_IDLE_TIMEOUT) {
        Refresh();
      }
    }

    // BARecSessionAdd for a session that exists.
    method AddBa(bufSize: nat, limit: nat)
      requires Valid() && limit <= MAX_WIN
      modifies Parts()
      ensures Valid() && Parts() <= old(Parts())
      ensures State() == Reorder.AddBa(old(State()), GrantedWin(bufSize, limit))
    {
      var size := bufSize % 256;
      var granted := if size < limit then size else limit;
      if granted == 0 {
        granted := 64;
      }
      Refresh();
      win := granted;
      last := RESET_RCV_SEQ;
    }

    // BARecSessionTearDown of an accepted session.
    method DelBa()
      requires Valid()
      modifies Parts()
      ensures Valid() && Parts() <= old(Parts())
      ensures State() == Reorder.DelBa(old(State()))
    {
      Refresh();
      last := RESET_RCV_SEQ;
      win := 0;
    }
  }
}
