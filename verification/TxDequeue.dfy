/** The software transmit queues of common/cmm_data.c: RTMPDeQueuePacket takes packets off the
    queues of the access categories, puts them together into transmit blocks, and hands the blocks to
    the hardware. */
module TxDequeue {

  const NUM_OF_TX_RING := 5
  const RX_BUFFER_AGGRESIZE := 3840
  const LENGTH_802_3 := 14
  const LENGTH_802_1Q := 4

  // The most packets a block can have.
  const MAX_BLOCK := 249

  type FrameType = bv8

  const TX_LEGACY_FRAME: FrameType := 0x02
  const TX_AMSDU_FRAME: FrameType := 0x08
  const TX_RALINK_FRAME: FrameType := 0x10

  // What the driver reads off a packet: control data, length and destination address.
  datatype Packet = Packet(id: nat, len: nat, da: seq<int>, mgmt: bool, mcast: bool, dhcp: bool, eapol: bool,
                           wai: bool, vlan: bool, llcSnap: bool)

  // Infrastructure station, or access point.
  datatype Mode = Mode(infra: bool, ap: bool)

  // What became of packets taken off a queue.
  datatype Outcome =
    | Transmit(kind: FrameType, packets: seq<Packet>)
    | Management(packet: Packet, sent: bool)
    | Dropped(packet: Packet)
  {
    function Taken(): seq<Packet> {
      match this
      case Transmit(_, ps) => ps
      case Management(p, _) => [p]
      case Dropped(p) => [p]
    }
  }

  // Everything the loop asks of its surroundings, answered anew at each tick.  Packets come in
  // from other threads at any tick, but not forever.
  datatype World = World(
    halted: nat -> bool,
    arrivals: seq<seq<Packet>>,
    hasTxDesc: nat -> bool,
    needQueueBack: nat -> bool,
    classify: (nat, Packet) -> FrameType,
    stale: (nat, Packet) -> bool,
    mgmtSent: nat -> bool)

  function Total(ps: seq<Packet>): (n: nat) {
    if ps == [] then 0 else Total(ps[..|ps| - 1]) + ps[|ps| - 1].len
  }

  function MinLen(p: Packet): nat {
    LENGTH_802_3 + (if p.vlan then LENGTH_802_1Q else if p.llcSnap then 8 else 0)
  }

  // Whether p may join a block that starts with first, its kind and size aside.
  predicate Joins(mode: Mode, first: Packet, p: Packet) {
    && !p.mcast && !p.dhcp && !p.eapol && !p.wai
    && MinLen(p) < p.len
    && ((mode.infra && !mode.ap) || (first.da == p.da && mode.ap))
  }

  // CanDoAggregateTransmit
  predicate CanDoAggregate(mode: Mode, p: Packet, kind: FrameType, block: seq<Packet>)
    requires block != []
  {
    && Joins(mode, block[0], p)
    && !(kind == TX_AMSDU_FRAME && Total(block) + p.len > RX_BUFFER_AGGRESIZE - 100)
    && !(kind == TX_RALINK_FRAME && |block| == 2)
  }

  // A data packet with less than an Ethernet header is freed before it reaches a queue.
  predicate Admitted(p: Packet) {
    p.mgmt || LENGTH_802_3 <= p.len
  }

  // ---------- what a block handed to the hardware must be ----------

  predicate WellBuilt(mode: Mode, o: Outcome) {
    o.Transmit? ==>
      && Joined(mode, o.packets)
      && (if o.kind == TX_RALINK_FRAME then |o.packets| == 2
          else if o.kind == TX_AMSDU_FRAME then
            |o.packets| >= 2 && Total(o.packets) <= RX_BUFFER_AGGRESIZE - 100
          else |o.packets| == 1)
  }

  predicate Joined(mode: Mode, ps: seq<Packet>) {
    ps != [] && LENGTH_802_3 <= ps[0].len && forall i :: 1 <= i < |ps| ==> Joins(mode, ps[0], ps[i])
  }

  // A block being filled.
  predicate Filling(mode: Mode, kind: FrameType, ps: seq<Packet>) {
    && Joined(mode, ps)
    && (kind == TX_RALINK_FRAME ==> |ps| <= 2)
    && (kind == TX_AMSDU_FRAME && |ps| >= 2 ==> Total(ps) <= RX_BUFFER_AGGRESIZE - 100)
  }

  lemma FillingGrows(mode: Mode, kind: FrameType, ps: seq<Packet>, p: Packet)
    requires Filling(mode, kind, ps) && CanDoAggregate(mode, p, kind, ps)
    ensures Filling(mode, kind, ps + [p])
  {
    assert (ps + [p])[..|ps|] == ps;
  }

  /** Packets that join are longer than an Ethernet header. */
  lemma {:induction false} JoinedIsLong(mode: Mode, ps: seq<Packet>)
    requires Joined(mode, ps)
    ensures LENGTH_802_3 + 15 * (|ps| - 1) <= Total(ps)
  {
    if |ps| == 1 {
    } else {
      JoinedIsLong(mode, ps[..|ps| - 1]);
      assert Joins(mode, ps[0], ps[|ps| - 1]);
    }
  }

  /** So a block within the length limit has at most 249 packets. */
  lemma BlockCount(mode: Mode, o: Outcome)
    requires WellBuilt(mode, o)
    ensures |o.Taken()| <= MAX_BLOCK
  {
    if o.Transmit? {
      JoinedIsLong(mode, o.packets);
    }
  }

  // n packets with one byte of payload each.
  function Smallest(n: nat): (ps: seq<Packet>)
    ensures |ps| == n
    ensures forall i :: 0 <= i < n ==> ps[i] == Packet(0, 15, [], false, false, false, false, false, false, false)
  {
    if n == 0 then [] else Smallest(n - 1) + [Packet(0, 15, [], false, false, false, false, false, false, false)]
  }

  lemma {:induction false} SmallestTotal(n: nat)
    ensures Total(Smallest(n)) == 15 * n
  {
    if n == 0 {
    } else {
      SmallestTotal(n - 1);
      assert Smallest(n)[..n - 1] == Smallest(n - 1);
    }
  }

  /** A count still below the limit, 8 bits wide, has room for every block if and only if the limit is
      at most 7. */
  lemma CountFitsIff(mode: Mode, max: nat)
    requires (mode.infra || mode.ap) && 0 < max
    ensures (forall o :: WellBuilt(mode, o) ==> max - 1 + |o.Taken()| < 0x100) <==> max <= 7
  {
    if max <= 7 {
      forall o | WellBuilt(mode, o) ensures max - 1 + |o.Taken()| < 0x100 {
        BlockCount(mode, o);
      }
    } else {
      SmallestTotal(MAX_BLOCK);
      var o := Transmit(TX_AMSDU_FRAME, Smallest(MAX_BLOCK));
      assert WellBuilt(mode, o) && 7 + |o.Taken()| == 0x100;
    }
  }

  // ---------- the packets of a log ----------

  function Flat(log: seq<Outcome>): seq<Packet> {
    if log == [] then [] else Flat(log[..|log| - 1]) + log[|log| - 1].Taken()
  }

  lemma FlatSnoc(log: seq<Outcome>, o: Outcome)
    ensures Flat(log + [o]) == Flat(log) + o.Taken()
  {
    assert (log + [o])[..|log|] == log;
  }

  // ---------- what becomes of a packet ----------

  // The kind a block goes out with: that of its first packet, but legacy if nothing joined it.
  function SentAs(kind: FrameType, n: nat): FrameType {
    if n == 1 && (kind == 0x10 || kind == 0x08) then 0x02 else kind
  }

  /** The outcome is the right one for the packet met at tick t: management frames go to the management
      ring, data to a station that has failed too often is dropped, and all other data is sent. */
  predicate Due(world: World, t: nat, o: Outcome) {
    match o
    case Management(p, sent) => p.mgmt && sent == world.mgmtSent(t)
    case Dropped(p) => !p.mgmt && world.stale(t, p)
    case Transmit(kind, ps) =>
      && ps != [] && !ps[0].mgmt && !world.stale(t, ps[0]) && world.hasTxDesc(t)
      && kind == SentAs(world.classify(t, ps[0]), |ps|)
  }

  predicate Right(mode: Mode, world: World, t: nat, o: Outcome) {
    WellBuilt(mode, o) && Due(world, t, o)
  }

  predicate AllRight(mode: Mode, world: World, ticks: seq<nat>, log: seq<Outcome>) {
    |ticks| == |log| && forall k :: 0 <= k < |log| ==> Right(mode, world, ticks[k], log[k])
  }

  predicate AllAdmitted(ps: seq<Packet>) {
    forall p :: p in ps ==> Admitted(p)
  }

  // ---------- one access category ----------

  class TxQueue {
    const mode: Mode
    const world: World
    var tick: nat
    var queue: seq<Packet>
    var log: seq<Outcome>
    ghost var ticks: seq<nat>
    ghost var offered: seq<Packet>

    /** Nothing is lost, doubled or reordered: what was taken off, in order, and what still waits are
        together what was put in; and every outcome was right at its tick. */
    ghost predicate Valid()
      reads this
    {
      && Flat(log) + queue == offered && AllRight(mode, world, ticks, log)
      && AllAdmitted(offered) && forall ps :: ps in world.arrivals ==> AllAdmitted(ps)
    }

    constructor (m: Mode, w: World)
      requires forall ps :: ps in w.arrivals ==> AllAdmitted(ps)
      ensures Valid() && log == [] && offered == [] && mode == m && world == w
    {
      mode, world, tick, queue, log, ticks, offered := m, w, 0, [], [], [], [];
    }

    method Insert(ps: seq<Packet>)
      requires Valid() && AllAdmitted(ps)
      modifies this`queue, this`offered
      ensures Valid() && offered == old(offered) + ps
    {
      queue := queue + ps;
      offered := offered + ps;
    }

    method Record(o: Outcome, ghost t: nat)
      requires Flat(log) + o.Taken() + queue == offered && AllRight(mode, world, ticks, log) && Right(mode, world, t, o)
      requires AllAdmitted(offered) && forall ps :: ps in world.arrivals ==> AllAdmitted(ps)
      modifies this`log, this`ticks
      ensures Valid() && log == old(log) + [o] && ticks == old(ticks) + [t]
    {
      hide Right, Flat;
      FlatSnoc(log, o);
      log := log + [o];
      ticks := ticks + [t];
    }

    // The inner loop: packets join the block while the queue, the hardware and the rules allow.
    method Aggregate(kind: FrameType, first: Packet) returns (block: seq<Packet>)
      requires (kind == TX_RALINK_FRAME || kind == TX_AMSDU_FRAME) && LENGTH_802_3 <= first.len
      modifies this`queue, this`tick
      ensures old(tick) <= tick
      ensures Filling(mode, kind, block) && block + queue == [first] + old(queue) && block != []
      ensures queue == [] || !world.hasTxDesc(tick) || !CanDoAggregate(mode, queue[0], kind, block)
    {
      hide CanDoAggregate, Filling;
      block := [first];
      FillingStarts(mode, kind, first);
      while true
        invariant old(tick) <= tick && Filling(mode, kind, block) && block != []
        invariant block + queue == [first] + old(queue)
        decreases |queue|
      {
        if queue == [] {
          break;
        }
        var p := queue[0];
        tick := tick + 1;
        if !world.hasTxDesc(tick) || !CanDoAggregate(mode, p, kind, block) {
          break;
        }
        FillingGrows(mode, kind, block, p);
        queue := queue[1..];
        block := block + [p];
      }
    }

    method NeedQueueBack(kind: FrameType) returns (back: bool)
      modifies this`tick
      ensures tick == old(tick) + 1
      ensures back <==> kind == TX_RALINK_FRAME && world.needQueueBack(tick)
    {
      tick := tick + 1;
      back := kind == TX_RALINK_FRAME && world.needQueueBack(tick);
    }

    lemma HeadAdmitted()
      requires Valid() && queue != [] && !queue[0].mgmt
      ensures LENGTH_802_3 <= queue[0].len
    {
      assert queue[0] == (Flat(log) + queue)[|Flat(log)|];
      assert queue[0] in offered;
    }

    /** The head of the queue becomes a transmit block, filled until the queue, the hardware or the rules
        stop it, or, if it is for a Ralink block and the hardware wants it back, goes back to the head: then
        nothing has changed. */
    method TakeBlock() returns (n: nat)
      requires Valid() && queue != [] && !queue[0].mgmt && !world.stale(tick, queue[0]) && world.hasTxDesc(tick)
      modifies this`queue, this`tick, this`log, this`ticks
      ensures old(tick) <= tick
      ensures Valid() && n <= MAX_BLOCK && n + |queue| == |old(queue)|
      ensures n == 0 <==>
        && world.classify(old(tick), old(queue)[0]) == 0x10
        && (world.needQueueBack(old(tick) + 1) || world.needQueueBack(old(tick) + 2))
      ensures n == 0 ==> queue == old(queue) && log == old(log) && ticks == old(ticks) && world.needQueueBack(tick)
      ensures n > 0 ==>
        && |log| == |old(log)| + 1 && log == old(log) + [log[|old(log)|]] && ticks == old(ticks) + [old(tick)]
        && |log[|old(log)|].Taken()| == n
      ensures
        var kind := world.classify(old(tick), old(queue)[0]);
        n > 0 && (kind == 0x10 || kind == 0x08) ==>
          || queue == [] || !world.hasTxDesc(tick)
          || !CanDoAggregate(mode, queue[0], kind, old(queue)[..n])
    {
      hide Right, WellBuilt, Filling, Flat, CanDoAggregate, AllAdmitted, AllRight;
      HeadAdmitted();
      ghost var t := tick;
      var p := queue[0];
      var kind := world.classify(tick, p);
      ghost var k := kind;
      queue := queue[1..];
      assert [p] + queue == old(queue);
      var back := NeedQueueBack(kind);
      if kind & (TX_RALINK_FRAME | TX_AMSDU_FRAME) != 0 && back {
        queue := [p] + queue;
        return 0;
      }
      var block := [p];
      if kind == TX_RALINK_FRAME || kind == TX_AMSDU_FRAME {
        back := NeedQueueBack(kind);
        if back {
          queue := [p] + queue;
          return 0;
        }
        block := Aggregate(kind, p);
        assert old(queue)[..|block|] == block;
        FillingNonEmpty(mode, kind, block);
        if |block| == 1 {
          kind := TX_LEGACY_FRAME;
        }
        FilledIsWellBuilt(mode, k, kind, block);
      } else {
        SingleIsWellBuilt(mode, kind, p);
      }
      n := |block|;
      assert block[0] == p;
      BlockCount(mode, Transmit(kind, block));
      SentIsRight(mode, world, t, kind, block);
      assert Flat(log) + block + queue == Flat(log) + (block + queue);
      Record(Transmit(kind, block), t);
    }

    // One packet off the head, on its own.
    method TakeOne(o: Outcome)
      requires Valid() && queue != [] && o.Taken() == [queue[0]] && !o.Transmit? && Due(world, tick, o)
      modifies this`queue, this`log, this`ticks
      ensures Valid() && log == old(log) + [o] && ticks == old(ticks) + [tick] && 1 + |queue| == |old(queue)|
    {
      hide Flat;
      assert Flat(log) + [queue[0]] + queue[1..] == Flat(log) + queue;
      queue := queue[1..];
      Record(o, tick);
    }

    /** One pass of the loop: the number of packets taken off, with the outcome that is right for the head
        of the queue, or 0 when there is no descriptor or the head went back. */
    method TakeHead() returns (n: nat)
      requires Valid() && queue != []
      modifies this`queue, this`tick, this`log, this`ticks
      ensures Valid() && old(tick) <= tick && n <= MAX_BLOCK && n + |queue| == |old(queue)|
      ensures |Flat(log)| == |old(Flat(log))| + n
      ensures n > 0 ==>
        |log| == |old(log)| + 1 && log == old(log) + [log[|old(log)|]] && ticks == old(ticks) + [old(tick)]
      ensures n == 0 ==>
        && queue == old(queue) && log == old(log) && ticks == old(ticks)
        && !queue[0].mgmt && !world.stale(old(tick), queue[0])
        && (!world.hasTxDesc(tick) || world.needQueueBack(tick))
    {
      hide Right, Flat, Outcome.Taken;
      var p := queue[0];
      ghost var log0 := log;
      if p.mgmt {
        n := 1;
        TakenOne(p, world.mgmtSent(tick));
        TakeOne(Management(p, world.mgmtSent(tick)));
        FlatSnoc(log0, Management(p, world.mgmtSent(tick)));
      } else if world.stale(tick, p) {
        n := 1;
        TakenOne(p, false);
        TakeOne(Dropped(p));
        FlatSnoc(log0, Dropped(p));
      } else if !world.hasTxDesc(tick) {
        n := 0;
      } else {
        n := TakeBlock();
        if n > 0 {
          FlatSnoc(log0, log[|log0|]);
        }
      }
    }

    /** The dequeue loop of one access category.  It ends, and if it was told to take at most 7
        packets the 8-bit count does not wrap: then it takes at most one full block too many, and it
        stops short of max only for an empty queue, a halt, or hardware without room. */
    method Dequeue(max: nat) returns (halted: bool)
      requires Valid()
      modifies this
      ensures Valid() && old(offered) <= offered && old(log) <= log && old(ticks) <= ticks
      ensures forall k :: |old(log)| <= k < |log| ==> old(tick) <= ticks[k]
      ensures world.halted(old(tick)) || max == 0 ==> log == old(log)
      ensures max <= 7 ==> |Flat(log)| <= |old(Flat(log))| + max + MAX_BLOCK - 1
      ensures halted ==> world.halted(tick)
      ensures !halted ==> Rested(this, |old(Flat(log))|, max)
      ensures !halted && max <= 7 ==>
        || queue == [] || |old(Flat(log))| + max <= |Flat(log)|
        || !world.hasTxDesc(tick) || world.needQueueBack(tick)
    {
      hide Right, Flat, AllAdmitted;
      var count := 0;
      ghost var taken: nat := 0;
      while true
        invariant Valid() && old(offered) <= offered && old(log) <= log && old(ticks) <= ticks && old(tick) <= tick
        invariant forall k :: |old(log)| <= k < |log| ==> old(tick) <= ticks[k]
        invariant world.halted(old(tick)) || max == 0 ==> log == old(log) && tick == old(tick)
        invariant count == Low8(taken) && |Flat(log)| == |old(Flat(log))| + taken
        invariant max <= 7 ==> taken <= max + MAX_BLOCK - 1
        decreases if tick < |world.arrivals| then |world.arrivals| - tick else 0, |queue|
      {
        if world.halted(tick) {
          return true;
        }
        if count >= max || queue == [] {
          break;
        }
        var n := TakeHead();
        if n == 0 {
          break;
        }
        CountAdds(taken, n);
        count := (count + n) % 0x100;
        taken := taken + n;
        if tick < |world.arrivals| {
          Insert(world.arrivals[tick]);
        }
        tick := tick + 1;
      }
      halted := false;
    }
  }

  lemma SentIsRight(mode: Mode, world: World, t: nat, kind: FrameType, ps: seq<Packet>)
    requires WellBuilt(mode, Transmit(kind, ps)) && ps != [] && !ps[0].mgmt
    requires !world.stale(t, ps[0]) && world.hasTxDesc(t) && kind == SentAs(world.classify(t, ps[0]), |ps|)
    ensures Right(mode, world, t, Transmit(kind, ps))
  {
  }

  /** In a world where no station fails, whatever is taken off a queue is sent. */
  lemma NothingDropped(q: TxQueue)
    requires q.Valid() && forall t, p :: !q.world.stale(t, p)
    ensures forall k :: 0 <= k < |q.log| ==> !q.log[k].Dropped?
  {
    forall k | 0 <= k < |q.log| ensures !q.log[k].Dropped? {
      assert Right(q.mode, q.world, q.ticks[k], q.log[k]);
    }
  }

  /** CanDoAggregateTransmit in numbers, and the packets that get into a queue. */
  lemma CanDoAggregateMeans(mode: Mode, p: Packet, kind: FrameType, block: seq<Packet>)
    requires block != []
    ensures CanDoAggregate(mode, p, kind, block) ==>
      && !p.mcast && !p.dhcp && !p.eapol && !p.wai
      && p.len >= 15 && (p.vlan ==> p.len >= 19) && (!p.vlan && p.llcSnap ==> p.len >= 23)
      && (kind == 0x08 ==> Total(block) + p.len <= 3740) && (kind == 0x10 ==> |block| != 2)
      && (mode.ap ==> p.da == block[0].da) && (!mode.ap ==> mode.infra)
    ensures
      (&& !p.mcast && !p.dhcp && !p.eapol && !p.wai && p.len >= (if p.vlan then 19 else if p.llcSnap then 23 else 15)
       && (kind != 0x08 || Total(block) + p.len <= 3740) && (kind != 0x10 || |block| != 2)
       && (if mode.ap then p.da == block[0].da else mode.infra)) ==>
      CanDoAggregate(mode, p, kind, block)
    ensures Admitted(p) <==> p.mgmt || p.len >= 14
  {
  }

  /** What a transmit block is, in numbers. */
  lemma WellBuiltMeans(mode: Mode, kind: FrameType, ps: seq<Packet>)
    requires WellBuilt(mode, Transmit(kind, ps))
    ensures |ps| >= 1 && (kind == 0x10 ==> |ps| == 2) && (kind == 0x08 ==> |ps| >= 2 && Total(ps) <= 3740)
    ensures kind != 0x10 && kind != 0x08 ==> |ps| == 1
    ensures forall i :: 1 <= i < |ps| ==> !ps[i].mcast && !ps[i].dhcp && !ps[i].eapol && !ps[i].wai && ps[i].len >= 15
  {
  }

  // The count of packets taken, kept in 8 bits.
  function Low8(taken: nat): (c: nat)
    ensures taken < 0x100 ==> c == taken
  {
    taken % 0x100
  }

  lemma CountAdds(taken: nat, n: nat)
    ensures (Low8(taken) + n) % 0x100 == Low8(taken + n)
  {
  }

  lemma TakenOne(p: Packet, sent: bool)
    ensures Management(p, sent).Taken() == [p] && Dropped(p).Taken() == [p]
  {
  }

  lemma FillingStarts(mode: Mode, kind: FrameType, p: Packet)
    requires LENGTH_802_3 <= p.len
    ensures Filling(mode, kind, [p])
  {
  }

  lemma FillingNonEmpty(mode: Mode, kind: FrameType, ps: seq<Packet>)
    requires Filling(mode, kind, ps)
    ensures ps != []
  {
  }

  lemma SingleIsWellBuilt(mode: Mode, kind: FrameType, p: Packet)
    requires kind != TX_RALINK_FRAME && kind != TX_AMSDU_FRAME && LENGTH_802_3 <= p.len
    ensures WellBuilt(mode, Transmit(kind, [p]))
  {
  }

  lemma FilledIsWellBuilt(mode: Mode, kind: FrameType, kind': FrameType, ps: seq<Packet>)
    requires Filling(mode, kind, ps) && (kind == TX_RALINK_FRAME || kind == TX_AMSDU_FRAME)
    requires kind' == if |ps| == 1 then TX_LEGACY_FRAME else kind
    ensures WellBuilt(mode, Transmit(kind', ps))
  {
  }

  ghost predicate Distinct(queues: seq<TxQueue>) {
    forall i, j :: 0 <= i < j < |queues| ==> queues[i] != queues[j]
  }

  // Which categories a call is for: one, or the four with data.
  predicate Addressed(qIdx: nat, k: nat) {
    if qIdx == 5 then k <= 3 else k == qIdx
  }

  // The loop over q, which had taken taken0 packets, has run until it had to stop.
  ghost predicate Rested(q: TxQueue, taken0: nat, max: nat)
    reads q
  {
    || q.queue == [] || max <= (|Flat(q.log)| - taken0) % 0x100
    || !q.world.hasTxDesc(q.tick) || q.world.needQueueBack(q.tick)
  }

  /** RTMPDeQueuePacket over one access category or, from the highest to the lowest, over all four;
      a category whose dequeue is already running is passed over. Every other category addressed is served
      until it has to stop, unless the adapter halts. */
  method DequeuePackets(queues: seq<TxQueue>, qIdx: nat, max: nat, running: seq<bool>) returns (halted: bool)
    requires |queues| == |running| == NUM_OF_TX_RING && qIdx <= NUM_OF_TX_RING && Distinct(queues)
    requires forall k :: 0 <= k < |queues| ==> queues[k].Valid()
    modifies queues
    ensures forall k :: 0 <= k < |queues| ==>
      && queues[k].Valid() && old(queues[k].offered) <= queues[k].offered && old(queues[k].log) <= queues[k].log
    ensures forall k :: 0 <= k < |queues| && (running[k] || !Addressed(qIdx, k)) ==> unchanged(queues[k])
    ensures halted ==> exists k :: 0 <= k < |queues| && queues[k].world.halted(queues[k].tick)
    ensures !halted ==> forall k :: 0 <= k < |queues| && Addressed(qIdx, k) && !running[k] ==>
      Rested(queues[k], |old(Flat(queues[k].log))|, max)
  {
    hide Flat, TxQueue.Valid, Rested;
    var s, e := qIdx, qIdx;
    if qIdx == NUM_OF_TX_RING {
      s, e := 3, 0;
    }
    var i: int := s;
    while i >= e
      invariant e - 1 <= i <= s
      invariant forall k :: 0 <= k < |queues| ==>
        && queues[k].Valid() && old(queues[k].offered) <= queues[k].offered && old(queues[k].log) <= queues[k].log
      invariant forall k :: 0 <= k < |queues| && (running[k] || !(i < k <= s)) ==> unchanged(queues[k])
      invariant forall k :: i < k <= s && !running[k] ==> Rested(queues[k], |old(Flat(queues[k].log))|, max)
    {
      if !running[i] {
        halted := queues[i].Dequeue(max);
        if halted {
          return;
        }
      }
      i := i - 1;
    }
    halted := false;
  }
}
