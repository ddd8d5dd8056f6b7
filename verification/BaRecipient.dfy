/** The recipient side of the Block Ack session tables: BARecEntry, numAsRecipient, and the
    BARecWcidArray and RXBAbitmap of every station. */
module BaRecipient {

  import opened BaStations

  datatype Status = NONE | USED | HandleRes | Accept

  // The fields of BA_REC_ENTRY that the tables speak about.
  datatype Slot = Slot(status: Status, wcid: nat, tid: nat, win: nat)

  datatype Table = Table(slots: seq<Slot>, count: int, stations: Stations)

  predicate WellFormed(t: Table) {
    2 <= |t.slots| && Sized(t.stations)
  }

  // Every index the tables hold can be followed.
  ghost predicate InBounds(t: Table)
    requires WellFormed(t)
  {
    && (forall i :: 0 <= i < |t.slots| && t.slots[i].status != NONE ==>
          IsKey(t.stations, t.slots[i].wcid, t.slots[i].tid))
    && (forall w: nat, tid: nat :: IsKey(t.stations, w, tid) ==> Link(t.stations, w, tid) < |t.slots|)
  }

  // The number of slots from index i on that are in use.
  function InUse(slots: seq<Slot>, i: nat): nat
    requires i <= |slots|
    decreases |slots| - i
  {
    if i == |slots| then 0 else (if slots[i].status == NONE then 0 else 1) + InUse(slots, i + 1)
  }

  // The first unused slot from index i on, or the length of the table.
  function FirstFree(slots: seq<Slot>, i: nat): (k: nat)
    requires i <= |slots|
    ensures i <= k <= |slots| && (k < |slots| ==> slots[k].status == NONE)
    ensures forall j :: i <= j < k ==> slots[j].status != NONE
    decreases |slots| - i
  {
    if i == |slots| || slots[i].status == NONE then i else FirstFree(slots, i + 1)
  }

  /** What BATableAllocRecEntry gives its caller: nothing, a slot with its index, or, when the search
      runs to the end, the last slot of the table with the index left as it was. */
  datatype Allocation = Refused | Found(i: nat) | Overrun

  function AllocSlot(t: Table): (Table, Allocation)
    requires WellFormed(t)
  {
    if t.count >= |t.slots| - 1 then (t, Refused)
    else
      var k := FirstFree(t.slots, 1);
      if k < |t.slots| then
        (t.(slots := t.slots[k := t.slots[k].(status := USED)], count := t.count + 1), Found(k))
      else (t, Overrun)
  }

  // BARecSessionAdd: grant the session (w, tid) a window.
  function Add(t: Table, w: nat, tid: nat, win: nat): (r: (Table, bool))
    requires WellFormed(t) && IsKey(t.stations, w, tid) && Link(t.stations, w, tid) < |t.slots|
    ensures WellFormed(r.0) && |r.0.slots| == |t.slots| && |r.0.stations| == |t.stations|
  {
    var i := Link(t.stations, w, tid);
    if i != 0 then (Fill(t, i, i, w, tid, win), true)
    else
      var (u, a) := AllocSlot(t);
      match a
      case Refused => (t, false)
      case Found(k) => (Fill(u, k, k, w, tid, win), true)
      case Overrun => (Fill(u, |u.slots| - 1, 0, w, tid, win), true)
  }

  // Start the session in slot i and enter idx as its index.
  function Fill(t: Table, i: nat, idx: nat, w: nat, tid: nat, win: nat): (u: Table)
    requires WellFormed(t) && IsKey(t.stations, w, tid) && i < |t.slots|
    ensures WellFormed(u) && |u.slots| == |t.slots| && |u.stations| == |t.stations|
  {
    t.(slots := t.slots[i := Slot(Accept, w, tid, win)],
       stations := SetLink(SetBit(t.stations, w, tid, true), w, tid, idx))
  }

  // BATableFreeRecEntry
  function FreeSlot(t: Table, i: nat): (u: Table)
    requires WellFormed(t)
    requires 0 < i < |t.slots| && t.slots[i].status != NONE ==> IsKey(t.stations, t.slots[i].wcid, t.slots[i].tid)
    ensures WellFormed(u) && |u.slots| == |t.slots| && |u.stations| == |t.stations|
  {
    if i == 0 || i >= |t.slots| || t.slots[i].status == NONE then t
    else
      var s := t.slots[i];
      t.(slots := t.slots[i := s.(status := NONE)], count := t.count - 1,
         stations := SetLink(t.stations, s.wcid, s.tid, 0))
  }

  /** BARecSessionTearDown; sent says whether the DELBA frame, when one is to be sent, could be
      allocated. */
  function TearDown(t: Table, w: nat, tid: nat, passive: bool, sent: bool): (u: Table)
    requires WellFormed(t) && tid < NUM_OF_TID && InBounds(t)
    ensures WellFormed(u) && |u.slots| == |t.slots| && |u.stations| == |t.stations|
  {
    if w >= |t.stations| then t
    else
      var i := Link(t.stations, w, tid);
      if i == 0 then t
      else if t.slots[i].tid == tid && t.slots[i].status == Accept then
        if !passive && !sent then t
        else
          FreeSlot(t.(slots := t.slots[i := t.slots[i].(win := 0)],
                      stations := SetLink(SetBit(t.stations, w, t.slots[i].tid, false), w, tid, 0)), i)
      else FreeSlot(t, i)
  }

  // ---------- the invariant ----------

  // Every link leads to an accepted slot that points back.
  ghost predicate LinksLead(t: Table)
    requires WellFormed(t)
  {
    forall w: nat, tid: nat :: IsKey(t.stations, w, tid) && Link(t.stations, w, tid) != 0 ==>
      var i := Link(t.stations, w, tid);
      i < |t.slots| && t.slots[i].status == Accept && t.slots[i].wcid == w && t.slots[i].tid == tid
  }

  // Every slot in use is reached by its own link.
  ghost predicate SlotsLinked(t: Table)
    requires WellFormed(t)
  {
    forall i :: 1 <= i < |t.slots| && t.slots[i].status != NONE ==>
      IsKey(t.stations, t.slots[i].wcid, t.slots[i].tid) && Link(t.stations, t.slots[i].wcid, t.slots[i].tid) == i
  }

  ghost predicate BitsMatch(t: Table)
    requires WellFormed(t)
  {
    forall w: nat, tid: nat :: IsKey(t.stations, w, tid) ==>
      (Bit(t.stations, w, tid) <==> Link(t.stations, w, tid) != 0)
  }

  ghost predicate RecInv(t: Table)
    requires WellFormed(t)
  {
    && t.slots[0].status == NONE
    && t.count == InUse(t.slots, 1) && LinksLead(t) && SlotsLinked(t) && BitsMatch(t)
  }

  // ---------- counting ----------

  lemma {:induction false} InUseUpdate(slots: seq<Slot>, i: nat, k: nat, s: Slot)
    requires i <= k < |slots|
    ensures InUse(slots[k := s], i) ==
            InUse(slots, i) - (if slots[k].status == NONE then 0 else 1) + (if s.status == NONE then 0 else 1)
    decreases k - i
  {
    if i < k {
      InUseUpdate(slots, i + 1, k, s);
    } else {
      InUseBeyond(slots, i + 1, k, s);
    }
  }

  lemma {:induction false} InUseBeyond(slots: seq<Slot>, i: nat, k: nat, s: Slot)
    requires k < i <= |slots|
    ensures InUse(slots[k := s], i) == InUse(slots, i)
    decreases |slots| - i
  {
    if i < |slots| {
      InUseBeyond(slots, i + 1, k, s);
    }
  }

  lemma {:induction false} InUseFull(slots: seq<Slot>, i: nat)
    requires i <= |slots| && forall j :: i <= j < |slots| ==> slots[j].status != NONE
    ensures InUse(slots, i) == |slots| - i
    decreases |slots| - i
  {
    if i < |slots| {
      InUseFull(slots, i + 1);
    }
  }

  /** Whenever the guard on numAsRecipient passes, the search finds a slot. */
  lemma SearchFinds(t: Table)
    requires WellFormed(t) && t.count == InUse(t.slots, 1)
    ensures AllocSlot(t).1 != Overrun
    ensures AllocSlot(t).1 == Refused <==> forall i :: 1 <= i < |t.slots| ==> t.slots[i].status != NONE
  {
    var k := FirstFree(t.slots, 1);
    if k == |t.slots| {
      InUseFull(t.slots, 1);
    } else {
      InUseUpdate(t.slots, 1, k, Slot(USED, 0, 0, 0));
      InUseBound(t.slots[k := Slot(USED, 0, 0, 0)], 1);
    }
  }

  lemma {:induction false} InUseBound(slots: seq<Slot>, i: nat)
    requires i <= |slots|
    ensures InUse(slots, i) <= |slots| - i
    decreases |slots| - i
  {
    if i < |slots| {
      InUseBound(slots, i + 1);
    }
  }

  // ---------- the operations keep the invariant ----------

  // The invariant for every key but (w, tid) and every slot but i.
  ghost predicate Elsewhere(t: Table, w: nat, tid: nat, i: nat)
    requires WellFormed(t)
  {
    && (forall v: nat, d: nat :: IsKey(t.stations, v, d) && Other(v, d, w, tid) && Link(t.stations, v, d) != 0 ==>
          var j := Link(t.stations, v, d);
          j != i && j < |t.slots| && t.slots[j].status == Accept && t.slots[j].wcid == v && t.slots[j].tid == d)
    && (forall j :: 1 <= j < |t.slots| && j != i && t.slots[j].status != NONE ==>
          var s := t.slots[j];
          IsKey(t.stations, s.wcid, s.tid) && Other(s.wcid, s.tid, w, tid) && Link(t.stations, s.wcid, s.tid) == j)
    && (forall v: nat, d: nat :: IsKey(t.stations, v, d) && Other(v, d, w, tid) ==>
          (Bit(t.stations, v, d) <==> Link(t.stations, v, d) != 0))
  }

  lemma LinkedElsewhere(t: Table, w: nat, tid: nat)
    requires WellFormed(t) && RecInv(t) && IsKey(t.stations, w, tid) && Link(t.stations, w, tid) != 0
    ensures Elsewhere(t, w, tid, Link(t.stations, w, tid))
  {
  }

  lemma UnusedElsewhere(t: Table, w: nat, tid: nat, i: nat)
    requires WellFormed(t) && RecInv(t) && IsKey(t.stations, w, tid) && Link(t.stations, w, tid) == 0
    requires 1 <= i < |t.slots| && t.slots[i].status == NONE
    ensures Elsewhere(t, w, tid, i)
  {
  }

  // Changing slot i, its count and the entry of (w, tid) leaves the rest alone.
  predicate SameElsewhere(t: Table, u: Table, w: nat, tid: nat, i: nat)
    requires WellFormed(t) && WellFormed(u)
  {
    && |u.slots| == |t.slots| && |u.stations| == |t.stations|
    && (forall j :: 0 <= j < |t.slots| && j != i ==> u.slots[j] == t.slots[j])
    && (forall v: nat, d: nat :: v < |t.stations| && d < NUM_OF_TID && Other(v, d, w, tid) ==>
          Link(u.stations, v, d) == Link(t.stations, v, d) && Bit(u.stations, v, d) == Bit(t.stations, v, d))
  }

  lemma ElsewhereMoves(t: Table, u: Table, w: nat, tid: nat, i: nat)
    requires WellFormed(t) && WellFormed(u) && Elsewhere(t, w, tid, i) && SameElsewhere(t, u, w, tid, i)
    ensures Elsewhere(u, w, tid, i)
  {
    assert forall v: nat, d: nat :: IsKey(u.stations, v, d) <==> IsKey(t.stations, v, d);
  }

  lemma LiveInvariant(u: Table, w: nat, tid: nat, i: nat)
    requires WellFormed(u) && Elsewhere(u, w, tid, i) && IsKey(u.stations, w, tid) && 1 <= i < |u.slots|
    requires u.slots[i].status == Accept && u.slots[i].wcid == w && u.slots[i].tid == tid
    requires Link(u.stations, w, tid) == i && Bit(u.stations, w, tid) && u.count == InUse(u.slots, 1)
    requires u.slots[0].status == NONE
    ensures RecInv(u)
  {
  }

  lemma DeadInvariant(u: Table, w: nat, tid: nat, i: nat)
    requires WellFormed(u) && Elsewhere(u, w, tid, i) && IsKey(u.stations, w, tid) && 1 <= i < |u.slots|
    requires u.slots[i].status == NONE
    requires Link(u.stations, w, tid) == 0 && !Bit(u.stations, w, tid) && u.count == InUse(u.slots, 1)
    requires u.slots[0].status == NONE
    ensures RecInv(u)
  {
  }

  /** ADDBA keeps the tables consistent; it fails exactly when a new session finds the table full, and
      otherwise exactly this session is live, in a slot of its own, with the granted window. */
  lemma AddKeeps(t: Table, w: nat, tid: nat, win: nat, u: Table, ok: bool)
    requires WellFormed(t) && RecInv(t) && IsKey(t.stations, w, tid) && (u, ok) == Add(t, w, tid, win)
    ensures WellFormed(u) && RecInv(u)
    ensures !ok <==> Link(t.stations, w, tid) == 0 && t.count == |t.slots| - 1
    ensures !ok ==> u == t
    ensures ok ==> 1 <= Link(u.stations, w, tid) < |u.slots|
                   && u.slots[Link(u.stations, w, tid)] == Slot(Accept, w, tid, win)
                   && SameElsewhere(t, u, w, tid, Link(u.stations, w, tid))
  {
    SearchFinds(t);
    InUseBound(t.slots, 1);
    var i := Link(t.stations, w, tid);
    if i != 0 {
      LinkedElsewhere(t, w, tid);
      InUseUpdate(t.slots, 1, i, Slot(Accept, w, tid, win));
      ElsewhereMoves(t, u, w, tid, i);
      LiveInvariant(u, w, tid, i);
    } else if AllocSlot(t).1.Found? {
      var k := AllocSlot(t).1.i;
      UnusedElsewhere(t, w, tid, k);
      InUseUpdate(t.slots, 1, k, Slot(Accept, w, tid, win));
      assert u.slots == t.slots[k := Slot(Accept, w, tid, win)];
      ElsewhereMoves(t, u, w, tid, k);
      LiveInvariant(u, w, tid, k);
    }
  }

  /** DELBA, received or sent, keeps the tables consistent and ends exactly this session; it leaves
      everything as it was only when there is none, or its frame cannot be allocated. */
  lemma TearDownKeeps(t: Table, w: nat, tid: nat, passive: bool, sent: bool, u: Table)
    requires WellFormed(t) && RecInv(t) && InBounds(t) && tid < NUM_OF_TID && u == TearDown(t, w, tid, passive, sent)
    ensures WellFormed(u) && RecInv(u)
    ensures w >= |t.stations| || Link(t.stations, w, tid) == 0 || (!passive && !sent) ==> u == t
    ensures w < |t.stations| && Link(t.stations, w, tid) != 0 && (passive || sent) ==>
              && Link(u.stations, w, tid) == 0 && !Bit(u.stations, w, tid) && u.count == t.count - 1
              && u.slots[Link(t.stations, w, tid)].status == NONE
              && SameElsewhere(t, u, w, tid, Link(t.stations, w, tid))
  {
    if w < |t.stations| && Link(t.stations, w, tid) != 0 && (passive || sent) {
      var i := Link(t.stations, w, tid);
      LinkedElsewhere(t, w, tid);
      var s := t.slots[i].(win := 0, status := NONE);
      InUseUpdate(t.slots, 1, i, s);
      assert u.slots == t.slots[i := s];
      ElsewhereMoves(t, u, w, tid, i);
      DeadInvariant(u, w, tid, i);
    }
  }

  /** No two sessions share a slot. */
  lemma LinksInjective(t: Table, v: nat, d: nat, w: nat, tid: nat)
    requires WellFormed(t) && RecInv(t) && IsKey(t.stations, v, d) && IsKey(t.stations, w, tid)
    requires Link(t.stations, v, d) == Link(t.stations, w, tid) != 0
    ensures v == w && d == tid
  {
    assert t.slots[Link(t.stations, v, d)].wcid == v && t.slots[Link(t.stations, w, tid)].wcid == w;
  }

  lemma InvInBounds(t: Table)
    requires WellFormed(t) && RecInv(t)
    ensures InBounds(t)
  {
  }

  // ---------- runs ----------

  datatype Request = AddReq(w: nat, tid: nat, win: nat) | DelReq(w: nat, tid: nat, passive: bool, sent: bool)

  predicate Addressed(t: Table, r: Request) {
    match r
    case AddReq(w, tid, _) => IsKey(t.stations, w, tid)
    case DelReq(_, tid, _, _) => tid < NUM_OF_TID
  }

  // BATableInit, with every station's entries cleared.
  function Fresh(slots: nat, stations: nat): Table {
    Table(seq(slots, _ => Slot(NONE, 0, 0, 0)), 0, NoSessions(stations))
  }

  ghost function Serve(t: Table, r: Request): Table
    requires WellFormed(t) && InBounds(t) && Addressed(t, r)
  {
    match r
    case AddReq(w, tid, win) => Add(t, w, tid, win).0
    case DelReq(w, tid, passive, sent) => TearDown(t, w, tid, passive, sent)
  }

  // u is what some sequence of requests makes of t.
  ghost predicate Reachable(t: Table, run: seq<Request>, u: Table)
    requires WellFormed(t)
    decreases |run|
  {
    if run == [] then u == t
    else InBounds(t) && Addressed(t, run[0]) && WellFormed(Serve(t, run[0])) && Reachable(Serve(t, run[0]), run[1..], u)
  }

  lemma {:induction false} NoneInUse(slots: seq<Slot>, i: nat)
    requires i <= |slots| && forall j :: 0 <= j < |slots| ==> slots[j].status == NONE
    ensures InUse(slots, i) == 0
    decreases |slots| - i
  {
    if i < |slots| {
      NoneInUse(slots, i + 1);
    }
  }

  lemma FreshInv(slots: nat, stations: nat)
    requires 2 <= slots
    ensures WellFormed(Fresh(slots, stations)) && RecInv(Fresh(slots, stations))
  {
    NoneInUse(Fresh(slots, stations).slots, 1);
  }

  /** Over every sequence of ADDBA and DELBA the recipient tables stay consistent. */
  lemma {:induction false} ReachableInv(t: Table, run: seq<Request>, u: Table)
    requires WellFormed(t) && RecInv(t) && Reachable(t, run, u)
    ensures WellFormed(u) && RecInv(u)
    decreases |run|
  {
    if run == [] {
    } else {
      var t' := Serve(t, run[0]);
      match run[0] {
        case AddReq(w, tid, win) => AddKeeps(t, w, tid, win, t', Add(t, w, tid, win).1);
        case DelReq(w, tid, passive, sent) => TearDownKeeps(t, w, tid, passive, sent, t');
      }
      ReachableInv(t', run[1..], u);
    }
  }

  // From t0 to t the sessions of station w below tid whose DELBA could be sent have ended, and no other.
  ghost predicate EndedBelow(t0: Table, t: Table, w: nat, tid: nat, sent: seq<bool>)
    requires WellFormed(t0) && |sent| == NUM_OF_TID
  {
    && WellFormed(t) && RecInv(t) && |t.stations| == |t0.stations| && |t.slots| == |t0.slots|
    && forall v: nat, d: nat :: IsKey(t0.stations, v, d) ==>
         if v == w && d < tid && sent[d] then Link(t.stations, v, d) == 0 && !Bit(t.stations, v, d)
         else Link(t.stations, v, d) == Link(t0.stations, v, d) && Bit(t.stations, v, d) == Bit(t0.stations, v, d)
  }

  /** Ending the sessions of a station one TID after the other ends exactly those whose DELBA frame can
      be sent. */
  lemma EndsOneMore(t0: Table, t: Table, w: nat, tid: nat, sent: seq<bool>, u: Table)
    requires WellFormed(t0) && |sent| == NUM_OF_TID && EndedBelow(t0, t, w, tid, sent) && InBounds(t)
    requires tid < NUM_OF_TID && u == TearDown(t, w, tid, false, sent[tid])
    ensures EndedBelow(t0, u, w, tid + 1, sent)
  {
    TearDownKeeps(t, w, tid, false, sent[tid], u);
    assert BitsMatch(t);
    forall v: nat, d: nat | IsKey(t0.stations, v, d)
      ensures
        if v == w && d <= tid && sent[d] then Link(u.stations, v, d) == 0 && !Bit(u.stations, v, d)
        else Link(u.stations, v, d) == Link(t0.stations, v, d) && Bit(u.stations, v, d) == Bit(t0.stations, v, d)
    {
      if v != w || d != tid {
        assert Other(v, d, w, tid);
      }
    }
  }

  // ---------- the tables in place ----------

  class RecipientTable {
    const slots: array<Slot>
    const stations: array<Station>
    var count: int

    ghost function State(): Table
      reads this, slots, stations
    {
      Table(slots[..], count, stations[..])
    }

    // BATableInit
    constructor (numSlots: nat, numStations: nat)
      requires 2 <= numSlots
      ensures State() == Fresh(numSlots, numStations) && fresh(slots) && fresh(stations)
    {
      slots := new Slot[numSlots](_ => Slot(NONE, 0, 0, 0));
      stations := new Station[numStations](_ => Station(seq(NUM_OF_TID, _ => 0), seq(NUM_OF_TID, _ => false)));
      count := 0;
      new;
      assert State() == Fresh(numSlots, numStations);
    }

    // BATableAllocRecEntry: search from index 1 for an unused slot.
    method Alloc() returns (a: Allocation)
      requires WellFormed(State())
      modifies this, slots
      ensures (State(), a) == AllocSlot(old(State()))
    {
      if count >= slots.Length - 1 {
        return Refused;
      }
      var i := 1;
      while i < slots.Length
        invariant 1 <= i <= slots.Length && State() == old(State())
        invariant FirstFree(slots[..], 1) == FirstFree(slots[..], i)
      {
        if slots[i].status == NONE {
          count := count + 1;
          slots[i] := slots[i].(status := USED);
          return Found(i);
        }
        i := i + 1;
      }
      return Overrun;
    }

    method SetStation(w: nat, tid: nat, i: nat, b: bool)
      requires WellFormed(State()) && IsKey(State().stations, w, tid)
      modifies stations
      ensures State() == old(State()).(stations := SetLink(SetBit(old(State()).stations, w, tid, b), w, tid, i))
    {
      var s := stations[w];
      stations[w] := Station(s.link[tid := i], s.bits[tid := b]);
      assert stations[..] == SetLink(SetBit(old(stations[..]), w, tid, b), w, tid, i);
    }

    // BARecSessionAdd
    method Grant(w: nat, tid: nat, win: nat) returns (ok: bool)
      requires WellFormed(State()) && IsKey(State().stations, w, tid) && Link(State().stations, w, tid) < slots.Length
      modifies this, slots, stations
      ensures (State(), ok) == Add(old(State()), w, tid, win)
    {
      var idx, i := stations[w].link[tid], stations[w].link[tid];
      if idx == 0 {
        var a := Alloc();
        match a {
          case Refused => return false;
          case Found(k) => idx, i := k, k;
          case Overrun => idx, i := 0, slots.Length - 1;
        }
      }
      slots[i] := Slot(Accept, w, tid, win);
      SetStation(w, tid, idx, true);
      ok := true;
    }

    // BATableFreeRecEntry
    method Free(i: nat)
      requires WellFormed(State())
      requires 0 < i < slots.Length && slots[i].status != NONE ==> IsKey(State().stations, slots[i].wcid, slots[i].tid)
      modifies this, slots, stations
      ensures State() == FreeSlot(old(State()), i)
    {
      if i == 0 || i >= slots.Length {
        return;
      }
      var s := slots[i];
      if s.status != NONE {
        var m := stations[s.wcid];
        stations[s.wcid] := m.(link := m.link[s.tid := 0]);
        count := count - 1;
        slots[i] := s.(status := NONE);
      }
    }

    // BARecSessionTearDown
    method End(w: nat, tid: nat, passive: bool, sent: bool)
      requires WellFormed(State()) && tid < NUM_OF_TID && InBounds(State())
      modifies this, slots, stations
      ensures State() == TearDown(old(State()), w, tid, passive, sent)
    {
      if w >= stations.Length {
        return;
      }
      var i := stations[w].link[tid];
      if i == 0 {
        return;
      }
      assert i == Link(State().stations, w, tid);
      if slots[i].tid == tid && slots[i].status == Accept {
        if !passive && !sent {
          return;
        }
        slots[i] := slots[i].(win := 0);
        SetStation(w, tid, 0, false);
      }
      Free(i);
    }

    // The recipient half of BASessionTearDownALL; sent says which DELBA frames can be allocated.
    method EndAll(w: nat, sent: seq<bool>)
      requires WellFormed(State()) && RecInv(State()) && |sent| == NUM_OF_TID
      modifies this, slots, stations
      ensures EndedBelow(old(State()), State(), w, 8, sent)
    {
      var tid := 0;
      while tid < NUM_OF_TID
        invariant 0 <= tid <= NUM_OF_TID && EndedBelow(old(State()), State(), w, tid, sent)
      {
        ghost var t := State();
        InvInBounds(t);
        End(w, tid, false, sent[tid]);
        EndsOneMore(old(State()), t, w, tid, sent, State());
        tid := tid + 1;
      }
    }
  }
}
