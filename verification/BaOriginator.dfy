/** The originator side of the Block Ack session tables: BAOriEntry with its setup timers,
    numAsOriginator, numDoneOriginator, and the BAOriWcidArray and TXBAbitmap of every station. */
module BaOriginator {
  import opened BaStations

  const ORI_SESSION_MAX_RETRY := 8

  datatype Status = NONE | USED | WaitRes | Done {
    // The enumeration's order, from NONE up to Done.
    function Rank(): nat {
      match this case NONE => 0 case USED => 1 case WaitRes => 2 case Done => 3
    }
  }

  // The fields of BA_ORI_ENTRY that the tables speak about; armed says whether its timer is pending.
  datatype Slot = Slot(status: Status, wcid: nat, tid: nat, token: nat, armed: bool)

  datatype Table = Table(slots: seq<Slot>, count: int, done: int, stations: Stations)

  predicate WellFormed(t: Table) {
    2 <= |t.slots| && Sized(t.stations)
  }

  // Every index the tables hold can be followed.
  ghost predicate InBounds(t: Table)
    requires WellFormed(t)
  {
    && (forall i :: 0 <= i < |t.slots| && t.slots[i].status != NONE ==>
          IsKey(t.stations, t.slots[i].wcid, t.slots[i].tid))
    && (forall w: nat, tid: nat :: IsKey(t.stations, w, tid) ==> Link(t.stations, w, tid) < |t.slots|)
  }

  // The number of slots from index i on whose rank is at least r: in use for 1, done for 3.
  function Ranked(slots: seq<Slot>, i: nat, r: nat): nat
    requires i <= |slots|
    decreases |slots| - i
  {
    if i == |slots| then 0 else (if slots[i].status.Rank() >= r then 1 else 0) + Ranked(slots, i + 1, r)
  }

  function FirstFree(slots: seq<Slot>, i: nat): (k: nat)
    requires i <= |slots|
    ensures i <= k <= |slots| && (k < |slots| ==> slots[k].status == NONE)
    ensures forall j :: i <= j < k ==> slots[j].status != NONE
    decreases |slots| - i
  {
    if i == |slots| || slots[i].status == NONE then i else FirstFree(slots, i + 1)
  }

  // BATableAllocOriEntry, with the same three outcomes as the recipient's.
  datatype Allocation = Refused | Found(i: nat) | Overrun

  function AllocSlot(t: Table): (Table, Allocation)
    requires WellFormed(t)
  {
    if t.count >= |t.slots| - 1 then (t, Refused)
    else
      var k := FirstFree(t.slots, 1);
      if k < |t.slots| then
        (t.(slots := t.slots[k := t.slots[k].(status := USED)], count := t.count + 1), Found(k))
      else (t, Overrun)
  }

  // The part of BAOriSessionSetUp after the slot is found: nothing if a setup is under way already.
  function Begin(t: Table, i: nat, idx: nat, w: nat, tid: nat): (u: Table)
    requires WellFormed(t) && IsKey(t.stations, w, tid) && i < |t.slots|
    ensures WellFormed(u) && |u.slots| == |t.slots| && |u.stations| == |t.stations|
  {
    if t.slots[i].status.Rank() >= WaitRes.Rank() then t
    else t.(slots := t.slots[i := Slot(WaitRes, w, tid, 1, true)], stations := SetLink(t.stations, w, tid, idx))
  }

  /** BAOriSessionSetUp; allowed stands for its tests of the configuration and of the station's rate. */
  function SetUp(t: Table, w: nat, tid: nat, allowed: bool): (u: Table)
    requires WellFormed(t) && IsKey(t.stations, w, tid) && Link(t.stations, w, tid) < |t.slots|
    ensures WellFormed(u) && |u.slots| == |t.slots| && |u.stations| == |t.stations|
  {
    if !allowed then t
    else
      var i := Link(t.stations, w, tid);
      if i != 0 then Begin(t, i, i, w, tid)
      else
        var (u, a) := AllocSlot(t);
        match a
        case Refused => t
        case Found(k) => Begin(u, k, k, w, tid)
        case Overrun => Begin(u, |u.slots| - 1, 0, w, tid)
  }

  // BAOriSessionAdd: the peer has accepted.
  function Answer(t: Table, w: nat, tid: nat): (u: Table)
    requires WellFormed(t) && IsKey(t.stations, w, tid) && Link(t.stations, w, tid) < |t.slots|
    ensures WellFormed(u) && |u.slots| == |t.slots| && |u.stations| == |t.stations|
  {
    var i := Link(t.stations, w, tid);
    if i != 0 && t.slots[i].tid == tid && t.slots[i].status == WaitRes then
      t.(slots := t.slots[i := t.slots[i].(status := Done, armed := false)], done := t.done + 1,
         stations := SetBit(t.stations, w, tid, true))
    else t
  }

  // BATableFreeOriEntry
  function FreeSlot(t: Table, i: nat): (u: Table)
    requires WellFormed(t)
    requires 0 < i < |t.slots| && t.slots[i].status != NONE ==> IsKey(t.stations, t.slots[i].wcid, t.slots[i].tid)
    ensures WellFormed(u) && |u.slots| == |t.slots| && |u.stations| == |t.stations|
  {
    if i == 0 || i >= |t.slots| || t.slots[i].status == NONE then t
    else
      var s := t.slots[i];
      var st := SetLink(t.stations, s.wcid, s.tid, 0);
      t.(slots := t.slots[i := s.(status := NONE, token := 0)], count := t.count - 1,
         done := if s.status == Done then t.done - 1 else t.done,
         stations := if s.status == Done then SetBit(st, s.wcid, s.tid, false) else st)
  }

  /** BAOriSessionTearDown; sent says whether the DELBA frame, when one is to be sent, could be
      allocated. */
  function TearDown(t: Table, w: nat, tid: nat, passive: bool, sent: bool): (u: Table)
    requires WellFormed(t) && tid < NUM_OF_TID && InBounds(t)
    ensures WellFormed(u) && |u.slots| == |t.slots| && |u.stations| == |t.stations|
  {
    if w >= |t.stations| then t
    else
      var i := Link(t.stations, w, tid);
      if i == 0 then t
      else if !passive && t.slots[i].tid == tid && t.slots[i].status == Done && !sent then t
      else FreeSlot(t.(slots := t.slots[i := t.slots[i].(armed := false)]), i)
  }

  // Whether the adapter can send: it cannot during a scan, and does nothing in monitor or test mode.
  datatype Air = Open | Scanning | Muted

  /** BAOriSessionSetupTimeout of slot i, whose timer has gone off: send another ADDBA request and set
      the timer again, put it off during a scan, or give the setup up. In monitor and test mode nothing
      is done, and the timer is not set again. The second result is the token sent, or 0. */
  function Fire(t: Table, i: nat, air: Air): (r: (Table, nat))
    requires WellFormed(t) && InBounds(t) && i < |t.slots| && IsKey(t.stations, t.slots[i].wcid, t.slots[i].tid)
    ensures WellFormed(r.0) && |r.0.slots| == |t.slots| && |r.0.stations| == |t.stations|
  {
    var s := t.slots[i];
    if air == Muted then (t.(slots := t.slots[i := s.(armed := false)]), 0)
    else if s.status == WaitRes && s.token < ORI_SESSION_MAX_RETRY then
      if air == Scanning then (t, 0)
      else (t.(slots := t.slots[i := s.(token := s.token + 1)]), s.token)
    else
      (FreeSlot(t.(slots := t.slots[i := s.(armed := false)]), Link(t.stations, s.wcid, s.tid)), 0)
  }

  // ---------- the invariant ----------

  ghost predicate SlotOk(t: Table, w: nat, tid: nat, i: nat)
    requires WellFormed(t)
  {
    && 1 <= i < |t.slots| && t.slots[i].wcid == w && t.slots[i].tid == tid
    && (t.slots[i].status == Done || (t.slots[i].status == WaitRes && 1 <= t.slots[i].token <= ORI_SESSION_MAX_RETRY))
  }

  // The entry of one station and TID, for the tables as a whole.
  ghost predicate KeyOk(t: Table, w: nat, tid: nat)
    requires WellFormed(t) && IsKey(t.stations, w, tid)
  {
    var i := Link(t.stations, w, tid);
    && (i != 0 ==> SlotOk(t, w, tid, i))
    && (Bit(t.stations, w, tid) <==> i != 0 && t.slots[i].status == Done)
  }

  ghost predicate SlotLinked(t: Table, i: nat)
    requires WellFormed(t) && i < |t.slots|
  {
    && (t.slots[i].armed ==> t.slots[i].status == WaitRes)
    && (t.slots[i].status != NONE ==>
          IsKey(t.stations, t.slots[i].wcid, t.slots[i].tid) && Link(t.stations, t.slots[i].wcid, t.slots[i].tid) == i)
  }

  ghost predicate OriInv(t: Table)
    requires WellFormed(t)
  {
    && t.slots[0].status == NONE
    && t.count == Ranked(t.slots, 1, 1) && t.done == Ranked(t.slots, 1, 3) == SetBits(t.stations)
    && (forall w: nat, tid: nat :: IsKey(t.stations, w, tid) ==> KeyOk(t, w, tid))
    && (forall i :: 1 <= i < |t.slots| ==> SlotLinked(t, i))
  }

  lemma InvInBounds(t: Table)
    requires WellFormed(t) && OriInv(t)
    ensures InBounds(t)
  {
    forall w: nat, tid: nat | IsKey(t.stations, w, tid) ensures Link(t.stations, w, tid) < |t.slots| {
      assert KeyOk(t, w, tid);
    }
    forall i | 0 <= i < |t.slots| && t.slots[i].status != NONE
      ensures IsKey(t.stations, t.slots[i].wcid, t.slots[i].tid)
    {
      assert SlotLinked(t, i);
    }
  }

  // ---------- counting ----------

  lemma {:induction false} RankedUpdate(slots: seq<Slot>, i: nat, k: nat, s: Slot, r: nat)
    requires i <= k < |slots|
    ensures Ranked(slots[k := s], i, r) ==
            Ranked(slots, i, r)
            - (if slots[k].status.Rank() >= r then 1 else 0) + (if s.status.Rank() >= r then 1 else 0)
    decreases k - i
  {
    if i < k {
      RankedUpdate(slots, i + 1, k, s, r);
    } else {
      RankedBeyond(slots, i + 1, k, s, r);
    }
  }

  lemma {:induction false} RankedBeyond(slots: seq<Slot>, i: nat, k: nat, s: Slot, r: nat)
    requires k < i <= |slots|
    ensures Ranked(slots[k := s], i, r) == Ranked(slots, i, r)
    decreases |slots| - i
  {
    if i < |slots| {
      RankedBeyond(slots, i + 1, k, s, r);
    }
  }

  lemma {:induction false} RankedFull(slots: seq<Slot>, i: nat)
    requires i <= |slots| && forall j :: i <= j < |slots| ==> slots[j].status != NONE
    ensures Ranked(slots, i, 1) == |slots| - i
    decreases |slots| - i
  {
    if i < |slots| {
      RankedFull(slots, i + 1);
    }
  }

  /** Whenever the guard on numAsOriginator passes, the search finds a slot. */
  lemma SearchFinds(t: Table)
    requires WellFormed(t) && t.count == Ranked(t.slots, 1, 1)
    ensures AllocSlot(t).1 != Overrun
  {
    if FirstFree(t.slots, 1) == |t.slots| {
      RankedFull(t.slots, 1);
    }
  }

  // ---------- the operations keep the invariant ----------

  // The invariant for every key but (w, tid) and every slot but i.
  ghost predicate Elsewhere(t: Table, w: nat, tid: nat, i: nat)
    requires WellFormed(t)
  {
    && (forall v: nat, d: nat :: IsKey(t.stations, v, d) && Other(v, d, w, tid) ==>
          KeyOk(t, v, d) && Link(t.stations, v, d) != i)
    && (forall j :: 1 <= j < |t.slots| && j != i ==>
          SlotLinked(t, j) && (t.slots[j].status != NONE ==> Other(t.slots[j].wcid, t.slots[j].tid, w, tid)))
  }

  // Only slot i and the entry of (w, tid) differ.
  predicate SameElsewhere(t: Table, u: Table, w: nat, tid: nat, i: nat)
    requires WellFormed(t) && WellFormed(u)
  {
    && |u.slots| == |t.slots| && |u.stations| == |t.stations|
    && (forall j :: 0 <= j < |t.slots| && j != i ==> u.slots[j] == t.slots[j])
    && (forall v: nat, d: nat :: v < |t.stations| && d < NUM_OF_TID && Other(v, d, w, tid) ==>
          Link(u.stations, v, d) == Link(t.stations, v, d) && Bit(u.stations, v, d) == Bit(t.stations, v, d))
  }

  lemma LinkedElsewhere(t: Table, w: nat, tid: nat)
    requires WellFormed(t) && OriInv(t) && IsKey(t.stations, w, tid) && Link(t.stations, w, tid) != 0
    ensures Elsewhere(t, w, tid, Link(t.stations, w, tid)) && SlotOk(t, w, tid, Link(t.stations, w, tid))
  {
    assert KeyOk(t, w, tid);
    var i := Link(t.stations, w, tid);
    forall v: nat, d: nat | IsKey(t.stations, v, d) && Other(v, d, w, tid)
      ensures KeyOk(t, v, d) && Link(t.stations, v, d) != i
    {
      assert KeyOk(t, v, d);
    }
    forall j | 1 <= j < |t.slots| && j != i
      ensures SlotLinked(t, j) && (t.slots[j].status != NONE ==> Other(t.slots[j].wcid, t.slots[j].tid, w, tid))
    {
      assert SlotLinked(t, j);
    }
  }

  lemma UnusedElsewhere(t: Table, w: nat, tid: nat, i: nat)
    requires WellFormed(t) && OriInv(t) && IsKey(t.stations, w, tid) && Link(t.stations, w, tid) == 0
    requires 1 <= i < |t.slots| && t.slots[i].status == NONE
    ensures Elsewhere(t, w, tid, i)
  {
    forall v: nat, d: nat | IsKey(t.stations, v, d) && Other(v, d, w, tid)
      ensures KeyOk(t, v, d) && Link(t.stations, v, d) != i
    {
      assert KeyOk(t, v, d);
    }
    forall j | 1 <= j < |t.slots| && j != i
      ensures SlotLinked(t, j) && (t.slots[j].status != NONE ==> Other(t.slots[j].wcid, t.slots[j].tid, w, tid))
    {
      assert SlotLinked(t, j);
    }
  }

  /** A change confined to slot i and (w, tid) keeps the invariant when it holds there and the counts
      follow. */
  lemma LocalChange(t: Table, u: Table, w: nat, tid: nat, i: nat)
    requires WellFormed(t) && WellFormed(u) && OriInv(t) && IsKey(t.stations, w, tid) && 1 <= i < |t.slots|
    requires Elsewhere(t, w, tid, i) && SameElsewhere(t, u, w, tid, i)
    requires KeyOk(u, w, tid) && SlotLinked(u, i)
    requires u.count ==
             t.count - (if t.slots[i].status.Rank() >= 1 then 1 else 0)
             + (if u.slots[i].status.Rank() >= 1 then 1 else 0)
    requires u.done ==
             t.done - (if t.slots[i].status.Rank() >= 3 then 1 else 0)
             + (if u.slots[i].status.Rank() >= 3 then 1 else 0)
    requires SetBits(u.stations) == u.done
    ensures OriInv(u)
  {
    assert u.slots == t.slots[i := u.slots[i]];
    RankedUpdate(t.slots, 1, i, u.slots[i], 1);
    RankedUpdate(t.slots, 1, i, u.slots[i], 3);
    forall v: nat, d: nat | IsKey(u.stations, v, d) ensures KeyOk(u, v, d) {
      if Other(v, d, w, tid) { assert IsKey(t.stations, v, d) && KeyOk(t, v, d); }
    }
    forall j | 1 <= j < |u.slots| ensures SlotLinked(u, j) {
      if j != i { assert SlotLinked(t, j); }
    }
  }

  /** Starting a setup: nothing changes when one is under way, established, not allowed or out of slots;
      otherwise a slot of its own waits for the answer with token 1 and its timer armed. */
  lemma SetUpKeeps(t: Table, w: nat, tid: nat, allowed: bool, u: Table)
    requires WellFormed(t) && OriInv(t) && InBounds(t) && IsKey(t.stations, w, tid) && u == SetUp(t, w, tid, allowed)
    ensures OriInv(u)
    ensures u == t <==> !allowed || Link(t.stations, w, tid) != 0 || t.count >= |t.slots| - 1
    ensures u != t ==>
              var k := Link(u.stations, w, tid);
              1 <= k < |u.slots| && u.slots[k] == Slot(WaitRes, w, tid, 1, true) && u.count == t.count + 1
              && SameElsewhere(t, u, w, tid, k)
  {
    SearchFinds(t);
    assert KeyOk(t, w, tid);
    if allowed && Link(t.stations, w, tid) == 0 && t.count < |t.slots| - 1 {
      var k := FirstFree(t.slots, 1);
      UnusedElsewhere(t, w, tid, k);
      SetLinkCounts(t.stations, w, tid, k);
      assert u.slots == t.slots[k := Slot(WaitRes, w, tid, 1, true)];
      LocalChange(t, u, w, tid, k);
    }
  }

  /** The answer establishes exactly a waiting session, sets its bit and stops its timer. */
  lemma AnswerKeeps(t: Table, w: nat, tid: nat, u: Table)
    requires WellFormed(t) && OriInv(t) && InBounds(t) && IsKey(t.stations, w, tid) && u == Answer(t, w, tid)
    ensures OriInv(u)
    ensures var i := Link(t.stations, w, tid);
            if i != 0 && t.slots[i].status == WaitRes
            then u.slots[i].status == Done && !u.slots[i].armed && Bit(u.stations, w, tid)
                 && SameElsewhere(t, u, w, tid, i)
            else u == t
  {
    assert KeyOk(t, w, tid);
    var i := Link(t.stations, w, tid);
    if i != 0 && t.slots[i].status == WaitRes {
      LinkedElsewhere(t, w, tid);
      SetBitCounts(t.stations, w, tid, true);
      LocalChange(t, u, w, tid, i);
    }
  }

  // Freeing the slot that (w, tid) links to, its timer stopped.
  lemma FreeKeeps(t: Table, w: nat, tid: nat, u: Table)
    requires WellFormed(t) && OriInv(t) && IsKey(t.stations, w, tid) && Link(t.stations, w, tid) != 0
    requires SlotOk(t, w, tid, Link(t.stations, w, tid))
    requires var i := Link(t.stations, w, tid); u == FreeSlot(t.(slots := t.slots[i := t.slots[i].(armed := false)]), i)
    ensures OriInv(u) && Link(u.stations, w, tid) == 0 && !Bit(u.stations, w, tid) && u.count == t.count - 1
    ensures SameElsewhere(t, u, w, tid, Link(t.stations, w, tid))
  {
    var i := Link(t.stations, w, tid);
    LinkedElsewhere(t, w, tid);
    assert KeyOk(t, w, tid);
    var st := SetLink(t.stations, w, tid, 0);
    SetLinkCounts(t.stations, w, tid, 0);
    SetBitCounts(st, w, tid, false);
    LocalChange(t, u, w, tid, i);
  }

  /** Teardown ends exactly this session, or changes nothing when there is none or an established one's
      DELBA frame cannot be allocated. */
  lemma TearDownKeeps(t: Table, w: nat, tid: nat, passive: bool, sent: bool, u: Table)
    requires WellFormed(t) && OriInv(t) && InBounds(t) && tid < NUM_OF_TID && u == TearDown(t, w, tid, passive, sent)
    ensures OriInv(u)
    ensures var i := if w < |t.stations| then Link(t.stations, w, tid) else 0;
            if i == 0 || (!passive && !sent && t.slots[i].status == Done) then u == t
            else Link(u.stations, w, tid) == 0 && !Bit(u.stations, w, tid) && SameElsewhere(t, u, w, tid, i)
  {
    if w < |t.stations| && Link(t.stations, w, tid) != 0 {
      var i := Link(t.stations, w, tid);
      assert KeyOk(t, w, tid);
      if passive || sent || t.slots[i].status != Done {
        FreeKeeps(t, w, tid, u);
      }
    }
  }

  /** A setup timer that goes off sends the next request, waits out a scan, or frees the setup, and is
      set again exactly when the session still waits; only when the adapter is muted the setup is left
      with no timer. */
  lemma FireKeeps(t: Table, i: nat, air: Air, u: Table, token: nat)
    requires WellFormed(t) && OriInv(t) && InBounds(t) && 1 <= i < |t.slots| && t.slots[i].armed
    requires IsKey(t.stations, t.slots[i].wcid, t.slots[i].tid) && (u, token) == Fire(t, i, air)
    ensures OriInv(u) && SameElsewhere(t, u, t.slots[i].wcid, t.slots[i].tid, i)
    ensures var s := t.slots[i];
            if air == Muted then token == 0 && u.slots[i] == s.(armed := false) && u.stations == t.stations
            else if s.token == 8 then
              token == 0 && Link(u.stations, s.wcid, s.tid) == 0 && u.slots[i].status == NONE
            else if air == Scanning then u == t && token == 0
            else token == s.token && u.slots[i] == s.(token := s.token + 1) && u.stations == t.stations
  {
    assert SlotLinked(t, i);
    var s := t.slots[i];
    assert KeyOk(t, s.wcid, s.tid);
    LinkedElsewhere(t, s.wcid, s.tid);
    if air == Muted {
      LocalChange(t, u, s.wcid, s.tid, i);
    } else if s.token == ORI_SESSION_MAX_RETRY {
      FreeKeeps(t, s.wcid, s.tid, u);
    } else if air == Open {
      LocalChange(t, u, s.wcid, s.tid, i);
    }
  }

  // ---------- runs ----------

  datatype Event =
    | SetUpReq(w: nat, tid: nat, allowed: bool)
    | Accepted(w: nat, tid: nat)
    | Ended(w: nat, tid: nat, passive: bool, sent: bool)
    | TimerFires(i: nat, air: Air)

  ghost predicate Possible(t: Table, ev: Event) {
    match ev
    case SetUpReq(w, tid, _) => IsKey(t.stations, w, tid)
    case Accepted(w, tid) => IsKey(t.stations, w, tid)
    case Ended(_, tid, _, _) => tid < NUM_OF_TID
    case TimerFires(i, _) =>
      1 <= i < |t.slots| && t.slots[i].armed && IsKey(t.stations, t.slots[i].wcid, t.slots[i].tid)
  }

  ghost function Serve(t: Table, ev: Event): (u: Table)
    requires WellFormed(t) && InBounds(t) && Possible(t, ev)
    ensures WellFormed(u) && |u.slots| == |t.slots| && |u.stations| == |t.stations|
  {
    match ev
    case SetUpReq(w, tid, allowed) => SetUp(t, w, tid, allowed)
    case Accepted(w, tid) => Answer(t, w, tid)
    case Ended(w, tid, passive, sent) => TearDown(t, w, tid, passive, sent)
    case TimerFires(i, air) => Fire(t, i, air).0
  }

  /** Every event keeps the originator tables consistent. */
  lemma ServeKeeps(t: Table, ev: Event, u: Table)
    requires WellFormed(t) && OriInv(t) && InBounds(t) && Possible(t, ev) && u == Serve(t, ev)
    ensures OriInv(u) && InBounds(u)
  {
    match ev {
      case SetUpReq(w, tid, allowed) => SetUpKeeps(t, w, tid, allowed, u);
      case Accepted(w, tid) => AnswerKeeps(t, w, tid, u);
      case Ended(w, tid, passive, sent) => TearDownKeeps(t, w, tid, passive, sent, u);
      case TimerFires(i, air) => FireKeeps(t, i, air, u, Fire(t, i, air).1);
    }
    InvInBounds(u);
  }

  // Every setup has its timer pending.
  ghost predicate AllArmed(t: Table) {
    forall i :: 0 <= i < |t.slots| && t.slots[i].status == WaitRes ==> t.slots[i].armed
  }

  /** As long as no timer goes off while the adapter is muted, every setup keeps its timer. */
  lemma ServeArmed(t: Table, ev: Event, u: Table)
    requires WellFormed(t) && OriInv(t) && InBounds(t) && Possible(t, ev) && u == Serve(t, ev)
    requires AllArmed(t) && !(ev.TimerFires? && ev.air == Muted)
    ensures AllArmed(u)
  {
    match ev {
      case SetUpReq(w, tid, allowed) => SetUpKeeps(t, w, tid, allowed, u);
      case Accepted(w, tid) => AnswerKeeps(t, w, tid, u);
      case Ended(w, tid, passive, sent) => TearDownKeeps(t, w, tid, passive, sent, u);
      case TimerFires(i, air) => FireKeeps(t, i, air, u, Fire(t, i, air).1);
    }
  }

  // The number of ADDBA requests that an event sends to station w for tid.
  ghost function Requests(t: Table, ev: Event, w: nat, tid: nat): nat
    requires WellFormed(t) && InBounds(t) && Possible(t, ev)
  {
    if ev.TimerFires? && t.slots[ev.i].wcid == w && t.slots[ev.i].tid == tid && Fire(t, ev.i, ev.air).1 != 0
    then 1 else 0
  }

  // How many more requests the setup of (w, tid) may send.
  ghost function Budget(t: Table, w: nat, tid: nat): int
    requires WellFormed(t) && InBounds(t) && IsKey(t.stations, w, tid)
  {
    var i := Link(t.stations, w, tid);
    if i != 0 && t.slots[i].status == WaitRes then ORI_SESSION_MAX_RETRY - t.slots[i].token else 0
  }

  // The event is about (w, tid) and not one of its timer.
  predicate Addresses(ev: Event, w: nat, tid: nat) {
    match ev
    case SetUpReq(v, d, _) => v == w && d == tid
    case Accepted(v, d) => v == w && d == tid
    case Ended(v, d, _, _) => v == w && d == tid
    case TimerFires(_, _) => false
  }

  // The timer that goes off is that of the setup of (w, tid).
  ghost predicate OwnTimer(t: Table, ev: Event, w: nat, tid: nat)
    requires Possible(t, ev)
  {
    ev.TimerFires? && t.slots[ev.i].wcid == w && t.slots[ev.i].tid == tid
  }

  ghost predicate SameSession(t: Table, u: Table, w: nat, tid: nat)
    requires WellFormed(t) && WellFormed(u) && IsKey(t.stations, w, tid) && InBounds(t) && InBounds(u)
  {
    && IsKey(u.stations, w, tid) && Link(u.stations, w, tid) == Link(t.stations, w, tid)
    && (Link(t.stations, w, tid) != 0 ==>
          u.slots[Link(u.stations, w, tid)] == t.slots[Link(t.stations, w, tid)])
  }

  lemma SessionElsewhere(t: Table, u: Table, v: nat, d: nat, i: nat, w: nat, tid: nat)
    requires WellFormed(t) && WellFormed(u) && OriInv(t) && InBounds(t) && InBounds(u) && IsKey(t.stations, w, tid)
    requires SameElsewhere(t, u, v, d, i) && Other(w, tid, v, d) && Link(t.stations, w, tid) != i
    ensures SameSession(t, u, w, tid)
  {
  }

  lemma SessionBesideNew(t: Table, u: Table, v: nat, d: nat, w: nat, tid: nat)
    requires WellFormed(t) && WellFormed(u) && OriInv(t) && InBounds(t) && InBounds(u) && IsKey(t.stations, w, tid)
    requires IsKey(t.stations, v, d) && Other(w, tid, v, d) && |u.stations| == |t.stations|
    requires OriInv(u) && Link(u.stations, v, d) != 0 && SameElsewhere(t, u, v, d, Link(u.stations, v, d))
    ensures SameSession(t, u, w, tid)
  {
    LinkedElsewhere(u, v, d);
    assert IsKey(u.stations, w, tid);
    SessionElsewhere(t, u, v, d, Link(u.stations, v, d), w, tid);
  }

  /** An event that is not about (w, tid) leaves its link and its slot as they are. */
  lemma Unaddressed(t: Table, ev: Event, w: nat, tid: nat, u: Table)
    requires WellFormed(t) && OriInv(t) && InBounds(t) && Possible(t, ev) && u == Serve(t, ev) && InBounds(u)
    requires IsKey(t.stations, w, tid) && !Addresses(ev, w, tid) && !OwnTimer(t, ev, w, tid)
    ensures SameSession(t, u, w, tid)
  {
    hide SameSession;
    SameSessionSelf(t, w, tid);
    match ev {
      case SetUpReq(v, d, allowed) =>
        SetUpKeeps(t, v, d, allowed, u);
        if u != t { assert KeyOk(t, v, d); SessionBesideNew(t, u, v, d, w, tid); }
      case Accepted(v, d) =>
        AnswerKeeps(t, v, d, u);
        if u != t { LinkedElsewhere(t, v, d); SessionElsewhere(t, u, v, d, Link(t.stations, v, d), w, tid); }
      case Ended(v, d, passive, sent) =>
        TearDownKeeps(t, v, d, passive, sent, u);
        if u != t { LinkedElsewhere(t, v, d); SessionElsewhere(t, u, v, d, Link(t.stations, v, d), w, tid); }
      case TimerFires(i, air) =>
        FireKeeps(t, i, air, u, Fire(t, i, air).1);
        assert SlotLinked(t, i);
        LinkedElsewhere(t, t.slots[i].wcid, t.slots[i].tid);
        SessionElsewhere(t, u, t.slots[i].wcid, t.slots[i].tid, i, w, tid);
    }
  }

  lemma SameSessionSelf(t: Table, w: nat, tid: nat)
    requires WellFormed(t) && IsKey(t.stations, w, tid) && InBounds(t)
    ensures SameSession(t, t, w, tid)
  {
  }

  /** An event either starts the setup of (w, tid) or pays for the requests it sends out of its budget. */
  lemma BudgetPays(t: Table, ev: Event, w: nat, tid: nat, u: Table)
    requires WellFormed(t) && OriInv(t) && InBounds(t) && Possible(t, ev) && u == Serve(t, ev) && InBounds(u)
    requires IsKey(t.stations, w, tid) && !Addresses(ev, w, tid)
    ensures Requests(t, ev, w, tid) + Budget(u, w, tid) <= Budget(t, w, tid) && 0 <= Budget(t, w, tid)
  {
    assert KeyOk(t, w, tid);
    if OwnTimer(t, ev, w, tid) {
      FireKeeps(t, ev.i, ev.air, u, Fire(t, ev.i, ev.air).1);
      assert SlotLinked(t, ev.i);
    } else {
      hide Serve, OriInv;
      Unaddressed(t, ev, w, tid, u);
    }
  }

  /** No two sessions share a slot. */
  lemma LinksInjective(t: Table, v: nat, d: nat, w: nat, tid: nat)
    requires WellFormed(t) && OriInv(t) && IsKey(t.stations, v, d) && IsKey(t.stations, w, tid)
    requires Link(t.stations, v, d) == Link(t.stations, w, tid) != 0
    ensures v == w && d == tid
  {
    assert KeyOk(t, v, d) && KeyOk(t, w, tid);
  }

  ghost predicate Reachable(t: Table, run: seq<Event>, u: Table)
    requires WellFormed(t)
    decreases |run|
  {
    if run == [] then u == t
    else InBounds(t) && Possible(t, run[0]) && Reachable(Serve(t, run[0]), run[1..], u)
  }

  /** Over every sequence of setups, answers, teardowns and timers the originator tables stay consistent. */
  lemma {:induction false} ReachableInv(t: Table, run: seq<Event>, u: Table)
    requires WellFormed(t) && OriInv(t) && Reachable(t, run, u)
    ensures WellFormed(u) && OriInv(u)
    decreases |run|
  {
    hide Serve, OriInv;
    if run == [] {
    } else {
      ServeKeeps(t, run[0], Serve(t, run[0]));
      ReachableInv(Serve(t, run[0]), run[1..], u);
    }
  }

  // The requests sent to (w, tid) over a run from t, none of whose events addresses (w, tid).
  ghost predicate UnansweredRun(t: Table, run: seq<Event>, w: nat, tid: nat, sent: nat)
    decreases |run|
  {
    && WellFormed(t) && InBounds(t)
    && if run == [] then sent == 0
       else
         && Possible(t, run[0]) && !Addresses(run[0], w, tid)
         && Requests(t, run[0], w, tid) <= sent
         && UnansweredRun(Serve(t, run[0]), run[1..], w, tid, sent - Requests(t, run[0], w, tid))
  }

  /** Whatever happens to the other sessions, an unanswered setup sends no more requests than its
      budget: seven when it starts with token 1. */
  lemma {:induction false} UnansweredSendsWithinBudget(t: Table, run: seq<Event>, w: nat, tid: nat, sent: nat)
    requires WellFormed(t) && OriInv(t) && IsKey(t.stations, w, tid) && UnansweredRun(t, run, w, tid, sent)
    ensures sent <= Budget(t, w, tid)
    decreases |run|
  {
    if run == [] {
      assert KeyOk(t, w, tid);
    } else {
      hide Serve, OriInv, Budget, Requests, Addresses;
      var u := Serve(t, run[0]);
      ServeKeeps(t, run[0], u);
      BudgetPays(t, run[0], w, tid, u);
      UnansweredSendsWithinBudget(u, run[1..], w, tid, sent - Requests(t, run[0], w, tid));
    }
  }

  // How many times the timer of the setup of (w, tid) can still go off outside a scan.
  ghost function Firings(t: Table, w: nat, tid: nat): int
    requires WellFormed(t) && InBounds(t) && IsKey(t.stations, w, tid)
  {
    var i := Link(t.stations, w, tid);
    if i == 0 then 0 else ORI_SESSION_MAX_RETRY + 1 - t.slots[i].token
  }

  // The session is being set up, or there is none.
  ghost predicate Unanswered(t: Table, w: nat, tid: nat)
    requires WellFormed(t) && InBounds(t) && IsKey(t.stations, w, tid)
  {
    Link(t.stations, w, tid) != 0 ==> t.slots[Link(t.stations, w, tid)].status == WaitRes
  }

  // 1 when the event is the session's own timer going off outside a scan.
  ghost function OwnFiring(t: Table, ev: Event, w: nat, tid: nat): nat
    requires Possible(t, ev)
  {
    if OwnTimer(t, ev, w, tid) && ev.air == Open then 1 else 0
  }

  lemma FiringSpends(t: Table, ev: Event, w: nat, tid: nat, u: Table)
    requires WellFormed(t) && OriInv(t) && InBounds(t) && Possible(t, ev) && u == Serve(t, ev) && InBounds(u)
    requires IsKey(t.stations, w, tid) && !Addresses(ev, w, tid) && Unanswered(t, w, tid)
    ensures Unanswered(u, w, tid) && OwnFiring(t, ev, w, tid) + Firings(u, w, tid) <= Firings(t, w, tid)
  {
    assert KeyOk(t, w, tid);
    if OwnTimer(t, ev, w, tid) {
      FireKeeps(t, ev.i, ev.air, u, Fire(t, ev.i, ev.air).1);
      assert SlotLinked(t, ev.i);
    } else {
      hide Serve, OriInv;
      Unaddressed(t, ev, w, tid, u);
    }
  }

  // A run from t to u whose events do not address (w, tid), in which its own timer goes off n times outside a scan.
  ghost predicate LeftAlone(t: Table, run: seq<Event>, w: nat, tid: nat, n: nat, u: Table)
    decreases |run|
  {
    && WellFormed(t) && InBounds(t)
    && if run == [] then n == 0 && u == t
       else
         && Possible(t, run[0]) && !Addresses(run[0], w, tid)
         && OwnFiring(t, run[0], w, tid) <= n
         && LeftAlone(Serve(t, run[0]), run[1..], w, tid, n - OwnFiring(t, run[0], w, tid), u)
  }

  lemma {:induction false} LeftAloneSpends(t: Table, run: seq<Event>, w: nat, tid: nat, n: nat, u: Table)
    requires WellFormed(t) && OriInv(t) && InBounds(t) && IsKey(t.stations, w, tid) && Unanswered(t, w, tid)
    requires LeftAlone(t, run, w, tid, n, u)
    ensures WellFormed(u) && OriInv(u) && InBounds(u) && IsKey(u.stations, w, tid)
    ensures Unanswered(u, w, tid) && n + Firings(u, w, tid) <= Firings(t, w, tid)
    decreases |run|
  {
    hide Serve, OriInv, Unanswered, Firings, OwnFiring, Addresses;
    if run == [] {
    } else {
      var v := Serve(t, run[0]);
      ServeKeeps(t, run[0], v);
      FiringSpends(t, run[0], w, tid, v);
      LeftAloneSpends(v, run[1..], w, tid, n - OwnFiring(t, run[0], w, tid), u);
    }
  }

  lemma {:induction false} MutedStays(t: Table, run: seq<Event>, w: nat, tid: nat, n: nat, u: Table)
    requires WellFormed(t) && OriInv(t) && InBounds(t) && IsKey(t.stations, w, tid) && Link(t.stations, w, tid) != 0
    requires !t.slots[Link(t.stations, w, tid)].armed && LeftAlone(t, run, w, tid, n, u)
    ensures n == 0 && WellFormed(u) && InBounds(u) && SameSession(t, u, w, tid)
    decreases |run|
  {
    if run == [] {
    } else {
      var v := Serve(t, run[0]);
      NotOwn(t, run[0], w, tid);
      ServeKeeps(t, run[0], v);
      Unaddressed(t, run[0], w, tid, v);
      hide Serve, OriInv;
      MutedStays(v, run[1..], w, tid, n, u);
    }
  }

  lemma NotOwn(t: Table, ev: Event, w: nat, tid: nat)
    requires WellFormed(t) && OriInv(t) && InBounds(t) && IsKey(t.stations, w, tid) && Possible(t, ev)
    requires Link(t.stations, w, tid) != 0 && !t.slots[Link(t.stations, w, tid)].armed
    ensures !OwnTimer(t, ev, w, tid)
  {
    if ev.TimerFires? {
      assert SlotLinked(t, ev.i);
    }
  }

  /** A setup whose timer went off while the adapter was muted hangs: left alone it stays as it is, and a
      new request to set it up changes nothing, until it is answered or ended. */
  lemma MutedHangs(t: Table, run: seq<Event>, w: nat, tid: nat, n: nat, u: Table, allowed: bool)
    requires WellFormed(t) && OriInv(t) && InBounds(t) && IsKey(t.stations, w, tid) && Link(t.stations, w, tid) != 0
    requires t.slots[Link(t.stations, w, tid)].status == WaitRes && !t.slots[Link(t.stations, w, tid)].armed
    requires LeftAlone(t, run, w, tid, n, u)
    ensures WellFormed(u) && InBounds(u) && SameSession(t, u, w, tid) && SetUp(t, w, tid, allowed) == t
  {
    MutedStays(t, run, w, tid, n, u);
    SetUpKeeps(t, w, tid, allowed, SetUp(t, w, tid, allowed));
  }

  /** A setup nobody answers: whatever happens to the other sessions in between, its timer goes off at
      most 9 - token times outside a scan, and when it has done so the session is gone. */
  lemma UnansweredIsFreed(t: Table, run: seq<Event>, w: nat, tid: nat, n: nat, u: Table)
    requires WellFormed(t) && OriInv(t) && InBounds(t) && IsKey(t.stations, w, tid) && Link(t.stations, w, tid) != 0
    requires t.slots[Link(t.stations, w, tid)].status == WaitRes && LeftAlone(t, run, w, tid, n, u)
    ensures WellFormed(u) && OriInv(u) && InBounds(u) && IsKey(u.stations, w, tid)
    ensures
      var left := 9 - t.slots[Link(t.stations, w, tid)].token;
      n <= left && (n == left ==> Link(u.stations, w, tid) == 0)
  {
    LeftAloneSpends(t, run, w, tid, n, u);
    assert KeyOk(u, w, tid);
  }

  /** A session that has just been requested and is never answered sends at most seven more requests, its
      timer goes off at most eight times outside a scan, and after the eighth time it is gone. */
  lemma FreshSetUpIsFreed(t: Table, w: nat, tid: nat, s: Table, run: seq<Event>, sent: nat, n: nat, u: Table)
    requires WellFormed(t) && OriInv(t) && InBounds(t) && IsKey(t.stations, w, tid)
    requires s == SetUp(t, w, tid, true) && s != t
    requires UnansweredRun(s, run, w, tid, sent) && LeftAlone(s, run, w, tid, n, u)
    ensures sent <= 7 && n <= 8 && WellFormed(u) && InBounds(u) && IsKey(u.stations, w, tid)
    ensures n == 8 ==> Link(u.stations, w, tid) == 0
  {
    SetUpKeeps(t, w, tid, true, s);
    UnansweredSendsWithinBudget(s, run, w, tid, sent);
    UnansweredIsFreed(s, run, w, tid, n, u);
  }

  // The timer of a setup goes off until the session is gone.
  lemma {:induction false} FiresToTheEnd(t: Table, w: nat, tid: nat, k: nat) returns (run: seq<Event>, u: Table)
    requires WellFormed(t) && OriInv(t) && InBounds(t) && IsKey(t.stations, w, tid) && Link(t.stations, w, tid) != 0
    requires t.slots[Link(t.stations, w, tid)] == Slot(WaitRes, w, tid, k, true) && 1 <= k <= 8
    ensures LeftAlone(t, run, w, tid, 9 - k, u) && UnansweredRun(t, run, w, tid, 8 - k)
    decreases 8 - k
  {
    var ev := TimerFires(Link(t.stations, w, tid), Open);
    assert KeyOk(t, w, tid);
    var v := Serve(t, ev);
    ServeKeeps(t, ev, v);
    FireKeeps(t, ev.i, Open, v, Fire(t, ev.i, Open).1);
    hide OriInv, InBounds, Serve, Fire;
    if k == 8 {
      run, u := [ev], v;
      assert run[1..] == [];
    } else {
      run, u := FiresToTheEnd(v, w, tid, k + 1);
      assert ([ev] + run)[1..] == run;
      run := [ev] + run;
    }
  }

  /** Seven requests and eight firings do happen. */
  lemma FreshSetUpFires(t: Table, w: nat, tid: nat, s: Table) returns (run: seq<Event>, u: Table)
    requires WellFormed(t) && OriInv(t) && InBounds(t) && IsKey(t.stations, w, tid)
    requires s == SetUp(t, w, tid, true) && s != t
    ensures LeftAlone(s, run, w, tid, 8, u) && UnansweredRun(s, run, w, tid, 7)
  {
    SetUpKeeps(t, w, tid, true, s);
    InvInBounds(s);
    run, u := FiresToTheEnd(s, w, tid, 1);
  }

  // ---------- ending all sessions of a station ----------

  // A setup ends in any case, an established session when its DELBA can be sent.
  ghost predicate Ends(t: Table, w: nat, tid: nat, sent: bool)
    requires WellFormed(t) && IsKey(t.stations, w, tid) && InBounds(t)
  {
    var i := Link(t.stations, w, tid);
    sent || i == 0 || t.slots[i].status != Done
  }

  ghost predicate EndedAt(t0: Table, t: Table, w: nat, tid: nat, sent: seq<bool>, v: nat, d: nat)
    requires WellFormed(t0) && WellFormed(t) && InBounds(t0) && InBounds(t) && |sent| == NUM_OF_TID
    requires |t.stations| == |t0.stations| && IsKey(t0.stations, v, d)
  {
    if v == w && d < tid && Ends(t0, v, d, sent[d]) then Link(t.stations, v, d) == 0 && !Bit(t.stations, v, d)
    else SameSession(t0, t, v, d) && Bit(t.stations, v, d) == Bit(t0.stations, v, d)
  }

  // From t0 to t the sessions of station w below tid have ended where they can, and no other.
  ghost predicate EndedBelow(t0: Table, t: Table, w: nat, tid: nat, sent: seq<bool>)
    requires WellFormed(t0) && InBounds(t0) && |sent| == NUM_OF_TID
  {
    && WellFormed(t) && OriInv(t) && InBounds(t) && |t.stations| == |t0.stations| && |t.slots| == |t0.slots|
    && forall v: nat, d: nat :: IsKey(t0.stations, v, d) ==> EndedAt(t0, t, w, tid, sent, v, d)
  }

  lemma NoneEndedYet(t: Table, w: nat, sent: seq<bool>)
    requires WellFormed(t) && OriInv(t) && InBounds(t) && |sent| == NUM_OF_TID
    ensures EndedBelow(t, t, w, 0, sent)
  {
    hide OriInv;
  }

  lemma EndsHere(t0: Table, t: Table, w: nat, tid: nat, sent: seq<bool>, u: Table)
    requires WellFormed(t0) && InBounds(t0) && |sent| == NUM_OF_TID && EndedBelow(t0, t, w, tid, sent)
    requires IsKey(t0.stations, w, tid) && u == TearDown(t, w, tid, false, sent[tid]) && InBounds(u)
    ensures EndedAt(t0, u, w, tid + 1, sent, w, tid)
  {
    assert EndedAt(t0, t, w, tid, sent, w, tid);
    assert KeyOk(t, w, tid);
    TearDownKeeps(t, w, tid, false, sent[tid], u);
  }

  lemma EndsNotThere(t0: Table, t: Table, w: nat, tid: nat, sent: seq<bool>, u: Table, v: nat, d: nat)
    requires WellFormed(t0) && InBounds(t0) && |sent| == NUM_OF_TID && EndedBelow(t0, t, w, tid, sent)
    requires tid < NUM_OF_TID && u == TearDown(t, w, tid, false, sent[tid]) && InBounds(u)
    requires IsKey(t0.stations, v, d) && Other(v, d, w, tid)
    ensures EndedAt(t0, u, w, tid + 1, sent, v, d)
  {
    assert EndedAt(t0, t, w, tid, sent, v, d);
    TearDownKeeps(t, w, tid, false, sent[tid], u);
    if u != t {
      LinkedElsewhere(t, w, tid);
      SessionElsewhere(t, u, w, tid, Link(t.stations, w, tid), v, d);
    }
  }

  /** Ending the sessions of a station one TID after the other ends every setup, and every established
      session whose DELBA frame can be sent, and no other. */
  lemma EndsOneMore(t0: Table, t: Table, w: nat, tid: nat, sent: seq<bool>, u: Table)
    requires WellFormed(t0) && InBounds(t0) && |sent| == NUM_OF_TID && EndedBelow(t0, t, w, tid, sent)
    requires tid < NUM_OF_TID && u == TearDown(t, w, tid, false, sent[tid])
    ensures EndedBelow(t0, u, w, tid + 1, sent)
  {
    hide TearDown, EndedAt, OriInv;
    TearDownKeeps(t, w, tid, false, sent[tid], u);
    InvInBounds(u);
    forall v: nat, d: nat | IsKey(t0.stations, v, d) ensures EndedAt(t0, u, w, tid + 1, sent, v, d) {
      if Other(v, d, w, tid) {
        EndsNotThere(t0, t, w, tid, sent, u, v, d);
      } else {
        EndsHere(t0, t, w, tid, sent, u);
      }
    }
  }

  // ---------- the tables in place ----------

  class OriginatorTable {
    const slots: array<Slot>
    const stations: array<Station>
    var count: int
    var done: int

    ghost function State(): Table
      reads this, slots, stations
    {
      Table(slots[..], count, done, stations[..])
    }

    constructor (numSlots: nat, numStations: nat)
      requires 2 <= numSlots
      ensures WellFormed(State()) && OriInv(State()) && fresh(slots) && fresh(stations)
      ensures |State().slots| == numSlots && |State().stations| == numStations
    {
      slots := new Slot[numSlots](_ => Slot(NONE, 0, 0, 0, false));
      stations := new Station[numStations](_ => Station(seq(NUM_OF_TID, _ => 0), seq(NUM_OF_TID, _ => false)));
      count, done := 0, 0;
      new;
      NoneRanked(slots[..], 1, 1);
      NoneRanked(slots[..], 1, 3);
      NoSetBits(stations[..]);
    }

    // BATableAllocOriEntry
    method Alloc() returns (a: Allocation)
      requires WellFormed(State())
      modifies this, slots
      ensures (State(), a) == AllocSlot(old(State()))
    {
      if count >= slots.Length - 1 {
        return Refused;
      }
      var i := 1;
      while i < slots.Length
        invariant 1 <= i <= slots.Length && State() == old(State())
        invariant FirstFree(slots[..], 1) == FirstFree(slots[..], i)
      {
        if slots[i].status == NONE {
          count := count + 1;
          slots[i] := slots[i].(status := USED);
          return Found(i);
        }
        i := i + 1;
      }
      return Overrun;
    }

    // BAOriSessionSetUp
    method Start(w: nat, tid: nat, allowed: bool)
      requires WellFormed(State()) && IsKey(State().stations, w, tid) && Link(State().stations, w, tid) < slots.Length
      modifies this, slots, stations
      ensures State() == SetUp(old(State()), w, tid, allowed)
    {
      if !allowed {
        return;
      }
      var idx, i := stations[w].link[tid], stations[w].link[tid];
      if idx == 0 {
        var a := Alloc();
        match a {
          case Refused => return;
          case Found(k) => idx, i := k, k;
          case Overrun => idx, i := 0, slots.Length - 1;
        }
      }
      if slots[i].status.Rank() >= WaitRes.Rank() {
        return;
      }
      stations[w] := stations[w].(link := stations[w].link[tid := idx]);
      slots[i] := Slot(WaitRes, w, tid, 1, true);
    }

    // BAOriSessionAdd
    method Accept(w: nat, tid: nat)
      requires WellFormed(State()) && IsKey(State().stations, w, tid) && Link(State().stations, w, tid) < slots.Length
      modifies this, slots, stations
      ensures State() == Answer(old(State()), w, tid)
    {
      var i := stations[w].link[tid];
      if i != 0 && slots[i].tid == tid && slots[i].status == WaitRes {
        slots[i] := slots[i].(status := Done, armed := false);
        done := done + 1;
        stations[w] := stations[w].(bits := stations[w].bits[tid := true]);
      }
    }

    // BATableFreeOriEntry
    method Free(i: nat)
      requires WellFormed(State())
      requires 0 < i < slots.Length && slots[i].status != NONE ==> IsKey(State().stations, slots[i].wcid, slots[i].tid)
      modifies this, slots, stations
      ensures State() == FreeSlot(old(State()), i)
    {
      if i == 0 || i >= slots.Length {
        return;
      }
      var s := slots[i];
      if s.status != NONE {
        stations[s.wcid] := stations[s.wcid].(link := stations[s.wcid].link[s.tid := 0]);
        if s.status == Done {
          done := done - 1;
          stations[s.wcid] := stations[s.wcid].(bits := stations[s.wcid].bits[s.tid := false]);
        }
        count := count - 1;
        slots[i] := s.(status := NONE, token := 0);
      }
    }

    // BAOriSessionTearDown
    method End(w: nat, tid: nat, passive: bool, sent: bool)
      requires WellFormed(State()) && tid < NUM_OF_TID && InBounds(State())
      modifies this, slots, stations
      ensures State() == TearDown(old(State()), w, tid, passive, sent)
    {
      if w >= stations.Length {
        return;
      }
      var i := stations[w].link[tid];
      if i == 0 {
        return;
      }
      assert i == Link(State().stations, w, tid);
      if !passive && slots[i].tid == tid && slots[i].status == Done && !sent {
        return;
      }
      slots[i] := slots[i].(armed := false);
      Free(i);
    }

    // The originator half of BASessionTearDownALL; sent says which DELBA frames can be allocated.
    method EndAll(w: nat, sent: seq<bool>)
      requires WellFormed(State()) && OriInv(State()) && InBounds(State()) && |sent| == NUM_OF_TID
      modifies this, slots, stations
      ensures EndedBelow(old(State()), State(), w, 8, sent)
    {
      hide OriInv, TearDown, EndedAt;
      var tid := 0;
      NoneEndedYet(State(), w, sent);
      while tid < NUM_OF_TID
        invariant 0 <= tid <= NUM_OF_TID && EndedBelow(old(State()), State(), w, tid, sent)
      {
        ghost var t := State();
        End(w, tid, false, sent[tid]);
        EndsOneMore(old(State()), t, w, tid, sent, State());
        tid := tid + 1;
      }
    }

    // BAOriSessionSetupTimeout
    method Timeout(i: nat, air: Air) returns (token: nat)
      requires WellFormed(State()) && InBounds(State()) && i < slots.Length
      requires IsKey(State().stations, slots[i].wcid, slots[i].tid)
      modifies this, slots, stations
      ensures (State(), token) == Fire(old(State()), i, air)
    {
      var s := slots[i];
      if air == Muted {
        slots[i] := s.(armed := false);
        return 0;
      }
      if s.status == WaitRes && s.token < ORI_SESSION_MAX_RETRY {
        if air == Scanning {
          return 0;
        }
        slots[i] := s.(token := s.token + 1);
        token := s.token;
      } else {
        slots[i] := s.(armed := false);
        Free(stations[s.wcid].link[s.tid]);
        token := 0;
      }
    }
  }

  lemma {:induction false} NoneRanked(slots: seq<Slot>, i: nat, r: nat)
    requires i <= |slots| && 1 <= r && forall j :: 0 <= j < |slots| ==> slots[j].status == NONE
    ensures Ranked(slots, i, r) == 0
    decreases |slots| - i
  {
    if i < |slots| {
      NoneRanked(slots, i + 1, r);
    }
  }
}
