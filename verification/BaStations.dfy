/** What every station of the MAC table records about its Block Ack sessions in one direction: the
    index of the session of each TID (BARecWcidArray or BAOriWcidArray, 0 for none) and the bitmap of
    established ones (RXBAbitmap or TXBAbitmap). */
module BaStations {

  const NUM_OF_TID := 8

  datatype Station = Station(link: seq<nat>, bits: seq<bool>)

  type Stations = seq<Station>

  predicate Sized(st: Stations) {
    forall w :: 0 <= w < |st| ==> |st[w].link| == NUM_OF_TID && |st[w].bits| == NUM_OF_TID
  }

  predicate IsKey(st: Stations, w: nat, tid: nat) {
    w < |st| && tid < NUM_OF_TID
  }

  predicate Other(v: nat, d: nat, w: nat, tid: nat) {
    v != w || d != tid
  }

  function Link(st: Stations, w: nat, tid: nat): nat
    requires Sized(st) && IsKey(st, w, tid)
  {
    st[w].link[tid]
  }

  function Bit(st: Stations, w: nat, tid: nat): bool
    requires Sized(st) && IsKey(st, w, tid)
  {
    st[w].bits[tid]
  }

  function SetLink(st: Stations, w: nat, tid: nat, i: nat): (su: Stations)
    requires Sized(st) && IsKey(st, w, tid)
    ensures Sized(su) && |su| == |st|
    ensures forall v: nat, d: nat :: IsKey(st, v, d) ==>
              Link(su, v, d) == (if v == w && d == tid then i else Link(st, v, d)) && Bit(su, v, d) == Bit(st, v, d)
  {
    st[w := st[w].(link := st[w].link[tid := i])]
  }

  function SetBit(st: Stations, w: nat, tid: nat, b: bool): (su: Stations)
    requires Sized(st) && IsKey(st, w, tid)
    ensures Sized(su) && |su| == |st|
    ensures forall v: nat, d: nat :: IsKey(st, v, d) ==>
              Bit(su, v, d) == (if v == w && d == tid then b else Bit(st, v, d)) && Link(su, v, d) == Link(st, v, d)
  {
    st[w := st[w].(bits := st[w].bits[tid := b])]
  }

  // Every station with no session.
  function NoSessions(n: nat): (st: Stations)
    ensures Sized(st) && |st| == n
    ensures forall w: nat, tid: nat :: IsKey(st, w, tid) ==> Link(st, w, tid) == 0 && !Bit(st, w, tid)
  {
    seq(n, _ => Station(seq(NUM_OF_TID, _ => 0), seq(NUM_OF_TID, _ => false)))
  }

  // ---------- the number of set bits ----------

  function RowBits(bits: seq<bool>): nat {
    if bits == [] then 0 else (if bits[0] then 1 else 0) + RowBits(bits[1..])
  }

  function SetBits(st: Stations): nat {
    if st == [] then 0 else RowBits(st[0].bits) + SetBits(st[1..])
  }

  lemma {:induction false} RowBitsUpdate(bits: seq<bool>, k: nat, b: bool)
    requires k < |bits|
    ensures RowBits(bits[k := b]) == RowBits(bits) - (if bits[k] then 1 else 0) + (if b then 1 else 0)
  {
    if k > 0 {
      assert bits[k := b][1..] == bits[1..][k - 1 := b];
      RowBitsUpdate(bits[1..], k - 1, b);
    } else {
      assert bits[0 := b][1..] == bits[1..];
    }
  }

  lemma {:induction false} SetBitsUpdate(st: Stations, w: nat, s: Station)
    requires w < |st|
    ensures SetBits(st[w := s]) == SetBits(st) - RowBits(st[w].bits) + RowBits(s.bits)
  {
    if w > 0 {
      assert st[w := s][1..] == st[1..][w - 1 := s];
      SetBitsUpdate(st[1..], w - 1, s);
    } else {
      assert st[0 := s][1..] == st[1..];
    }
  }

  lemma SetBitCounts(st: Stations, w: nat, tid: nat, b: bool)
    requires Sized(st) && IsKey(st, w, tid)
    ensures SetBits(SetBit(st, w, tid, b)) == SetBits(st) - (if Bit(st, w, tid) then 1 else 0) + (if b then 1 else 0)
  {
    RowBitsUpdate(st[w].bits, tid, b);
    SetBitsUpdate(st, w, st[w].(bits := st[w].bits[tid := b]));
  }

  lemma SetLinkCounts(st: Stations, w: nat, tid: nat, i: nat)
    requires Sized(st) && IsKey(st, w, tid)
    ensures SetBits(SetLink(st, w, tid, i)) == SetBits(st)
  {
    SetBitsUpdate(st, w, st[w].(link := st[w].link[tid := i]));
  }

  lemma {:induction false} NoRowBits(bits: seq<bool>)
    requires forall k :: 0 <= k < |bits| ==> !bits[k]
    ensures RowBits(bits) == 0
  {
    if bits != [] { NoRowBits(bits[1..]); }
  }

  lemma {:induction false} NoSetBits(st: Stations)
    requires forall w :: 0 <= w < |st| ==> forall k :: 0 <= k < |st[w].bits| ==> !st[w].bits[k]
    ensures SetBits(st) == 0
  {
    if st == [] {
    } else {
      NoRowBits(st[0].bits);
      NoSetBits(st[1..]);
    }
  }
}
