/** Deaggregation of a received A-MSDU in station mode, deaggregate_AMSDU_announce of
    common/cmm_data.c: subframe after subframe is cut out of the frame, its 802.3 header is rebuilt
    in place, and the packet is announced. */
module Amsdu {
  import opened Common

  const LENGTH_802_3 := 14
  const LENGTH_802_1_H := 8
  const MAC_ADDR_LEN := 6

  datatype Msdu = Msdu(da: Octets, sa: Octets, payload: Octets) {
    predicate WellFormed() {
      |da| == MAC_ADDR_LEN && |sa| == MAC_ADDR_LEN && |payload| < 0x1_0000
    }
  }

  // ---------- the encoding: section 8.3.2.2 of IEEE 802.11-2012 ----------

  function Subframe(m: Msdu): (s: Octets)
    requires m.WellFormed()
    ensures |s| == LENGTH_802_3 + |m.payload|
  {
    m.da + m.sa + [|m.payload| / 256, |m.payload| % 256] + m.payload
  }

  function Align(n: nat): (a: nat)
    ensures a % 4 == 0 && n <= a < n + 4
  {
    (n + 3) / 4 * 4
  }

  // Every subframe but the last is padded, with whatever bytes, to a multiple of 4.
  ghost predicate Encodes(s: Octets, ms: seq<Msdu>)
    requires forall m :: m in ms ==> m.WellFormed()
  {
    if ms == [] then s == []
    else if |ms| == 1 then s == Subframe(ms[0])
    else
      var n := Align(LENGTH_802_3 + |ms[0].payload|);
      n <= |s| && Subframe(ms[0]) <= s && Encodes(s[n..], ms[1..])
  }

  // ---------- the loop as a function of the frame ----------

  function PayloadSize(s: Octets): (p: nat)
    requires LENGTH_802_3 <= |s|
    ensures p < 0x1_0000
  {
    s[13] as int + s[12] as int * 256
  }

  // A 16-bit sum.
  function SubFrameSize(s: Octets): nat
    requires LENGTH_802_3 <= |s|
  {
    (PayloadSize(s) + LENGTH_802_3) % 0x1_0000
  }

  predicate Malformed(s: Octets)
    requires LENGTH_802_3 <= |s|
  {
    |s| < SubFrameSize(s) || PayloadSize(s) > 1518
  }

  function First(s: Octets): (m: Msdu)
    requires LENGTH_802_3 <= |s| && !Malformed(s)
    ensures m.WellFormed()
  {
    Msdu(s[..6], s[6..12], s[LENGTH_802_3..LENGTH_802_3 + PayloadSize(s)])
  }

  // Whether the loop goes on behind a subframe of n bytes.
  predicate Continues(n: nat) {
    32 <= Align(n) <= 1528
  }

  function Deaggregate(s: Octets): (ms: seq<Msdu>)
    ensures forall m :: m in ms ==> m.WellFormed()
  {
    if |s| <= LENGTH_802_3 || Malformed(s) then []
    else
      var n := SubFrameSize(s);
      if Continues(n) && Align(n) < |s| then [First(s)] + Deaggregate(s[Align(n)..]) else [First(s)]
  }

  // nMSDU counts the subframe at which the loop gives up as well.
  function Visited(s: Octets): nat {
    if |s| <= LENGTH_802_3 then 0
    else if Malformed(s) then 1
    else
      var n := SubFrameSize(s);
      if Continues(n) && Align(n) < |s| then 1 + Visited(s[Align(n)..]) else 1
  }

  // ---------- what is found in arbitrary bytes ----------

  function Starts(s: Octets): (ks: seq<nat>)
    ensures |ks| == |Deaggregate(s)|
  {
    if |s| <= LENGTH_802_3 || Malformed(s) then []
    else
      var n := SubFrameSize(s);
      if Continues(n) && Align(n) < |s| then [0] + Shift(Starts(s[Align(n)..]), Align(n)) else [0]
  }

  function Shift(ks: seq<nat>, d: nat): (r: seq<nat>)
    ensures |r| == |ks| && forall i :: 0 <= i < |ks| ==> r[i] == ks[i] + d
  {
    seq(|ks|, i requires 0 <= i < |ks| => ks[i] + d)
  }

  predicate CutAt(s: Octets, k: nat, m: Msdu)
    requires m.WellFormed()
  {
    && k + LENGTH_802_3 + |m.payload| <= |s|
    && s[k..k + LENGTH_802_3 + |m.payload|] == Subframe(m)
  }

  lemma FirstIsCut(s: Octets)
    requires LENGTH_802_3 <= |s| && !Malformed(s)
    ensures SubFrameSize(s) == LENGTH_802_3 + PayloadSize(s) && CutAt(s, 0, First(s))
    ensures |First(s).payload| == PayloadSize(s) && First(s).payload <= s[LENGTH_802_3..]
  {
    var p := PayloadSize(s);
    assert p / 256 == s[12] && p % 256 == s[13];
    assert s[..14 + p] == s[..6] + s[6..12] + s[12..14] + s[14..14 + p];
  }

  lemma CutShifts(s: Octets, d: nat, k: nat, m: Msdu)
    requires d <= |s| && m.WellFormed() && CutAt(s[d..], k, m)
    ensures CutAt(s, k + d, m)
  {
    assert s[d..][k..k + LENGTH_802_3 + |m.payload|] == s[k + d..k + d + LENGTH_802_3 + |m.payload|];
  }

  ghost predicate Laid(s: Octets, ms: seq<Msdu>, ks: seq<nat>)
    requires |ks| == |ms| && forall m :: m in ms ==> m.WellFormed()
  {
    Cuts(s, ms, ks) && Apart(ms, ks)
  }

  ghost predicate Cuts(s: Octets, ms: seq<Msdu>, ks: seq<nat>)
    requires |ks| == |ms| && forall m :: m in ms ==> m.WellFormed()
  {
    forall i :: 0 <= i < |ms| ==> ks[i] % 4 == 0 && CutAt(s, ks[i], ms[i])
  }

  ghost predicate Apart(ms: seq<Msdu>, ks: seq<nat>)
    requires |ks| == |ms|
  {
    forall i, j :: 0 <= i < j < |ms| ==> ks[i] + LENGTH_802_3 + |ms[i].payload| <= ks[j]
  }

  lemma CutsShift(s: Octets, m: Msdu, d: nat, ms: seq<Msdu>, ks: seq<nat>)
    requires m.WellFormed() && d <= |s| && d % 4 == 0 && CutAt(s, 0, m)
    requires |ks| == |ms| && (forall x :: x in ms ==> x.WellFormed()) && Cuts(s[d..], ms, ks)
    ensures Cuts(s, [m] + ms, [0] + Shift(ks, d))
  {
    hide CutAt;
    var ms', ks' := [m] + ms, [0] + Shift(ks, d);
    forall i | 0 <= i < |ms'| ensures ks'[i] % 4 == 0 && CutAt(s, ks'[i], ms'[i]) {
      if i > 0 {
        CutShifts(s, d, ks[i - 1], ms[i - 1]);
        assert ms'[i] == ms[i - 1] && ks'[i] == ks[i - 1] + d;
      }
    }
  }

  lemma ApartShift(m: Msdu, d: nat, ms: seq<Msdu>, ks: seq<nat>)
    requires LENGTH_802_3 + |m.payload| <= d && |ks| == |ms| && Apart(ms, ks)
    ensures Apart([m] + ms, [0] + Shift(ks, d))
  {
    var ms', ks' := [m] + ms, [0] + Shift(ks, d);
    forall i, j | 0 <= i < j < |ms'| ensures ks'[i] + LENGTH_802_3 + |ms'[i].payload| <= ks'[j] {
      if i > 0 {
        assert ks[i - 1] + LENGTH_802_3 + |ms[i - 1].payload| <= ks[j - 1];
      }
    }
  }

  /** Whatever the frame holds, every announced subframe is a slice of it, the slices start at
      multiples of 4, and they do not overlap. */
  lemma {:induction false} SlicesDisjoint(s: Octets)
    ensures Laid(s, Deaggregate(s), Starts(s))
    decreases |s|
  {
    if |s| <= LENGTH_802_3 || Malformed(s) {
    } else {
      FirstIsCut(s);
      var n := SubFrameSize(s);
      if Continues(n) && Align(n) < |s| {
        hide Cuts, Apart, First, CutAt, Malformed, SubFrameSize, Shift;
        var ms, ks := Deaggregate(s[Align(n)..]), Starts(s[Align(n)..]);
        SlicesDisjoint(s[Align(n)..]);
        CutsShift(s, First(s), Align(n), ms, ks);
        ApartShift(First(s), Align(n), ms, ks);
      }
    }
  }

  // What is left of the frame when the loop ends: at most a header, or a subframe it gives up on.
  function LeftOver(s: Octets): (r: Octets)
    ensures |r| > LENGTH_802_3 ==> PayloadSize(r) > 1518 || LENGTH_802_3 + PayloadSize(r) > |r|
  {
    if |s| <= LENGTH_802_3 || Malformed(s) then s
    else
      var n := SubFrameSize(s);
      if Continues(n) && Align(n) < |s| then LeftOver(s[Align(n)..]) else []
  }

  /** nMSDU is the number announced, and one more if the loop ended at a subframe it gave up on. */
  lemma {:induction false} VisitedExact(s: Octets)
    ensures Visited(s) == |Deaggregate(s)| + if |LeftOver(s)| > 14 then 1 else 0
    decreases |s|
  {
    if |s| <= LENGTH_802_3 || Malformed(s) {
    } else if Continues(SubFrameSize(s)) && Align(SubFrameSize(s)) < |s| {
      VisitedExact(s[Align(SubFrameSize(s))..]);
    }
  }

  // ---------- parsing against encoding ----------

  // Every MSDU but the last has 15 to 1514 bytes, and the last 1 to 1518.
  predicate Carried(ms: seq<Msdu>) {
    && (forall i :: 0 <= i < |ms| - 1 ==> 15 <= |ms[i].payload| <= 1514)
    && (ms != [] ==> 1 <= |ms[|ms| - 1].payload| <= 1518)
  }

  lemma SubframeHeads(s: Octets, m: Msdu)
    requires m.WellFormed() && Subframe(m) <= s
    ensures |m.payload| <= 1518 ==> !Malformed(s) && First(s) == m && SubFrameSize(s) == LENGTH_802_3 + |m.payload|
    ensures |m.payload| > 1518 ==> Malformed(s)
  {
    var p := |m.payload|;
    var sub := Subframe(m);
    assert s[12] == sub[12] && s[13] == sub[13];
    if p <= 1518 {
      assert s[..6] == sub[..6] == m.da;
      assert s[6..12] == sub[6..12] == m.sa;
      assert s[14..14 + p] == sub[14..] == m.payload;
    }
  }

  lemma ContinuesIff(p: nat)
    ensures Continues(LENGTH_802_3 + p) <==> 15 <= p <= 1514
  {
  }

  lemma DeaggregateStep(s: Octets)
    requires LENGTH_802_3 < |s|
    ensures Malformed(s) ==> Deaggregate(s) == []
    ensures !Malformed(s) ==>
      var d := Align(SubFrameSize(s));
      Deaggregate(s) ==
        if Continues(SubFrameSize(s)) && d < |s| then [First(s)] + Deaggregate(s[d..]) else [First(s)]
  {
    hide PayloadSize, SubFrameSize, Malformed, First, Continues, Align;
  }

  // An encoded frame of several MSDUs, parsed one subframe further.
  lemma ParsesFirst(s: Octets, m: Msdu)
    requires m.WellFormed() && Subframe(m) <= s && LENGTH_802_3 < |s|
    ensures
      var p, d := |m.payload|, Align(LENGTH_802_3 + |m.payload|);
      && (p > 1518 ==> Deaggregate(s) == [])
      && (p <= 1518 && !(15 <= p <= 1514 && d < |s|) ==> Deaggregate(s) == [m])
      && (15 <= p <= 1514 && d < |s| ==> Deaggregate(s) == [m] + Deaggregate(s[d..]))
  {
    hide Deaggregate, PayloadSize, SubFrameSize, Malformed, First, Subframe, Continues, Align;
    DeaggregateStep(s);
    SubframeHeads(s, m);
    ContinuesIff(|m.payload|);
  }

  /** The parse of an encoded frame gives back exactly the MSDUs put into it if and only if their
      lengths are in range. */
  lemma {:induction false} ParseInvertsEncoding(s: Octets, ms: seq<Msdu>)
    requires forall m :: m in ms ==> m.WellFormed()
    requires Encodes(s, ms)
    ensures Deaggregate(s) == ms <==> Carried(ms)
    decreases |ms|
  {
    hide Deaggregate, Subframe, Align;
    if ms == [] {
      ParsesNothing(s);
    } else if |ms| == 1 {
      assert Subframe(ms[0]) == s;
      if |ms[0].payload| == 0 {
        ParsesNothing(s);
      } else {
        ParsesFirst(s, ms[0]);
      }
      assert ms == [ms[0]];
    } else {
      hide Carried;
      var m, d := ms[0], Align(LENGTH_802_3 + |ms[0].payload|);
      assert Subframe(m) <= s;
      EncodedNonEmpty(s[d..], ms[1..]);
      ParsesFirst(s, m);
      ParseInvertsEncoding(s[d..], ms[1..]);
      CarriedTail(ms);
      assert ms == [m] + ms[1..];
    }
  }

  lemma ParsesNothing(s: Octets)
    requires |s| <= LENGTH_802_3
    ensures Deaggregate(s) == []
  {
  }

  lemma EncodedNonEmpty(s: Octets, ms: seq<Msdu>)
    requires ms != [] && (forall m :: m in ms ==> m.WellFormed()) && Encodes(s, ms)
    ensures LENGTH_802_3 <= |s|
  {
    assert Subframe(ms[0]) <= s;
  }

  lemma CarriedTail(ms: seq<Msdu>)
    requires |ms| > 1
    ensures Carried(ms) <==> 15 <= |ms[0].payload| <= 1514 && Carried(ms[1..])
  {
    var t := ms[1..];
    assert t[|t| - 1] == ms[|ms| - 1];
    if 15 <= |ms[0].payload| <= 1514 && Carried(t) {
      forall i | 0 <= i < |ms| - 1 ensures 15 <= |ms[i].payload| <= 1514 {
        assert i > 0 ==> ms[i] == t[i - 1];
      }
    }
    if Carried(ms) {
      forall i | 0 <= i < |t| - 1 ensures 15 <= |t[i].payload| <= 1514 {
        assert t[i] == ms[i + 1];
      }
    }
  }

  // ---------- the packet announced ----------

  const SNAP_802_1H: Octets := [0xaa, 0xaa, 0x03, 0x00, 0x00, 0x00]
  const SNAP_BRIDGE_TUNNEL: Octets := [0xaa, 0xaa, 0x03, 0x00, 0x00, 0xf8]
  const IPX: Octets := [0x81, 0x37]
  const APPLE_TALK: Octets := [0x80, 0xf3]

  // CONVERT_TO_802_3: whether the LLC/SNAP header at the start of the payload is taken off.
  predicate RemovesSnap(b: Octets)
    requires LENGTH_802_1_H <= |b|
  {
    || b[..6] == SNAP_BRIDGE_TUNNEL
    || (b[..6] == SNAP_802_1H && b[6..8] != IPX && b[6..8] != APPLE_TALK)
  }

  // The packet for a payload of at least 8 bytes: an 802.3 frame where SNAP was taken off, and
  // otherwise the payload alone.
  function Packet(m: Msdu): Octets
    requires LENGTH_802_1_H <= |m.payload|
  {
    if RemovesSnap(m.payload) then m.da + m.sa + m.payload[6..8] + m.payload[8..] else m.payload
  }

  /** The packet starts with the addresses of the MSDU, as an Ethernet frame has to, if and only if a
      SNAP header was taken off or the payload happens to start with them. */
  lemma PacketIsAddressedIff(m: Msdu)
    requires m.WellFormed() && LENGTH_802_1_H <= |m.payload|
    ensures m.da + m.sa <= Packet(m) <==> RemovesSnap(m.payload) || m.da + m.sa <= m.payload
  {
  }

  /** The packets in bytes: a SNAP header of RFC 1042 is taken off except in front of IPX and AppleTalk
      address resolution, a bridge tunnel header always, and everything else stays. */
  lemma PacketInBytes(da: Octets, sa: Octets, kind: Octets, rest: Octets)
    requires |da| == MAC_ADDR_LEN && |sa| == MAC_ADDR_LEN && |kind| == 2
    ensures
      var p := [0xaa, 0xaa, 0x03, 0, 0, 0] + kind + rest;
      Packet(Msdu(da, sa, p)) == if kind == [0x81, 0x37] || kind == [0x80, 0xf3] then p else da + sa + kind + rest
    ensures
      Packet(Msdu(da, sa, [0xaa, 0xaa, 0x03, 0, 0, 0xf8] + kind + rest)) == da + sa + kind + rest
  {
    var p, q := [0xaa, 0xaa, 0x03, 0, 0, 0] + kind + rest, [0xaa, 0xaa, 0x03, 0, 0, 0xf8] + kind + rest;
    assert p[..6] == [0xaa, 0xaa, 0x03, 0, 0, 0] && p[6..8] == kind && p[8..] == rest && p[..6][5] == 0;
    assert q[..6] == [0xaa, 0xaa, 0x03, 0, 0, 0xf8] && q[6..8] == kind && q[8..] == rest;
    assert SNAP_BRIDGE_TUNNEL[5] == 0xf8;
  }

  lemma OtherPacket(m: Msdu)
    requires m.WellFormed() && LENGTH_802_1_H <= |m.payload|
    requires m.payload[..6] != [0xaa, 0xaa, 0x03, 0, 0, 0] && m.payload[..6] != [0xaa, 0xaa, 0x03, 0, 0, 0xf8]
    ensures Packet(m) == m.payload
  {
  }

  /** A payload with another LLC header, of a bridge protocol data unit say, is handed up bare. */
  lemma BarePacket(da: Octets, sa: Octets)
    requires |da| == MAC_ADDR_LEN && |sa| == MAC_ADDR_LEN && da[0] != 0x42
    ensures
      var m := Msdu(da, sa, [0x42, 0x42, 0x03, 0, 0, 0, 0, 0]);
      Packet(m) == m.payload && !(m.da + m.sa <= Packet(m))
  {
    var m := Msdu(da, sa, [0x42, 0x42, 0x03, 0, 0, 0, 0, 0]);
    assert m.payload[..6][0] == 0x42 && SNAP_802_1H[0] == 0xaa && SNAP_BRIDGE_TUNNEL[0] == 0xaa;
    assert (m.da + m.sa)[0] == da[0];
  }

  // The packet for a payload of len bytes that starts body.  The test for SNAP looks at 8 bytes
  // whether or not the payload has them.
  function Announced(da: Octets, sa: Octets, body: Octets, len: nat): Octets
    requires |da| == MAC_ADDR_LEN && |sa| == MAC_ADDR_LEN && LENGTH_802_1_H <= |body| && len <= |body|
  {
    if RemovesSnap(body) then (da + sa + body[6..8] + body[8..])[..len + 6] else body[..len]
  }

  // The packet for a payload of len bytes whose subframe starts at pos.
  function AnnouncedAt(b: Octets, pos: nat, len: nat): Octets
    requires pos + LENGTH_802_3 + LENGTH_802_1_H <= |b| && pos + LENGTH_802_3 + len <= |b|
  {
    Announced(b[pos..pos + 6], b[pos + 6..pos + 12], b[pos + LENGTH_802_3..], len)
  }

  // The packets in announcing order; s is the frame and the room behind it, and the frame has size bytes.
  function Packets(s: Octets, size: nat): (ps: seq<Octets>)
    requires size + LENGTH_802_1_H <= |s|
    decreases size
  {
    var f := s[..size];
    if size <= LENGTH_802_3 || Malformed(f) then []
    else
      var n, m := SubFrameSize(f), First(f);
      var p := Announced(m.da, m.sa, s[LENGTH_802_3..], |m.payload|);
      if Continues(n) && Align(n) < size then [p] + Packets(s[Align(n)..], size - Align(n)) else [p]
  }

  // The packet for m when behind follows its payload in memory.
  function Handed(m: Msdu, behind: Octets): Octets
    requires m.WellFormed() && LENGTH_802_1_H <= |behind|
  {
    Announced(m.da, m.sa, m.payload + behind, |m.payload|)
  }

  /** What follows in memory matters only to a payload shorter than a SNAP header. */
  lemma HandedIsPacket(m: Msdu, behind: Octets)
    requires m.WellFormed() && LENGTH_802_1_H <= |m.payload| && LENGTH_802_1_H <= |behind|
    ensures Handed(m, behind) == Packet(m)
  {
    var body, len := m.payload + behind, |m.payload|;
    assert body[..6] == m.payload[..6] && body[6..8] == m.payload[6..8] && body[..len] == m.payload;
    assert (body[8..])[..len - 8] == m.payload[8..];
    var h := m.da + m.sa + body[6..8];
    assert (h + body[8..])[..len + 6] == h + (body[8..])[..len - 8];
  }

  // The packets for ms when behind follows the last payload.
  function AllPackets(ms: seq<Msdu>, behind: Octets): seq<Octets>
    requires (forall m :: m in ms ==> m.WellFormed()) && LENGTH_802_1_H <= |behind|
  {
    if ms == [] then [] else [Handed(ms[0], behind)] + AllPackets(ms[1..], behind)
  }

  lemma AllPacketsCons(m: Msdu, ms: seq<Msdu>, behind: Octets)
    requires m.WellFormed() && (forall x :: x in ms ==> x.WellFormed()) && LENGTH_802_1_H <= |behind|
    ensures forall x :: x in [m] + ms ==> x.WellFormed()
    ensures AllPackets([m] + ms, behind) == [Handed(m, behind)] + AllPackets(ms, behind)
  {
    hide Handed;
    assert ([m] + ms)[1..] == ms;
  }

  // What follows the payload of the last subframe that is found, in the frame and the room behind it.
  function Behind(s: Octets, size: nat): (r: Octets)
    requires size + LENGTH_802_1_H <= |s|
    ensures LENGTH_802_1_H <= |r|
    decreases size
  {
    var f := s[..size];
    if size <= LENGTH_802_3 || Malformed(f) then s
    else
      FirstIsCut(f);
      var d := Align(SubFrameSize(f));
      if Continues(SubFrameSize(f)) && d < size then Behind(s[d..], size - d)
      else s[LENGTH_802_3 + PayloadSize(f)..]
  }

  /** The packets announced are those of the subframes, in order. */
  lemma {:induction false} PacketsOfSubframes(s: Octets, size: nat)
    requires size + LENGTH_802_1_H <= |s|
    ensures Packets(s, size) == AllPackets(Deaggregate(s[..size]), Behind(s, size))
    decreases size
  {
    hide AllPackets, Packet, Handed, AnnouncedAt, Deaggregate, Packets, Behind;
    hide Malformed, SubFrameSize, PayloadSize, Continues, First, Align;
    var f, r := s[..size], Behind(s, size);
    if size <= LENGTH_802_3 || Malformed(f) {
      NoPackets(s, size);
      AllPacketsNone(r);
    } else {
      DeaggregateStep(f);
      PacketsStep(s, size);
      BehindStep(s, size);
      var n, m := SubFrameSize(f), First(f);
      if Continues(n) && Align(n) < size {
        var d := Align(n);
        FirstAnnounced(s, size, r);
        AllPacketsCons(m, Deaggregate(f[d..]), r);
        assert s[d..][..size - d] == f[d..];
        PacketsOfSubframes(s[d..], size - d);
      } else {
        assert [m] + [] == [m];
        FirstAnnounced(s, size, r);
        AllPacketsCons(m, [], r);
        AllPacketsNone(r);
      }
    }
  }

  lemma NoPackets(s: Octets, size: nat)
    requires size + LENGTH_802_1_H <= |s| && (size <= LENGTH_802_3 || Malformed(s[..size]))
    ensures Packets(s, size) == [] && Deaggregate(s[..size]) == []
  {
    hide Malformed, SubFrameSize, PayloadSize;
  }

  lemma PacketsStep(s: Octets, size: nat)
    requires size + LENGTH_802_1_H <= |s| && LENGTH_802_3 < size && !Malformed(s[..size])
    ensures LENGTH_802_3 + PayloadSize(s[..size]) <= |s|
    ensures
      var f := s[..size];
      var d, p := Align(SubFrameSize(f)), AnnouncedAt(s, 0, PayloadSize(f));
      Packets(s, size) ==
        if Continues(SubFrameSize(f)) && d < size then [p] + Packets(s[d..], size - d) else [p]
  {
    hide Announced, Malformed, SubFrameSize, PayloadSize, Continues, Align;
    var f := s[..size];
    FirstIsCut(f);
    assert f[..6] == s[0..6] && f[6..12] == s[6..12];
  }

  lemma BehindStep(s: Octets, size: nat)
    requires size + LENGTH_802_1_H <= |s| && LENGTH_802_3 < size && !Malformed(s[..size])
    ensures LENGTH_802_3 + PayloadSize(s[..size]) <= |s|
    ensures
      var f := s[..size];
      var d := Align(SubFrameSize(f));
      Behind(s, size) ==
        if Continues(SubFrameSize(f)) && d < size then Behind(s[d..], size - d)
        else s[LENGTH_802_3 + PayloadSize(f)..]
  {
    hide Malformed, SubFrameSize, PayloadSize, Continues, Align;
    FirstIsCut(s[..size]);
  }

  // The first subframe: whatever is behind it matters only if it is also the last.
  lemma FirstAnnounced(s: Octets, size: nat, r: Octets)
    requires size + LENGTH_802_1_H <= |s| && LENGTH_802_3 < size && !Malformed(s[..size]) && LENGTH_802_1_H <= |r|
    requires LENGTH_802_3 + PayloadSize(s[..size]) <= |s|
    requires Continues(SubFrameSize(s[..size])) || r == s[LENGTH_802_3 + PayloadSize(s[..size])..]
    ensures AnnouncedAt(s, 0, PayloadSize(s[..size])) == Handed(First(s[..size]), r)
  {
    hide Announced, Malformed, SubFrameSize, PayloadSize, Packet;
    var f := s[..size];
    FirstIsCut(f);
    var m, own := First(f), s[LENGTH_802_3 + PayloadSize(f)..];
    assert f[LENGTH_802_3..] <= s[LENGTH_802_3..];
    assert s[LENGTH_802_3..] == m.payload + own;
    assert f[..6] == s[0..6] && f[6..12] == s[6..12];
    if Continues(SubFrameSize(f)) {
      ContinuesIff(PayloadSize(f));
      HandedIsPacket(m, own);
      HandedIsPacket(m, r);
    }
  }

  lemma AllPacketsNone(r: Octets)
    requires LENGTH_802_1_H <= |r|
    ensures AllPackets([], r) == []
  {
  }

  // In an encoded frame what follows the last payload is what follows the frame.
  lemma {:induction false} BehindEncoded(s: Octets, size: nat, ms: seq<Msdu>)
    requires size + LENGTH_802_1_H <= |s| && ms != [] && forall m :: m in ms ==> m.WellFormed()
    requires Encodes(s[..size], ms) && Carried(ms)
    ensures Behind(s, size) == s[size..]
    decreases |ms|
  {
    hide Behind, Subframe, Align;
    var f, m, p := s[..size], ms[0], |ms[0].payload|;
    assert Subframe(m) <= f;
    SubframeHeads(f, m);
    ContinuesIff(p);
    FirstIsCut(f);
    if |ms| == 1 {
      BehindStep(s, size);
    } else {
      var d := Align(LENGTH_802_3 + p);
      CarriedTail(ms);
      hide Carried;
      EncodedNonEmpty(f[d..], ms[1..]);
      BehindStep(s, size);
      assert s[d..][..size - d] == f[d..];
      BehindEncoded(s[d..], size - d, ms[1..]);
      assert s[d..][size - d..] == s[size..];
    }
  }

  /** A whole A-MSDU: what the station hands up are the packets of the MSDUs that were sent, in order. */
  lemma EncodedIsAnnounced(s: Octets, size: nat, ms: seq<Msdu>)
    requires size + LENGTH_802_1_H <= |s|
    requires forall m :: m in ms ==> m.WellFormed()
    requires Encodes(s[..size], ms) && Carried(ms)
    ensures Packets(s, size) == AllPackets(ms, s[size..])
  {
    hide AllPackets, Packets, Behind, Carried, Encodes, Deaggregate;
    ParseInvertsEncoding(s[..size], ms);
    PacketsOfSubframes(s, size);
    if ms == [] {
      AllPacketsNone(Behind(s, size));
      AllPacketsNone(s[size..]);
    } else {
      BehindEncoded(s, size, ms);
    }
  }

  // ---------- the loop itself ----------

  // One subframe at pos: the packet is cut out of the buffer after its header has been written
  // over the end of the subframe header and the start of the SNAP header.
  method Announce(buf: array<Octet>, pos: nat, len: nat) returns (packet: Octets)
    requires pos + LENGTH_802_3 + LENGTH_802_1_H <= buf.Length && pos + LENGTH_802_3 + len <= buf.Length
    requires len <= 1518
    modifies buf
    ensures packet == AnnouncedAt(old(buf[..]), pos, len)
    ensures buf[..][pos + 22..] == old(buf[..])[pos + 22..]
  {
    ghost var b := buf[..];
    ghost var body := b[pos + LENGTH_802_3..];
    assert buf[pos..pos + 6] == b[pos..pos + 6] && buf[pos + 6..pos + 12] == b[pos + 6..pos + 12];
    var payload, payloadSize := pos + LENGTH_802_3, len;
    var snap, proto := buf[payload..payload + 6], buf[payload + 6..payload + 8];
    assert snap == body[..6] && proto == body[6..8] && buf[pos + 22..] == body[8..] == b[pos + 22..];
    if (snap == SNAP_802_1H || snap == SNAP_BRIDGE_TUNNEL)
      && !((proto == IPX || proto == APPLE_TALK) && snap == SNAP_802_1H) {
      SnapRemoved(body);
      var header := buf[pos..pos + 6] + buf[pos + 6..pos + 12] + proto;
      payloadSize := (payloadSize - LENGTH_802_1_H) % 0x1_0000;
      payload := payload + LENGTH_802_1_H;
      payload := payload - LENGTH_802_3;
      payloadSize := (payloadSize + LENGTH_802_3) % 0x1_0000;
      packet := Rewrite(buf, payload, header, payloadSize);
    } else {
      SnapKept(body);
      packet := buf[payload..payload + payloadSize];
      assert packet == body[..len];
    }
    assert buf[..][pos + 22..] == buf[pos + 22..];
  }

  lemma SnapRemoved(b: Octets)
    requires LENGTH_802_1_H <= |b| && (b[..6] == SNAP_802_1H || b[..6] == SNAP_BRIDGE_TUNNEL)
    requires !((b[6..8] == IPX || b[6..8] == APPLE_TALK) && b[..6] == SNAP_802_1H)
    ensures RemovesSnap(b)
  {
  }

  lemma SnapKept(b: Octets)
    requires LENGTH_802_1_H <= |b|
    requires !(b[..6] == SNAP_802_1H || b[..6] == SNAP_BRIDGE_TUNNEL)
      || ((b[6..8] == IPX || b[6..8] == APPLE_TALK) && b[..6] == SNAP_802_1H)
    ensures !RemovesSnap(b)
  {
    assert SNAP_802_1H[5] != SNAP_BRIDGE_TUNNEL[5];
  }

  method Rewrite(buf: array<Octet>, at: nat, header: Octets, n: nat) returns (packet: Octets)
    requires |header| == LENGTH_802_3 && at + LENGTH_802_3 <= buf.Length && at + n <= buf.Length
    modifies buf
    ensures packet == (header + old(buf[at + LENGTH_802_3..]))[..n]
    ensures buf[at + LENGTH_802_3..] == old(buf[at + LENGTH_802_3..])
  {
    ghost var behind := buf[at + LENGTH_802_3..];
    forall i | 0 <= i < LENGTH_802_3 {
      buf[at + i] := header[i];
    }
    assert buf[at..] == header + behind;
    packet := buf[at..at + n];
    assert packet == buf[at..][..n];
  }

  // One pass: the packet of the subframe at pos unless it is malformed, and the aligned size.
  method Visit(buf: array<Octet>, ghost s: Octets, pos: nat, size: nat) returns (packet: Option<Octets>, n: nat)
    requires pos + size + LENGTH_802_1_H <= |s| == buf.Length && LENGTH_802_3 < size && buf[..][pos..] == s[pos..]
    modifies buf
    ensures packet.None? ==> PacketsFrom(s, pos, size) == [] && VisitedFrom(s, pos, size) == 1
    ensures packet.Some? && 32 <= n <= 1528 && n < size ==>
      && PacketsFrom(s, pos, size) == [packet.value] + PacketsFrom(s, pos + n, size - n)
      && VisitedFrom(s, pos, size) == 1 + VisitedFrom(s, pos + n, size - n)
      && buf[..][pos + n..] == s[pos + n..]
    ensures packet.Some? && !(32 <= n <= 1528 && n < size) ==>
      PacketsFrom(s, pos, size) == [packet.value] && VisitedFrom(s, pos, size) == 1
  {
    hide PacketsFrom, VisitedFrom, AnnouncedAt, Align;
    ghost var b := buf[..];
    Pass(b, s, pos, size);
    var payloadSize := buf[pos + 13] as int + buf[pos + 12] as int * 256;
    var subFrameSize := (payloadSize + LENGTH_802_3) % 0x1_0000;
    packet, n := None, 0;
    if !(size < subFrameSize || payloadSize > 1518) {
      var p := Announce(buf, pos, payloadSize);
      packet, n := Some(p), Align(subFrameSize);
      if 32 <= n < size {
        SameBehind(buf[..], s, pos, n);
      }
    }
  }

  /** deaggregate_AMSDU_announce: although every announced subframe is overwritten in the buffer, the
      packets are those of the frame as it was received. */
  method DeaggregateAnnounce(buf: array<Octet>, dataSize: nat) returns (nMSDU: nat, packets: seq<Octets>)
    requires dataSize + LENGTH_802_1_H <= buf.Length
    modifies buf
    ensures packets == Packets(old(buf[..]), dataSize) && nMSDU == Visited(old(buf[..])[..dataSize])
  {
    hide PacketsFrom, VisitedFrom, Packets, Visited;
    nMSDU, packets := 0, [];
    ghost var s, gaveUp := buf[..], false;
    var pos: nat, size: nat := 0, dataSize;
    FromStart(s, dataSize);
    while size > LENGTH_802_3
      invariant !gaveUp && pos + size + LENGTH_802_1_H <= |s| == buf.Length
      invariant size > 0 ==> buf[..][pos..] == s[pos..]
      invariant packets + PacketsFrom(s, pos, size) == PacketsFrom(s, 0, dataSize)
      invariant nMSDU + VisitedFrom(s, pos, size) == VisitedFrom(s, 0, dataSize)
      decreases size
    {
      nMSDU := nMSDU + 1;
      var packet, subFrameSize := Visit(buf, s, pos, size);
      if packet.None? {
        gaveUp := true;
        break;
      }
      packets := packets + [packet.value];
      if subFrameSize > 1528 || subFrameSize < 32 {
        gaveUp := true;
        break;
      }
      if size > subFrameSize {
        pos, size := pos + subFrameSize, size - subFrameSize;
      } else {
        size := 0;
        NothingLeft(s, pos, size);
      }
    }
    if !gaveUp {
      NothingLeft(s, pos, size);
    }
  }

  // The packets and the count of the size bytes at pos.
  function PacketsFrom(s: Octets, pos: nat, size: nat): seq<Octets>
    requires pos + size + LENGTH_802_1_H <= |s|
  {
    Packets(s[pos..], size)
  }

  function VisitedFrom(s: Octets, pos: nat, size: nat): nat
    requires pos + size <= |s|
  {
    Visited(s[pos..pos + size])
  }

  lemma FromStart(s: Octets, size: nat)
    requires size + LENGTH_802_1_H <= |s|
    ensures PacketsFrom(s, 0, size) == Packets(s, size) && VisitedFrom(s, 0, size) == Visited(s[..size])
  {
    assert s[0..] == s;
  }

  lemma NothingLeft(s: Octets, pos: nat, size: nat)
    requires pos + size + LENGTH_802_1_H <= |s| && size <= LENGTH_802_3
    ensures PacketsFrom(s, pos, size) == [] && VisitedFrom(s, pos, size) == 0
  {
  }

  lemma Sizes(b: Octets, s: Octets, pos: nat, size: nat)
    requires |b| == |s| && pos + size <= |s| && LENGTH_802_3 < size && b[pos..] == s[pos..]
    ensures
      var f, p := s[pos..pos + size], b[pos + 13] as int + b[pos + 12] as int * 256;
      && PayloadSize(f) == p && SubFrameSize(f) == (p + LENGTH_802_3) % 0x1_0000
      && (Malformed(f) <==> size < SubFrameSize(f) || p > 1518)
      && (p <= 1518 ==> SubFrameSize(f) == p + LENGTH_802_3)
  {
    assert b[pos..][12] == s[pos..][12] && b[pos..][13] == s[pos..][13];
  }

  lemma SameBehind(b: Octets, s: Octets, pos: nat, d: nat)
    requires |b| == |s| && 22 <= d && pos + d <= |s| && b[pos + 22..] == s[pos + 22..]
    ensures b[pos + d..] == s[pos + d..]
  {
    assert b[pos + d..] == b[pos + 22..][d - 22..] && s[pos + d..] == s[pos + 22..][d - 22..];
  }

  lemma SameSlices(b: Octets, s: Octets, pos: nat)
    requires |b| == |s| && pos + 22 <= |s| && b[pos..] == s[pos..]
    ensures b[pos..pos + 6] == s[pos..pos + 6] && b[pos + 6..pos + 12] == s[pos + 6..pos + 12]
    ensures b[pos + LENGTH_802_3..] == s[pos + LENGTH_802_3..] && b[pos + 22..] == s[pos + 22..]
  {
    assert b[pos..pos + 6] == b[pos..][..6] && s[pos..pos + 6] == s[pos..][..6];
    assert b[pos + 6..pos + 12] == b[pos..][6..12] && s[pos + 6..pos + 12] == s[pos..][6..12];
    assert b[pos + 14..] == b[pos..][14..] && s[pos + 14..] == s[pos..][14..];
    assert b[pos + 22..] == b[pos..][22..] && s[pos + 22..] == s[pos..][22..];
  }

  // What one pass of the loop does with the rest of the frame.
  lemma Unroll(s: Octets, pos: nat, size: nat)
    requires pos + size + LENGTH_802_1_H <= |s| && LENGTH_802_3 < size
    ensures
      var f := s[pos..pos + size];
      var p, n, d := PayloadSize(f), SubFrameSize(f), Align(SubFrameSize(f));
      if Malformed(f) then
        PacketsFrom(s, pos, size) == [] && VisitedFrom(s, pos, size) == 1
      else
        var packet := AnnouncedAt(s, pos, p);
        if Continues(n) && d < size then
          && PacketsFrom(s, pos, size) == [packet] + PacketsFrom(s, pos + d, size - d)
          && VisitedFrom(s, pos, size) == 1 + VisitedFrom(s, pos + d, size - d)
        else
          PacketsFrom(s, pos, size) == [packet] && VisitedFrom(s, pos, size) == 1
  {
    hide Announced, Align, Malformed, SubFrameSize, PayloadSize, Continues;
    var r, f := s[pos..], s[pos..pos + size];
    assert r[..size] == f;
    if !Malformed(f) {
      FirstIsCut(f);
      assert f[..6] == s[pos..pos + 6] && f[6..12] == s[pos + 6..pos + 12];
      assert r[LENGTH_802_3..] == s[pos + LENGTH_802_3..];
      var d := Align(SubFrameSize(f));
      if d < size {
        assert r[d..] == s[pos + d..] && f[d..] == s[pos + d..pos + size];
      }
    }
  }

  // The same, read off a buffer that still holds the rest of the frame.
  lemma Pass(b: Octets, s: Octets, pos: nat, size: nat)
    requires |b| == |s| && pos + size + LENGTH_802_1_H <= |s| && LENGTH_802_3 < size && b[pos..] == s[pos..]
    ensures b[pos + 22..] == s[pos + 22..]
    ensures
      var p := b[pos + 13] as int + b[pos + 12] as int * 256;
      var n := (p + LENGTH_802_3) % 0x1_0000;
      if size < n || p > 1518 then
        PacketsFrom(s, pos, size) == [] && VisitedFrom(s, pos, size) == 1
      else
        var d, packet := Align(n), AnnouncedAt(b, pos, p);
        if 32 <= d <= 1528 && d < size then
          && PacketsFrom(s, pos, size) == [packet] + PacketsFrom(s, pos + d, size - d)
          && VisitedFrom(s, pos, size) == 1 + VisitedFrom(s, pos + d, size - d)
        else
          PacketsFrom(s, pos, size) == [packet] && VisitedFrom(s, pos, size) == 1
  {
    hide PacketsFrom, VisitedFrom, Announced, Align, SubFrameSize, PayloadSize, Malformed;
    SameSlices(b, s, pos);
    Sizes(b, s, pos, size);
    Unroll(s, pos, size);
  }
}
