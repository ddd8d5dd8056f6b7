/** The singly linked list of mpdu blocks (struct reordering_list): the free list of the pool and the
    reordering list of a session, spliced through next pointers. */
module ReorderList {
  import opened Common
  import opened SeqNum
  import opened Reorder

  // struct reordering_mpdu
  class Block {
    var sn: int
    var packet: Packet
    var next: Block?

    constructor ()
      ensures sn == 0 && packet == 0 && next == null
    {
      sn, packet, next := 0, 0, null;
    }
  }

  // What insertion into the rest of a list makes of the whole.
  function Behind(front: seq<Mpdu>, r: Option<seq<Mpdu>>): Option<seq<Mpdu>> {
    match r
    case Some(q) => Some(front + q)
    case None => None
  }

  lemma BehindNothing(r: Option<seq<Mpdu>>)
    ensures Behind([], r) == r
  {
    if r.Some? { assert [] + r.value == r.value; }
  }

  lemma InsertHere(q: seq<Mpdu>, m: Mpdu)
    requires q != [] ==> !Smaller(q[0].sn, m.sn) && q[0].sn != m.sn
    ensures InsertSorted(q, m) == Some([m] + q)
  {
    if q == [] { assert [m] + q == [m]; }
  }

  lemma InsertPastHead(front: seq<Mpdu>, q: seq<Mpdu>, m: Mpdu)
    requires q != [] && Smaller(q[0].sn, m.sn)
    ensures Behind(front, InsertSorted(q, m)) == Behind(front + [q[0]], InsertSorted(q[1..], m))
  {
    if InsertSorted(q[1..], m).Some? {
      var r := InsertSorted(q[1..], m).value;
      assert front + ([q[0]] + r) == front + [q[0]] + r;
    }
  }

  class BlockList {
    var head: Block?
    var qlen: nat
    ghost var nodes: seq<Block>
    ghost var contents: seq<Mpdu>

    ghost predicate Valid()
      reads this, nodes
    {
      && qlen == |nodes| == |contents|
      && Distinct(nodes)
      && head == (if nodes == [] then null else nodes[0])
      && (forall i {:trigger nodes[i].next} :: 0 <= i < |nodes| ==> nodes[i].next == Next(nodes, i))
      && (forall i :: 0 <= i < |nodes| ==> contents[i] == Mpdu(nodes[i].sn, nodes[i].packet))
    }

    static ghost predicate Distinct(ns: seq<Block>) {
      forall i, j :: 0 <= i < j < |ns| ==> ns[i] != ns[j]
    }

    static lemma DistinctWith(ns: seq<Block>, k: nat, b: Block)
      requires Distinct(ns) && k <= |ns| && b !in ns
      ensures Distinct(ns[..k] + [b] + ns[k..])
    {
    }

    static ghost function Next(ns: seq<Block>, i: nat): Block?
      requires i < |ns|
    {
      if i + 1 < |ns| then ns[i + 1] else null
    }

    constructor ()
      ensures Valid() && nodes == []
    {
      head, qlen, nodes, contents := null, 0, [], [];
    }

    lemma HeadIs()
      requires Valid()
      ensures qlen == |contents| && (head == null <==> contents == [])
      ensures head != null ==> head.sn == contents[0].sn
    {
    }

    // ba_enqueue: push at the front.
    method Push(b: Block)
      requires Valid() && b !in nodes
      modifies this, b
      ensures Valid() && nodes == [b] + old(nodes)
      ensures b.sn == old(b.sn) && b.packet == old(b.packet)
      ensures contents == [Mpdu(b.sn, b.packet)] + old(contents)
    {
      qlen := qlen + 1;
      b.next := head;
      head := b;
      contents := [Mpdu(b.sn, b.packet)] + contents;
      nodes := [b] + nodes;
    }

    // ba_dequeue: take the front, if the count says there is one.
    method Pop() returns (b: Block?)
      requires Valid()
      modifies this, nodes
      ensures Valid()
      ensures b == null <==> old(nodes) == []
      ensures b == null ==> nodes == old(nodes) && contents == old(contents)
      ensures b != null ==> b == old(nodes)[0] && nodes == old(nodes)[1..] && contents == old(contents)[1..]
      ensures b != null ==> b.sn == old(contents)[0].sn && b.packet == old(contents)[0].packet && b.next == null
    {
      b := null;
      if qlen != 0 {
        qlen := qlen - 1;
        b := head;
        if b != null {
          head := b.next;
          b.next := null;
          nodes, contents := nodes[1..], contents[1..];
        }
      }
    }

    // ba_reordering_mpdu_insertsorted: walk to the position and splice the block in.
    method Insert(b: Block) returns (ok: bool)
      requires Valid() && b !in nodes
      modifies this, b, nodes
      ensures Valid() && b.sn == old(b.sn) && b.packet == old(b.packet)
      ensures ok <==> InsertSorted(old(contents), Mpdu(b.sn, b.packet)).Some?
      ensures ok ==> InsertSorted(old(contents), Mpdu(b.sn, b.packet)) == Some(contents)
      ensures ok ==> exists k :: 0 <= k <= |old(nodes)| && nodes == old(nodes)[..k] + [b] + old(nodes)[k..]
      ensures !ok ==> nodes == old(nodes) && contents == old(contents)
    {
      var prev: Block?, scan := null, head;
      ghost var k, m := 0, Mpdu(b.sn, b.packet);
      assert contents[..0] == [] && contents[0..] == contents;
      BehindNothing(InsertSorted(contents, m));
      while scan != null
        invariant 0 <= k <= |nodes|
        invariant prev == if k == 0 then null else nodes[k - 1]
        invariant scan == if k < |nodes| then nodes[k] else null
        invariant InsertSorted(contents, m) == Behind(contents[..k], InsertSorted(contents[k..], m))
        decreases |nodes| - k
        modifies {}
      {
        if Smaller(scan.sn, b.sn) {
          InsertPastHead(contents[..k], contents[k..], m);
          assert contents[..k] + [contents[k]] == contents[..k + 1] && contents[k..][1..] == contents[k + 1..];
          prev, scan, k := scan, scan.next, k + 1;
        } else if scan.sn == b.sn {
          return false;
        } else {
          break;
        }
      }
      InsertHere(contents[k..], m);
      assert contents[..k] + ([m] + contents[k..]) == contents[..k] + [m] + contents[k..];
      Splice(b, prev, scan, k);
      return true;
    }

    // The tail of the walk: link the block in before the k-th.
    method Splice(b: Block, prev: Block?, scan: Block?, ghost k: nat)
      requires Valid() && b !in nodes && k <= |nodes|
      requires prev == if k == 0 then null else nodes[k - 1]
      requires scan == if k < |nodes| then nodes[k] else null
      modifies this, b, nodes
      ensures Valid() && b.sn == old(b.sn) && b.packet == old(b.packet)
      ensures nodes == old(nodes)[..k] + [b] + old(nodes)[k..]
      ensures contents == old(contents)[..k] + [Mpdu(b.sn, b.packet)] + old(contents)[k..]
    {
      ghost var ns, q := nodes, contents;
      DistinctWith(ns, k, b);
      b.next := scan;
      if prev == null {
        head := b;
      } else {
        prev.next := b;
      }
      qlen := qlen + 1;
      contents := q[..k] + [Mpdu(b.sn, b.packet)] + q[k..];
      nodes := ns[..k] + [b] + ns[k..];
      forall i | 0 <= i < |nodes|
        ensures nodes[i].next == Next(nodes, i) && contents[i] == Mpdu(nodes[i].sn, nodes[i].packet)
      {
        assert nodes[i] == if i < k then ns[i] else if i == k then b else ns[i - 1];
      }
    }
  }
}
