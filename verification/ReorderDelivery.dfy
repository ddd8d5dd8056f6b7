/** The order of delivery in the whole system: every session of a system whose windows fit the pool
    delivers in order, whatever the other sessions do. */
module ReorderDelivery {
  import opened Reorder
  import opened ReorderWindow
  import opened ReorderSpec
  import opened ReorderOrder
  import opened ReorderRuns
  import opened ReorderSystem

  // The event reaches session i.
  predicate Reaches(e: SysEvent, i: nat) {
    match e
    case Ampdu(to, f, _) => to == Session(i) && (f.amsdu || f.size <= MAX_RX_PKT_LEN)
    case Local(j, _) => j == i
  }

  function EventOf(e: SysEvent): Event {
    match e
    case Ampdu(_, f, clk) => Frame(f, clk)
    case Local(_, ev) => ev
  }

  // What session i sees of a run: its own events, and the blocks that are free when they happen.
  function Project(y: Sys, run: seq<SysEvent>, i: nat): seq<Occurrence>
    requires PossibleRun(y, run)
    decreases |run|
  {
    if run == [] then []
    else
      var rest := Project(SysStep(y, run[0]), run[1..], i);
      if Reaches(run[0], i) then [Occurrence(EventOf(run[0]), y.free)] + rest else rest
  }

  lemma StepElsewhere(y: Sys, e: SysEvent, i: nat)
    requires Possible(y, e) && i < |y.entries| && !Reaches(e, i)
    ensures |SysStep(y, e).entries| == |y.entries| && SysStep(y, e).entries[i] == y.entries[i]
  {
    hide Step;
  }

  lemma StepHere(y: Sys, e: SysEvent, i: nat)
    requires Possible(y, e) && i < |y.entries| && Reaches(e, i)
    ensures Encodable(EventOf(e))
    ensures SysStep(y, e) == y.Put(i, Step(y.Rx(i), EventOf(e)))
  {
    hide Step;
  }

  // A frame that an orderly system has inside the window of a session is queued.
  lemma OrderlyQueues(y: Sys, num: nat, e: SysEvent, i: nat)
    requires Provisioned(y, num) && Possible(y, e) && Orderly(y, e, num) && i < |y.entries| && Reaches(e, i)
    ensures
      var ev := EventOf(e);
      && Deliverable(y.Rx(i), ev)
      && (ev.Frame? && InWindow(Flushed(y.Rx(i), ev.clk), ev.f) ==> Queues(Flushed(y.Rx(i), ev.clk), ev.f))
  {
    OrderlyAllocates(y, num, e);
    hide Flushed, InWindow, BeyondWindow, SysStep, Windows, Provisioned;
  }

  /** The run of the system, seen from session i, is a run of the session that queues, and leaves it in
      the same state. */
  lemma {:induction false} ProjectRuns(y: Sys, num: nat, run: seq<SysEvent>, i: nat, s: Rx)
    requires Provisioned(y, num) && PossibleRun(y, run) && OrderlyRun(y, num, run) && i < |y.entries|
    requires s.e == y.entries[i] && s.kept == 0
    ensures |SysRun(y, run).entries| == |y.entries|
    ensures
      var p := Project(y, run, i);
      Legal(s, p) && Queueing(s, p) && Run(s, p).e == SysRun(y, run).entries[i]
    decreases |run|
  {
    hide SysStep, Step, Orderly, Flushed, InWindow, Queues, Reaches;
    if run == [] {
    } else {
      var e, z, p := run[0], SysStep(y, run[0]), Project(y, run, i);
      StaysProvisioned(y, num, e);
      if Reaches(e, i) {
        StepHere(y, e, i);
        OrderlyQueues(y, num, e, i);
        var t := Step(y.Rx(i), EventOf(e));
        ProjectRuns(z, num, run[1..], i, t);
        assert p[1..] == Project(z, run[1..], i);
        assert Pooled(s, p[0]) == y.Rx(i);
      } else {
        StepElsewhere(y, e, i);
        ProjectRuns(z, num, run[1..], i, s);
      }
    }
  }

  // Some event of the run is a BlockAckReq to session i that starts at sn.
  predicate HasLocalBar(run: seq<SysEvent>, i: nat, sn: int) {
    exists k :: 0 <= k < |run| && run[k] == Local(i, Bar(sn))
  }

  lemma {:induction false} ProjectedBar(y: Sys, run: seq<SysEvent>, i: nat, sn: int, k: nat)
    requires PossibleRun(y, run) && k < |Project(y, run, i)| && Project(y, run, i)[k].ev == Bar(sn)
    ensures HasLocalBar(run, i, sn)
    decreases |run|
  {
    hide SysStep;
    if run == [] {
    } else {
      var rest := Project(SysStep(y, run[0]), run[1..], i);
      if Reaches(run[0], i) && k == 0 {
        assert run[0] == Local(i, Bar(sn));
      } else {
        ProjectedBar(SysStep(y, run[0]), run[1..], i, sn, if Reaches(run[0], i) then k - 1 else k);
        var m :| 0 <= m < |run[1..]| && run[1..][m] == Local(i, Bar(sn));
        assert run[m + 1] == Local(i, Bar(sn));
      }
    }
  }

  /** From a fresh session of a system whose grants fit the pool, over every run of all its sessions
      without an out-of-order EAPOL frame: the packets that the session hands up carry true numbers that
      never go back within an epoch, and a number is handed up twice only in a row, and only if a
      BlockAckReq to this session starts there. */
  lemma SystemDelivers(y: Sys, num: nat, run: seq<SysEvent>, i: nat)
    requires Provisioned(y, num) && PossibleRun(y, run) && OrderlyRun(y, num, run)
    requires i < |y.entries| && Fresh(y.entries[i])
    ensures |SysRun(y, run).entries| == |y.entries| && Legal(y.Rx(i), Project(y, run, i))
    ensures
      var sent := SysRun(y, run).entries[i].up;
      var up := SpecRun(y.Rx(i), FreshWindow(y.entries[i]), Project(y, run, i)).up;
      && LogIs(sent, up)
      && forall a, b :: 0 <= a < b < |up| ==>
           && up[a].epoch <= up[b].epoch
           && (up[a].epoch == up[b].epoch ==> up[a].num <= up[b].num)
           && (SameNum(up[a], up[b]) ==> b == a + 1 && HasLocalBar(run, i, sent[a].sn))
  {
    var s, p := y.Rx(i), Project(y, run, i);
    ProjectRuns(y, num, run, i, s);
    OnlyBarStartsRepeat(s, p);
    hide Legal, Run, SpecRun, Project, Queueing, LogIs;
    var sent := SysRun(y, run).entries[i].up;
    var up := SpecRun(s, FreshWindow(y.entries[i]), p).up;
    forall a, b | 0 <= a < b < |up| && SameNum(up[a], up[b]) ensures HasLocalBar(run, i, sent[a].sn) {
      assert HasBar(p, sent[a].sn);
      var k :| 0 <= k < |p| && p[k].ev == Bar(sent[a].sn);
      ProjectedBar(y, run, i, sent[a].sn, k);
    }
  }
}
