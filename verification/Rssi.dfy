/** The running averages of signal strength and signal-to-noise ratio, Update_Rssi_Sample of
    common/cmm_data.c: an 8-bit average kept with three more bits of precision in a 16-bit word. */
module Rssi {
  import opened Common

  type Char = x: int | -128 <= x < 128
  type Short = x: int | -32768 <= x < 32768

  function ToChar(x: int): Char { (x + 128) % 256 - 128 }
  function ToShort(x: int): Short { (x + 32768) % 65536 - 32768 }

  // Last, Avg and AvgX8 of one antenna.
  datatype Average = Average(last: Char, avg: Char, avgX8: Short)

  // One sample; x >> 3 rounds down, as / does here.
  function Take(a: Average, initial: bool, s: Char): Average {
    var x8 := if initial then ToShort(s * 8) else ToShort(a.avgX8 - a.avg + s);
    Average(s, ToChar(x8 / 8), x8)
  }

  function Run(a: Average, initials: seq<bool>, samples: seq<Char>): Average
    requires |initials| == |samples|
  {
    if samples == [] then a
    else
      var n := |samples| - 1;
      Take(Run(a, initials[..n], samples[..n]), initials[n], samples[n])
  }

  predicate Coherent(a: Average) {
    a.avg == a.avgX8 / 8
  }

  lemma ShortExact(x: int)
    requires -32768 <= x < 32768
    ensures ToShort(x) == x
  {
  }

  lemma CharExact(x: int)
    requires -128 <= x < 128
    ensures ToChar(x) == x
  {
  }

  // Neither the 16-bit nor the 8-bit word overflows.
  lemma TakeExact(a: Average, initial: bool, s: Char)
    requires Coherent(a)
    ensures
      var x8, b := (if initial then 8 * s else a.avgX8 - a.avg + s), Take(a, initial, s);
      b.last == s && b.avgX8 == x8 && b.avg == x8 / 8
  {
    hide ToShort, ToChar;
    var x8 := if initial then s * 8 else a.avgX8 - a.avg + s;
    ShortExact(x8);
    CharExact(x8 / 8);
  }

  // ---------- bounds ----------

  predicate Within(a: Average, lo: Char, hi: Char) {
    8 * lo <= a.avgX8 <= 8 * hi + 7 && a.avg == a.avgX8 / 8
  }

  lemma TakeWithin(a: Average, initial: bool, s: Char, lo: Char, hi: Char)
    requires Within(a, lo, hi) && lo <= s <= hi
    ensures Within(Take(a, initial, s), lo, hi)
  {
    hide Take;
    TakeExact(a, initial, s);
  }

  /** Over any run of samples between lo and hi the average stays between them, and neither the 8-bit nor
      the 16-bit word overflows. */
  lemma {:induction false} RunWithin(a: Average, initials: seq<bool>, samples: seq<Char>, lo: Char, hi: Char)
    requires |initials| == |samples| && Within(a, lo, hi)
    requires forall i :: 0 <= i < |samples| ==> lo <= samples[i] <= hi
    ensures Within(Run(a, initials, samples), lo, hi) && lo <= Run(a, initials, samples).avg <= hi
  {
    if samples == [] {
    } else {
      var n := |samples| - 1;
      RunWithin(a, initials[..n], samples[..n], lo, hi);
      TakeWithin(Run(a, initials[..n], samples[..n]), initials[n], samples[n], lo, hi);
    }
  }

  // ---------- convergence ----------

  // How far the scaled average is from the values that stand for s.
  function Distance(a: Average, s: Char): nat {
    if a.avgX8 < 8 * s then 8 * s - a.avgX8 else if a.avgX8 > 8 * s + 7 then a.avgX8 - (8 * s + 7) else 0
  }

  lemma DistanceZero(a: Average, s: Char)
    requires Coherent(a)
    ensures Distance(a, s) == 0 <==> a.avg == s
  {
  }

  predicate Between(x: int, y: int, z: int) {
    x <= y <= z || z <= y <= x
  }

  // A sample moves the average towards itself, not past itself, and strictly so until it is reached.
  lemma TakeApproaches(a: Average, initial: bool, s: Char)
    requires Coherent(a)
    ensures
      var b := Take(a, initial, s);
      && Coherent(b) && Between(a.avg, b.avg, s)
      && (Distance(a, s) > 0 ==> Distance(b, s) < Distance(a, s)) && (Distance(a, s) == 0 ==> Distance(b, s) == 0)
  {
    hide Take;
    TakeExact(a, initial, s);
  }

  function Constant(s: Char, n: nat): (ss: seq<Char>)
    ensures |ss| == n && forall i :: 0 <= i < n ==> ss[i] == s
  {
    seq(n, _ => s)
  }

  /** Under a constant sample the average moves to it without overshooting, gets there within Distance
      steps, and stays. */
  lemma {:induction false} RunConverges(a: Average, initials: seq<bool>, s: Char)
    requires Coherent(a)
    ensures
      var b := Run(a, initials, Constant(s, |initials|));
      && Coherent(b) && Between(a.avg, b.avg, s)
      && Distance(b, s) <= if |initials| <= Distance(a, s) then Distance(a, s) - |initials| else 0
    ensures |initials| >= 8 * s - a.avgX8 && |initials| >= a.avgX8 - 8 * s - 7 ==>
      Run(a, initials, Constant(s, |initials|)).avg == s
    decreases |initials|
  {
    if initials == [] {
      DistanceZero(a, s);
    } else {
      var n := |initials| - 1;
      RunConverges(a, initials[..n], s);
      assert Constant(s, |initials|)[..n] == Constant(s, n);
      var b := Run(a, initials[..n], Constant(s, n));
      hide Run, Take;
      LastStep(a, initials, s);
      TakeApproaches(b, initials[n], s);
      DistanceZero(Take(b, initials[n], s), s);
    }
  }

  lemma LastStep(a: Average, initials: seq<bool>, s: Char)
    requires initials != []
    ensures
      var n := |initials| - 1;
      Run(a, initials, Constant(s, |initials|)) == Take(Run(a, initials[..n], Constant(s, n)), initials[n], s)
  {
    hide Take;
    var n := |initials| - 1;
    assert Constant(s, |initials|)[..n] == Constant(s, n);
  }

  // ---------- the driver's record ----------

  // The samples of one frame, where the hardware reports any.
  datatype Sample = Sample(snr0: Option<Char>, rssi0: Option<Char>, snr1: Option<Char>, rssi1: Option<Char>,
                           rssi2: Option<Char>)

  function Next(a: Average, initial: bool, s: Option<Char>): Average {
    if s.Some? then Take(a, initial, s.value) else a
  }

  class RssiSample {
    var snr0: Average
    var rssi0: Average
    var snr1: Average
    var rssi1: Average
    var rssi2: Average

    ghost predicate Valid()
      reads this
    {
      Coherent(snr0) && Coherent(rssi0) && Coherent(snr1) && Coherent(rssi1) && Coherent(rssi2)
    }

    constructor ()
      ensures Valid() && rssi0 == Average(0, 0, 0)
    {
      var zero := Average(0, 0, 0);
      snr0, rssi0, snr1, rssi1, rssi2 := zero, zero, zero, zero, zero;
    }

    method TakeInto(a: Average, initial: bool, sample: Option<Char>) returns (b: Average)
      requires Coherent(a)
      ensures b == Next(a, initial, sample) && Coherent(b)
      ensures sample.Some? ==> b.last == sample.value && Between(a.avg, b.avg, sample.value)
      ensures sample.Some? && initial ==> b.avg == sample.value
    {
      hide ToShort, ToChar, Distance;
      b := a;
      if sample.Some? {
        b := b.(last := sample.value);
        if initial {
          b := b.(avgX8 := ToShort(b.last * 8), avg := b.last);
        } else {
          b := b.(avgX8 := ToShort(b.avgX8 - b.avg + b.last));
        }
        b := b.(avg := ToChar(b.avgX8 / 8));
        assert b == Take(a, initial, sample.value);
        TakeExact(a, initial, sample.value);
        TakeApproaches(a, initial, sample.value);
      }
    }

    /** Update_Rssi_Sample: the first frame, as told by the record of antenna 0, sets the averages, and
        every later one moves them. */
    method Update(s: Sample)
      requires Valid()
      modifies this
      ensures Valid()
      ensures
        var initial := old(rssi0) == Average(0, 0, 0);
        && snr0 == Next(old(snr0), initial, s.snr0) && rssi0 == Next(old(rssi0), initial, s.rssi0)
        && snr1 == Next(old(snr1), initial, s.snr1) && rssi1 == Next(old(rssi1), initial, s.rssi1)
        && rssi2 == Next(old(rssi2), initial, s.rssi2)
    {
      hide Next, Coherent;
      var initial := rssi0.avg == 0 && rssi0.avgX8 == 0 && rssi0.last == 0;
      snr0 := TakeInto(snr0, initial, s.snr0);
      rssi0 := TakeInto(rssi0, initial, s.rssi0);
      snr1 := TakeInto(snr1, initial, s.snr1);
      rssi1 := TakeInto(rssi1, initial, s.rssi1);
      rssi2 := TakeInto(rssi2, initial, s.rssi2);
    }
  }
}
