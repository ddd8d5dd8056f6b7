/** The next-beacon arithmetic of common/cmm_mac_usb.c: the remainder of the 64-bit TSF timer modulo
    the beacon period, computed in 32 bits from the two halves of the timer. */
module Beacon {

  const TWO32 := 0x1_0000_0000

  type Uint32 = x: int | 0 <= x < TWO32
  type Uint16 = x: int | 0 <= x < 0x1_0000

  // ---------- what is to be computed ----------

  function Tsf(high: Uint32, low: Uint32): nat { high * TWO32 + low }

  // Beacon periods are kept in units of 1024 microseconds.
  function PeriodUs(period: Uint16): nat { period * 1024 }

  // ---------- what is computed ----------

  function BeaconRemain(p: nat): (r: nat)
    requires 0 < p < TWO32
    ensures 1 <= r <= p
  {
    0xffff_ffff % p + 1
  }

  function Remain(p: nat, high: Uint32, low: Uint32): (r: nat)
    requires 0 < p < TWO32
    ensures r < p
  {
    var remainHigh := (BeaconRemain(p) * high) % TWO32;
    var remainLow := low % p;
    ((remainHigh + remainLow) % TWO32) % p
  }

  // How often the 32-bit sum wraps around.
  function Wraps(p: nat, high: Uint32, low: Uint32): nat
    requires 0 < p < TWO32
  {
    (BeaconRemain(p) * high + low % p) / TWO32
  }

  // ---------- remainders ----------

  lemma AddMultiple(a: int, q: nat, m: nat)
    requires 0 < m
    ensures (a + q * m) % m == a % m
  {
    if q > 0 {
      AddMultiple(a, q - 1, m);
      assert a + q * m == (a + (q - 1) * m) + m;
      AddOnce(a + (q - 1) * m, m);
    }
  }

  lemma AddOnce(a: int, m: nat)
    requires 0 < m
    ensures (a + m) % m == a % m
  {
    var q, r := a / m, a % m;
    assert a + m == (q + 1) * m + r;
    Remainder(a + m, q + 1, r, m);
  }

  lemma Remainder(a: int, q: int, r: nat, m: nat)
    requires 0 < m && a == q * m + r && r < m
    ensures a % m == r
  {
    var q', r' := a / m, a % m;
    assert (q - q') * m == r' - r;
    if q > q' {
      assert (q - q') * m >= m by { Monotone(1, q - q', m); }
    } else if q < q' {
      assert (q' - q) * m >= m by { Monotone(1, q' - q, m); }
    }
  }

  lemma Monotone(a: int, b: int, m: nat)
    requires a <= b
    ensures a * m <= b * m
  {
  }

  lemma SameIffMultiple(y: nat, d: nat, m: nat)
    requires 0 < m
    ensures (y + d) % m == y % m <==> d % m == 0
  {
    var q, r := d / m, d % m;
    assert y + d == (y + r) + q * m;
    AddMultiple(y + r, q, m);
    var q', r' := y / m, y % m;
    assert y + r == (r' + r) + q' * m;
    AddMultiple(r' + r, q', m);
    if r' + r >= m {
      Remainder(r' + r, 1, r' + r - m, m);
    } else {
      Remainder(r' + r, 0, r' + r, m);
    }
  }

  // ---------- the 32-bit computation ----------

  lemma Residue(p: nat)
    requires 0 < p < TWO32
    ensures TWO32 == (0xffff_ffff / p) * p + BeaconRemain(p)
  {
  }

  // Without a limit on the sum the formula is right.
  lemma UnboundedIsRight(p: nat, high: Uint32, low: Uint32)
    requires 0 < p < TWO32
    ensures (BeaconRemain(p) * high + low % p) % p == Tsf(high, low) % p
  {
    hide BeaconRemain;
    Residue(p);
    DivMod(low, p);
    Congruent(high, 0xffff_ffff / p, BeaconRemain(p), p, TWO32, low / p, low % p, low);
  }

  lemma DivMod(a: nat, m: nat)
    requires 0 < m
    ensures a == (a / m) * m + a % m
  {
  }

  lemma Congruent(h: nat, c: nat, r: nat, p: nat, t: nat, q: nat, s: nat, l: nat)
    requires 0 < p && t == c * p + r && l == q * p + s
    ensures (r * h + s) % p == (h * t + l) % p
  {
    Decompose(h, c, r, p, t, q, s);
    AddMultiple(r * h + s, h * c + q, p);
  }

  lemma Decompose(h: nat, c: nat, r: nat, p: nat, t: nat, q: nat, s: nat)
    requires t == c * p + r
    ensures h * t + (q * p + s) == (r * h + s) + (h * c + q) * p
  {
    Spread(h, c, r, p);
    assert (h * c + q) * p == h * c * p + q * p;
  }

  lemma Spread(h: nat, c: nat, r: nat, p: nat)
    ensures h * (c * p + r) == h * c * p + r * h
  {
  }

  lemma WrappedSum(a: nat, b: nat)
    ensures (a % TWO32 + b) % TWO32 == (a + b) % TWO32
  {
    assert a + b == (a % TWO32 + b) + (a / TWO32) * TWO32;
    AddMultiple(a % TWO32 + b, a / TWO32, TWO32);
  }

  // In terms of the multiple of 2 to the 32 that wrap-around takes off the sum.
  lemma RemainCongruent(p: nat, high: Uint32, low: Uint32)
    requires 0 < p < TWO32
    ensures Remain(p, high, low) == Tsf(high, low) % p <==> (Wraps(p, high, low) * TWO32) % p == 0
  {
    var x := BeaconRemain(p) * high + low % p;
    WrappedSum(BeaconRemain(p) * high, low % p);
    UnboundedIsRight(p, high, low);
    var y, w := x % TWO32, x / TWO32;
    assert x == y + w * TWO32;
    SameIffMultiple(y, w * TWO32, p);
  }

  // ---------- divisibility by the odd part ----------

  function OddPart(n: nat): (m: nat)
    requires 0 < n
    ensures 0 < m <= n && m % 2 == 1
  {
    if n % 2 == 0 then OddPart(n / 2) else n
  }

  function Pow2(e: nat): (r: nat)
    ensures 1 <= r
  {
    if e == 0 then 1 else 2 * Pow2(e - 1)
  }

  lemma Divides(a: nat, m: nat, q: nat)
    requires 0 < m && a == q * m
    ensures a % m == 0
  {
    Remainder(a, q, 0, m);
  }

  lemma HalfOdd(x: nat, m: nat)
    requires m % 2 == 1
    ensures (2 * x) % m == 0 <==> x % m == 0
  {
    if x % m == 0 {
      DivMod(x, m);
      Regroup(2, x / m, m);
      Divides(2 * x, m, 2 * (x / m));
    } else if (2 * x) % m == 0 {
      DivMod(2 * x, m);
      HalfQuotient(x, m, 2 * x / m);
    }
  }

  lemma HalfQuotient(x: nat, m: nat, q: nat)
    requires m % 2 == 1 && 2 * x == q * m
    ensures x % m == 0
  {
    if q % 2 == 1 {
      OddProduct(q, m);
    } else {
      Regroup(2, q / 2, m);
      Divides(x, m, q / 2);
    }
  }

  lemma OddProduct(a: nat, b: nat)
    requires a % 2 == 1 && b % 2 == 1
    ensures (a * b) % 2 == 1
  {
    var i := a / 2;
    assert a * b == 2 * (i * b) + b by {
      assert a == 2 * i + 1;
      Regroup(2, i, b);
    }
  }

  lemma HalfEven(x: nat, m: nat)
    requires 0 < m
    ensures (2 * x) % (2 * m) == 0 <==> x % m == 0
  {
    if x % m == 0 {
      DivMod(x, m);
      Doubled(x / m, m);
      Divides(2 * x, 2 * m, x / m);
    }
    if (2 * x) % (2 * m) == 0 {
      var q := 2 * x / (2 * m);
      DivMod(2 * x, 2 * m);
      Doubled(q, m);
      Divides(x, m, q);
    }
  }

  lemma Doubled(q: nat, m: nat)
    ensures q * (2 * m) == 2 * (q * m)
  {
  }

  // A power of 2 at least p adds nothing to divisibility by the odd part of p.
  lemma {:induction false} OddPartDecides(w: nat, e: nat, p: nat)
    requires 0 < p <= Pow2(e)
    ensures (w * Pow2(e)) % p == 0 <==> w % OddPart(p) == 0
    decreases e
  {
    if e == 0 {
    } else if p % 2 == 0 {
      OddPartDecides(w, e - 1, p / 2);
      Doubled(w, Pow2(e - 1));
      HalfEven(w * Pow2(e - 1), p / 2);
    } else {
      OddDecides(w, e, p);
    }
  }

  lemma {:induction false} OddDecides(w: nat, e: nat, m: nat)
    requires m % 2 == 1
    ensures (w * Pow2(e)) % m == 0 <==> w % m == 0
    decreases e
  {
    if e == 0 {
    } else {
      OddDecides(w, e - 1, m);
      Doubled(w, Pow2(e - 1));
      HalfOdd(w * Pow2(e - 1), m);
    }
  }

  lemma TwoTo32()
    ensures Pow2(32) == TWO32
  {
    assert Pow2(8) == 256;
    assert Pow2(16) == 65536;
    assert Pow2(24) == 0x100_0000;
  }

  lemma OddPartOfPeriod(period: Uint16)
    requires 0 < period
    ensures OddPart(PeriodUs(period)) == OddPart(period)
  {
    hide OddPart;
    OddPartDouble(period);
    OddPartDouble(2 * period);
    OddPartDouble(4 * period);
    OddPartDouble(8 * period);
    OddPartDouble(16 * period);
    OddPartDouble(32 * period);
    OddPartDouble(64 * period);
    OddPartDouble(128 * period);
    OddPartDouble(256 * period);
    OddPartDouble(512 * period);
  }

  lemma OddPartDouble(n: nat)
    requires 0 < n
    ensures OddPart(2 * n) == OddPart(n)
  {
  }

  /** The 32-bit code finds the timer's place in the beacon period if and only if the odd part of the
      period divides the number of times its sum wraps around. */
  lemma RemainIff(period: Uint16, high: Uint32, low: Uint32)
    requires 0 < period
    ensures
      var p := PeriodUs(period);
      Remain(p, high, low) == Tsf(high, low) % p <==> Wraps(p, high, low) % OddPart(period) == 0
  {
    var p := PeriodUs(period);
    RemainCongruent(p, high, low);
    TwoTo32();
    OddPartOfPeriod(period);
    hide Remain, Wraps, Tsf, Pow2, OddPart;
    OddPartDecides(Wraps(p, high, low), 32, p);
  }

  /** In particular it does while the sum stays below 2 to the 32. */
  lemma RightWithoutWrap(p: nat, high: Uint32, low: Uint32)
    requires 0 < p < TWO32 && BeaconRemain(p) * high + low % p < TWO32
    ensures Remain(p, high, low) == Tsf(high, low) % p
  {
    hide Remain, Tsf, BeaconRemain;
    RemainCongruent(p, high, low);
    NoWrap(BeaconRemain(p) * high + low % p);
    Remainder(0, 0, 0, p);
  }

  lemma NoWrap(x: nat)
    requires x < TWO32
    ensures x / TWO32 == 0
  {
  }

  /** And always when the period divides 2 to the 32. */
  lemma RightForDivisor(p: nat, high: Uint32, low: Uint32)
    requires 0 < p < TWO32 && TWO32 % p == 0
    ensures Remain(p, high, low) == Tsf(high, low) % p
  {
    RemainCongruent(p, high, low);
    TwoTo32();
    hide Remain, Wraps, Tsf, Pow2, OddPart;
    OddPartDecides(1, 32, p);
    assert OddPart(p) == 1;
    OddPartDecides(Wraps(p, high, low), 32, p);
  }

  lemma Regroup(a: nat, b: nat, c: nat)
    ensures a * (b * c) == a * b * c
  {
  }

  /** Elsewhere it does not. With a period of 400, whose odd part is 25, the sum has wrapped once when the
      upper half of the timer is 13798, after 686 days; 25 does not divide 1. */
  lemma WrongAfterWrap()
    ensures
      var p := PeriodUs(400);
      && OddPart(400) == 25 && Wraps(p, 13798, 0) == 1
      && Remain(p, 13798, 0) == 294912 && Tsf(13798, 0) % p == 196608
  {
    var p := PeriodUs(400);
    assert BeaconRemain(p) == 311296;
    assert OddPart(400) == OddPart(200) == OddPart(100) == OddPart(50) == OddPart(25);
    Remainder(Tsf(13798, 0), 144682516, 196608, p);
  }

  lemma DeltaIff(p: nat, t: nat, remain: nat)
    requires 0 < p && remain < p
    ensures (t + (p - remain)) % p == 0 <==> remain == t % p
  {
    var q, r := t / p, t % p;
    assert t + (p - remain) == (r + p - remain) + q * p;
    AddMultiple(r + p - remain, q, p);
    if r >= remain {
      Remainder(r + p - remain, 1, r - remain, p);
    } else {
      Remainder(r + p - remain, 0, r + p - remain, p);
    }
  }

  // ---------- the driver ----------

  class CommonCfg {
    var beaconPeriod: Uint16
    var beaconFactor: nat
    var beaconRemain: nat
    var timerValue: nat
    var isUpdateBeacon: bool

    ghost predicate Started()
      reads this
    {
      0 < beaconPeriod && beaconRemain == BeaconRemain(PeriodUs(beaconPeriod))
    }

    constructor (period: Uint16)
      ensures beaconPeriod == period
    {
      beaconPeriod, beaconFactor, beaconRemain, timerValue, isUpdateBeacon := period, 0, 0, 0, false;
    }

    // RTUSBBssBeaconStart
    method BeaconStart()
      requires 0 < beaconPeriod
      modifies this
      ensures Started() && beaconPeriod == old(beaconPeriod)
      ensures beaconFactor * PeriodUs(beaconPeriod) + beaconRemain == TWO32
    {
      beaconFactor := 0xffff_ffff / (beaconPeriod * 1024);
      beaconRemain := 0xffff_ffff % (beaconPeriod * 1024) + 1;
      Residue(PeriodUs(beaconPeriod));
    }

    /** BeaconUpdateExec: delta microseconds from now is the next beacon time, except as RemainIff says;
        the timer is set for 10 ms after it, or for 100 ms when it is more than 150 ms away. */
    method UpdateExec(high: Uint32, low: Uint32) returns (delta: nat)
      requires Started()
      modifies this`timerValue, this`isUpdateBeacon
      ensures 1 <= delta <= PeriodUs(beaconPeriod)
      ensures (Tsf(high, low) + delta) % PeriodUs(beaconPeriod) == 0
        <==> Wraps(PeriodUs(beaconPeriod), high, low) % OddPart(beaconPeriod) == 0
      ensures isUpdateBeacon <==> delta < 151 * 1024
      ensures isUpdateBeacon ==> timerValue * 1024 <= delta + 10 * 1024 < (timerValue + 1) * 1024
      ensures !isUpdateBeacon ==> timerValue == 100
    {
      var p := beaconPeriod * 1024;
      var remainHigh := (beaconRemain * high) % TWO32;
      var remainLow := low % p;
      var remain := ((remainHigh + remainLow) % TWO32) % p;
      delta := p - remain;
      RemainIff(beaconPeriod, high, low);
      DeltaIff(p, Tsf(high, low), remain);
      hide Tsf, Wraps;
      var delta2MS := delta / 1024;
      if delta2MS > 150 {
        timerValue := 100;
        isUpdateBeacon := false;
      } else {
        timerValue := delta2MS + 10;
        isUpdateBeacon := true;
      }
    }
  }
}
