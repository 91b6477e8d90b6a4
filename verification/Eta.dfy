/** Kalman-filtered throughput and ETA (`src/vestigo/core/eta.py`), over the reals. */
module Eta {
  import opened Options

  const Q := 50.0
  const R := 100.0
  const DIFFUSE := 100000000.0

  /** The estimator's state: rate, error variance, last gain, updates applied. */
  datatype Filter = Filter(x: Option<real>, p: real, k: real, n: nat)

  const FRESH := Filter(None, DIFFUSE, 1.0, 0)

  predicate Effective(bytes: int, elapsed: real) {
    elapsed > 0.0 && bytes > 0
  }

  function Rate(bytes: int, elapsed: real): real
    requires Effective(bytes, elapsed)
  {
    bytes as real / elapsed
  }

  /** The estimate moved toward the observation by the gain. */
  function Moved(x: real, gain: real, z: real): real {
    x + gain * (z - x)
  }

  /** The gain and the variance that follow from variance `p`. */
  function Gain(p: real): real
    requires p >= 0.0
  {
    (p + Q) / (p + Q + R)
  }

  function NextVariance(p: real): real
    requires p >= 0.0
  {
    (1.0 - Gain(p)) * (p + Q)
  }

  function Updated(f: Filter, bytes: int, elapsed: real): Filter
    requires f.p >= 0.0
  {
    if !Effective(bytes, elapsed) then f
    else
      var z := Rate(bytes, elapsed);
      match f.x
      case None => Filter(Some(z), R, f.k, f.n + 1)
      case Some(x) => Filter(Some(Moved(x, Gain(f.p), z)), NextVariance(f.p), Gain(f.p), f.n + 1)
  }

  class ETATracker {
    var x: Option<real>
    var p: real
    var k: real
    var n: nat

    ghost function Snapshot(): Filter
      reads this
    {
      Filter(x, p, k, n)
    }

    constructor ()
      ensures Snapshot() == FRESH
    {
      x, p, k, n := None, DIFFUSE, 1.0, 0;
    }

    method Update(bytes: int, elapsed: real)
      requires p >= 0.0
      modifies this
      ensures Snapshot() == Updated(old(Snapshot()), bytes, elapsed)
      ensures p >= 0.0
    {
      if elapsed <= 0.0 || bytes <= 0 {
        return;
      }
      var z := bytes as real / elapsed;
      assert z == Rate(bytes, elapsed);
      n := n + 1;
      if x.None? {
        x := Some(z);
        p := R;
        return;
      }
      NextVarianceOf(p);
      ghost var before := Snapshot();
      var predicted := p + Q;
      var gain := predicted / (predicted + R);
      assert gain == Gain(before.p);
      x := Some(Moved(x.value, gain, z));
      p := (1.0 - gain) * predicted;
      assert p == NextVariance(before.p);
      k := gain;
    }

    /** `(remaining / rate)`, once there are two updates. */
    method Remaining(remaining: nat) returns (eta: Option<real>)
      ensures eta == EtaOf(Snapshot(), remaining)
    {
      if x.None? || x.value <= 0.0 || n < 2 {
        return None;
      }
      return Some(remaining as real / x.value);
    }
  }

  function EtaOf(f: Filter, remaining: nat): Option<real> {
    if f.x.None? || f.x.value <= 0.0 || f.n < 2 then None else Some(remaining as real / f.x.value)
  }

  // ----- One step -----

  function Times(a: real, b: real): real {
    a * b
  }

  lemma TimesIsOrdered(a: real, b: real, s: real)
    requires s > 0.0
    ensures a <= b <==> Times(a, s) <= Times(b, s)
  {
    if a <= b {
      NonNegativeProduct(b - a, s);
    } else {
    }
  }

  lemma NonNegativeProduct(a: real, b: real)
    requires a >= 0.0 && b >= 0.0
    ensures a * b >= 0.0
  {
  }

  /** The gain is below one, and is the fraction it is written as. */
  lemma GainOf(p: real)
    requires p >= 0.0
    ensures 0.0 < Gain(p) < 1.0
    ensures Times(Gain(p), p + 150.0) == p + 50.0
  {
    var k, s := Gain(p), p + 150.0;
    assert k * s == p + 50.0;
    TimesIsOrdered(k, 0.0, s);
    TimesIsOrdered(1.0, k, s);
  }

  /** So is the variance that follows. */
  lemma NextVarianceOf(p: real)
    requires p >= 0.0
    ensures NextVariance(p) >= 0.0
    ensures Times(NextVariance(p), p + 150.0) == 100.0 * (p + 50.0)
  {
    GainOf(p);
    var k, s := Gain(p), p + 150.0;
    NonNegativeProduct(1.0 - k, p + 50.0);
    assert (1.0 - k) * s == s - k * s;
  }

  /** What a fraction over a divisor of at least 200 is at most. */
  lemma FractionBound(q: real, s: real)
    requires q >= 0.0 && s >= 200.0
    ensures 200.0 * q <= Times(q, s)
  {
    NonNegativeProduct(q, s - 200.0);
    assert q * (s - 200.0) == q * s - q * 200.0;
  }

  /** From a variance in [50, 100], an update leaves at most a quarter of the distance from 50,
      under a gain between a half and three fifths. */
  lemma VarianceStep(p: real)
    requires 50.0 <= p <= 100.0
    ensures 50.0 <= NextVariance(p) <= 60.0
    ensures NextVariance(p) - 50.0 <= (p - 50.0) / 4.0
    ensures 0.5 <= Gain(p) <= 0.6
    ensures Gain(p) - 0.5 <= (p - 50.0) / 400.0
  {
    GainOf(p);
    NextVarianceOf(p);
    var k, v, s := Gain(p), NextVariance(p), p + 150.0;
    hide Gain, NextVariance;
    assert 50.0 <= v <= 60.0 && 0.5 <= k <= 0.6 by {
      TimesIsOrdered(50.0, v, s);
      TimesIsOrdered(v, 60.0, s);
      TimesIsOrdered(0.5, k, s);
      TimesIsOrdered(k, 0.6, s);
    }
    FractionBound(v - 50.0, s);
    assert (v - 50.0) * s == v * s - 50.0 * s;
    FractionBound(k - 0.5, s);
    assert (k - 0.5) * s == k * s - 0.5 * s;
  }

  /** At variance 50 the filter stands still, with gain one half. */
  lemma SteadyState()
    ensures NextVariance(50.0) == 50.0 && Gain(50.0) == 0.5
  {
  }

  /** The closed form written beside the recurrence gives a quarter instead, for these constants. */
  lemma ClosedFormIsNotTheLimit(root: real)
    requires root > 0.0 && root * root == Q * Q + 4.0 * Q * R
    ensures Q / (Q + root) == 0.25
    ensures (root - Q) / 2.0 == 50.0
  {
    assert root * root == 22500.0;
  }

  /** A weighted mean stays between bounds. */
  lemma MeanStays(x: real, z: real, k: real, lo: real, hi: real)
    requires lo <= x <= hi && lo <= z <= hi && 0.0 <= k <= 1.0
    ensures lo <= Moved(x, k, z) <= hi
  {
    if z >= x {
      NonNegativeProduct(k, z - x);
      NonNegativeProduct(1.0 - k, z - x);
      assert (1.0 - k) * (z - x) == (z - x) - k * (z - x);
    } else {
      NonNegativeProduct(k, x - z);
      NonNegativeProduct(1.0 - k, x - z);
      assert (1.0 - k) * (x - z) == (x - z) - k * (x - z);
      assert k * (z - x) == -(k * (x - z));
    }
  }

  // ----- Whole runs -----

  datatype Observation = Observation(bytes: int, elapsed: real)

  /** The filter after a run of observations. */
  function After(os: seq<Observation>): (f: Filter)
    ensures f.p >= 0.0
  {
    if os == [] then FRESH
    else
      var f := After(os[..|os| - 1]);
      var o := os[|os| - 1];
      NextVarianceOf(f.p);
      Updated(f, o.bytes, o.elapsed)
  }

  /** Every observed rate lies between `lo` and `hi`. */
  ghost predicate Observed(os: seq<Observation>, lo: real, hi: real) {
    forall i :: 0 <= i < |os| && Effective(os[i].bytes, os[i].elapsed) ==> lo <= Rate(os[i].bytes, os[i].elapsed) <= hi
  }

  ghost function Quarter(n: nat): real {
    if n == 0 then 1.0 else Quarter(n - 1) / 4.0
  }

  ghost predicate Settled(f: Filter, lo: real, hi: real) {
    && (f.n == 0 <==> f.x == None)
    && (f.n == 0 ==> f == FRESH)
    && (f.n > 0 ==> lo <= f.x.value <= hi && 50.0 <= f.p <= 100.0 && f.p - 50.0 <= 50.0 * Quarter(f.n - 1))
    && (f.n > 1 ==> 50.0 <= f.p <= 60.0 && 0.5 <= f.k <= 0.6 && f.k - 0.5 <= Quarter(f.n - 2) / 8.0)
  }

  lemma SettledStep(f: Filter, o: Observation, lo: real, hi: real)
    requires f.p >= 0.0 && Settled(f, lo, hi)
    requires Effective(o.bytes, o.elapsed) ==> lo <= Rate(o.bytes, o.elapsed) <= hi
    ensures Settled(Updated(f, o.bytes, o.elapsed), lo, hi)
  {
    if Effective(o.bytes, o.elapsed) && f.n > 0 {
      var z := Rate(o.bytes, o.elapsed);
      hide Gain, NextVariance, Rate;
      VarianceStep(f.p);
      MeanStays(f.x.value, z, Gain(f.p), lo, hi);
    }
  }

  /** Over any run the rate stays within the range observed; from the second update on the
      variance is within [50, 60] and closes in on 50 fourfold per update, and the gain
      on one half. */
  lemma {:induction false} RunSettles(os: seq<Observation>, lo: real, hi: real)
    requires Observed(os, lo, hi)
    ensures Settled(After(os), lo, hi)
  {
    if os != [] {
      var n := |os| - 1;
      RunSettles(os[..n], lo, hi);
      SettledStep(After(os[..n]), os[n], lo, hi);
    }
  }

  /** How many observations took time and moved bytes. */
  ghost function Counted(os: seq<Observation>): nat {
    if os == [] then 0
    else
      var o := os[|os| - 1];
      Counted(os[..|os| - 1]) + if o.elapsed > 0.0 && o.bytes > 0 then 1 else 0
  }

  /** An ETA is given exactly from the second such observation on; the others leave no trace. */
  lemma {:induction false} EtaFromTheSecondOn(os: seq<Observation>, remaining: nat)
    ensures After(os).n == Counted(os)
    ensures EtaOf(After(os), remaining).Some? <==> Counted(os) >= 2
    ensures Counted(os) == 0 ==> After(os).x == None
    ensures os != [] && Counted(os) == Counted(os[..|os| - 1]) ==> After(os) == After(os[..|os| - 1])
    ensures Counted(os) > 0 ==> After(os).x.Some? && After(os).x.value > 0.0
  {
    if os != [] {
      var n := |os| - 1;
      EtaFromTheSecondOn(os[..n], remaining);
      var f, o := After(os[..n]), os[n];
      if o.elapsed > 0.0 && o.bytes > 0 {
        RateIsPositive(o.bytes, o.elapsed);
        if f.x.Some? {
          GainOf(f.p);
          MovedIsPositive(f.x.value, Rate(o.bytes, o.elapsed), Gain(f.p));
        }
      }
    }
  }

  lemma RateIsPositive(bytes: int, elapsed: real)
    requires elapsed > 0.0 && bytes > 0
    ensures Effective(bytes, elapsed) && Rate(bytes, elapsed) > 0.0
  {
    var z := bytes as real / elapsed;
    assert z * elapsed == bytes as real;
    TimesIsOrdered(z, 0.0, elapsed);
  }

  lemma MovedIsPositive(x: real, z: real, k: real)
    requires x > 0.0 && z > 0.0 && 0.0 <= k <= 1.0
    ensures Moved(x, k, z) > 0.0
  {
    var lo := if x <= z then x else z;
    MeanStays(x, z, k, lo, if x <= z then z else x);
  }

  /** A steady stream of `speed` bytes a second. */
  ghost predicate Steady(os: seq<Observation>, speed: real) {
    forall i :: 0 <= i < |os| ==> os[i].elapsed > 0.0 && os[i].bytes > 0 && os[i].bytes as real == speed * os[i].elapsed
  }

  /** Of a steady stream the rate is its speed, and the ETA what remains over that speed. */
  lemma {:induction false} SteadyStream(os: seq<Observation>, speed: real, remaining: nat)
    requires Steady(os, speed) && |os| >= 2
    ensures After(os).x == Some(speed)
    ensures EtaOf(After(os), remaining).Some? && EtaOf(After(os), remaining).value * speed == remaining as real
  {
    forall i | 0 <= i < |os| && Effective(os[i].bytes, os[i].elapsed)
      ensures Rate(os[i].bytes, os[i].elapsed) == speed
    {
      SteadyRate(os[i].bytes, os[i].elapsed, speed);
    }
    RunSettles(os, speed, speed);
    SteadyIsCounted(os, speed);
    EtaFromTheSecondOn(os, remaining);
  }

  lemma SteadyRate(bytes: int, elapsed: real, speed: real)
    requires elapsed > 0.0 && bytes > 0 && bytes as real == speed * elapsed
    ensures Rate(bytes, elapsed) == speed
  {
    var z := bytes as real / elapsed;
    assert z * elapsed == speed * elapsed;
    TimesIsOrdered(z, speed, elapsed);
    TimesIsOrdered(speed, z, elapsed);
  }

  lemma {:induction false} SteadyIsCounted(os: seq<Observation>, speed: real)
    requires Steady(os, speed)
    ensures Counted(os) == |os|
  {
    if os != [] {
      SteadyIsCounted(os[..|os| - 1], speed);
    }
  }

  lemma QuotientOrder(a: real, b: real, c: real)
    requires 0.0 <= a && 0.0 < b <= c
    ensures a / c <= a / b
  {
    var u, v := a / c, a / b;
    assert u * c == a && v * b == a;
    TimesIsOrdered(0.0, u, c);
    NonNegativeProduct(u, c - b);
    assert u * (c - b) == u * c - u * b;
    TimesIsOrdered(u, v, b);
  }

  /** The ETA lies between the remaining bytes at the fastest and at the slowest observed rate. */
  lemma EtaBetweenExtremes(os: seq<Observation>, lo: real, hi: real, remaining: nat)
    requires 0.0 < lo <= hi && Observed(os, lo, hi) && After(os).n >= 2
    ensures EtaOf(After(os), remaining).Some?
    ensures remaining as real / hi <= EtaOf(After(os), remaining).value <= remaining as real / lo
  {
    RunSettles(os, lo, hi);
    var x := After(os).x.value;
    QuotientOrder(remaining as real, x, hi);
    QuotientOrder(remaining as real, lo, x);
  }

  // ----- The meter -----

  /** The adapter from `(total, processed)` snapshots: `now` is the clock. */
  class ThroughputMeter {
    const tracker: ETATracker
    var lastProcessed: int
    var lastT: real
    var started: bool

    constructor ()
      ensures fresh(tracker) && tracker.Snapshot() == FRESH && !started
    {
      tracker := new ETATracker();
      lastProcessed, lastT, started := 0, 0.0, false;
    }

    /** The first snapshot only starts the clock; each later one is one observation. */
    method Observe(total: int, processed: int, now: real) returns (eta: Option<real>)
      requires tracker.p >= 0.0
      modifies this, tracker
      ensures tracker.p >= 0.0
      ensures started && lastProcessed == processed && lastT == now
      ensures tracker.Snapshot() ==
              if old(started) then Updated(old(tracker.Snapshot()), processed - old(lastProcessed), now - old(lastT))
              else old(tracker.Snapshot())
      ensures eta == EtaOf(tracker.Snapshot(), if total > processed then total - processed else 0)
    {
      if started {
        tracker.Update(processed - lastProcessed, now - lastT);
      }
      started := true;
      lastProcessed := processed;
      lastT := now;
      eta := tracker.Remaining(if total > processed then total - processed else 0);
    }
  }
}
