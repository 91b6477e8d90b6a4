/** The time-bucket grid (`src/vestigo/db/_buckets.py`), in whole microseconds. */
module Buckets {

  const MICROS := 1_000_000

  /** `int(x / y)` for a positive `y`: truncation toward zero. */
  function Truncate(x: int, y: int): int
    requires y > 0
  {
    if x >= 0 then x / y else -(-x / y)
  }

  /** `bucket_interval_seconds` */
  function IntervalSeconds(minTs: int, maxTs: int, bucketCount: nat): int
    requires bucketCount > 0
  {
    var seconds := Truncate(maxTs - minTs, MICROS * bucketCount);
    if seconds > 1 then seconds else 1
  }

  /** The number of the interval that holds an instant. */
  function Slot(t: int, interval: int): int
    requires interval > 0
  {
    t / (MICROS * interval)
  }

  /** `aligned_bucket_starts`, as epoch seconds. */
  function AlignedStarts(minTs: int, maxTs: int, interval: int): seq<int>
    requires interval > 0
  {
    var first, last := Slot(minTs, interval), Slot(maxTs, interval);
    seq(if last < first then 0 else last - first + 1, k => (first + k) * interval)
  }

  /** Instant `t` falls in the bucket that starts at `start`. */
  predicate InBucket(t: int, start: int, interval: int) {
    start * MICROS <= t < (start + interval) * MICROS
  }

  lemma SlotBounds(t: int, interval: int)
    requires interval > 0
    ensures InBucket(t, Slot(t, interval) * interval, interval)
  {
    var u := MICROS * interval;
    var q := t / u;
    assert q * u <= t < q * u + u;
    assert q * u == (q * interval) * MICROS;
    assert q * u + u == (q * interval + interval) * MICROS;
  }

  lemma ProductGrows(d: int, u: int)
    requires u > 0
    ensures d >= 1 ==> d * u >= u
    ensures d <= -1 ==> d * u <= -u
  {
    if d >= 1 {
      assert d * u == (d - 1) * u + u;
    } else if d <= -1 {
      assert d * u == (d + 1) * u - u;
    }
  }

  lemma ProductsAreOrdered(a: int, b: int, u: int)
    requires u > 0
    ensures a < b <==> a * u < b * u
  {
    ProductGrows(b - a, u);
    assert (b - a) * u == b * u - a * u;
  }

  /** An instant is in slot `s` exactly when it is in the bucket starting there. */
  lemma BucketIsSlot(t: int, s: int, interval: int)
    requires interval > 0
    ensures InBucket(t, s * interval, interval) <==> s == Slot(t, interval)
  {
    var u := MICROS * interval;
    var q := Slot(t, interval);
    SlotBounds(t, interval);
    assert (s * interval) * MICROS == s * u && (s * interval + interval) * MICROS == (s + 1) * u;
    assert (q * interval) * MICROS == q * u && (q * interval + interval) * MICROS == (q + 1) * u;
    if InBucket(t, s * interval, interval) {
      ProductsAreOrdered(s, q + 1, u);
      ProductsAreOrdered(q, s + 1, u);
    }
  }

  lemma SlotMonotone(t: int, t': int, interval: int)
    requires interval > 0 && t <= t'
    ensures Slot(t, interval) <= Slot(t', interval)
  {
    var u := MICROS * interval;
    SlotBounds(t, interval);
    SlotBounds(t', interval);
    var q, r := Slot(t, interval), Slot(t', interval);
    assert (q * interval) * MICROS == q * u && (r * interval + interval) * MICROS == (r + 1) * u;
    ProductsAreOrdered(q, r + 1, u);
  }

  /** The grid goes up in steps of one interval, from multiples of the interval, and is never empty. */
  lemma GridIsAligned(minTs: int, maxTs: int, interval: int)
    requires interval > 0 && minTs <= maxTs
    ensures var starts := AlignedStarts(minTs, maxTs, interval);
            && starts != []
            && (forall k :: 0 <= k < |starts| ==> starts[k] % interval == 0)
            && (forall k :: 0 <= k < |starts| - 1 ==> starts[k + 1] == starts[k] + interval)
            && starts[0] * MICROS <= minTs
            && maxTs < (starts[|starts| - 1] + interval) * MICROS
  {
    SlotMonotone(minTs, maxTs, interval);
    SlotBounds(minTs, interval);
    SlotBounds(maxTs, interval);
    var starts := AlignedStarts(minTs, maxTs, interval);
    var first := Slot(minTs, interval);
    forall k | 0 <= k < |starts| ensures starts[k] % interval == 0 {
      Multiple(first + k, interval);
    }
    forall k | 0 <= k < |starts| - 1 ensures starts[k + 1] == starts[k] + interval {
      assert (first + (k + 1)) * interval == (first + k) * interval + interval;
    }
  }

  lemma Multiple(a: int, b: int)
    requires b > 0
    ensures (a * b) % b == 0
  {
    var q, r := (a * b) / b, (a * b) % b;
    assert r == (a - q) * b by {
      assert a * b == q * b + r;
    }
    ProductGrows(a - q, b);
  }

  /** Every instant of the range falls in exactly one bucket of the grid. */
  lemma ExactlyOneBucket(minTs: int, maxTs: int, interval: int, t: int) returns (k: nat)
    requires interval > 0 && minTs <= t <= maxTs
    ensures var starts := AlignedStarts(minTs, maxTs, interval);
            && k < |starts|
            && forall j :: 0 <= j < |starts| ==> (InBucket(t, starts[j], interval) <==> j == k)
  {
    var starts := AlignedStarts(minTs, maxTs, interval);
    var first := Slot(minTs, interval);
    SlotMonotone(minTs, t, interval);
    SlotMonotone(t, maxTs, interval);
    k := Slot(t, interval) - first;
    forall j | 0 <= j < |starts| ensures InBucket(t, starts[j], interval) <==> j == k {
      BucketIsSlot(t, first + j, interval);
    }
  }

  // ----- Conservation -----

  function CountIn(ts: seq<int>, start: int, interval: int): nat {
    if ts == [] then 0
    else CountIn(ts[..|ts| - 1], start, interval) + if InBucket(ts[|ts| - 1], start, interval) then 1 else 0
  }

  function SumCounts(ts: seq<int>, starts: seq<int>, interval: int): nat {
    if starts == [] then 0
    else SumCounts(ts, starts[..|starts| - 1], interval) + CountIn(ts, starts[|starts| - 1], interval)
  }

  lemma {:induction false} NoEventsNoCounts(starts: seq<int>, interval: int)
    ensures SumCounts([], starts, interval) == 0
  {
    if starts != [] {
      NoEventsNoCounts(starts[..|starts| - 1], interval);
    }
  }

  /** One more event adds one to one bucket. */
  lemma {:induction false} OneMoreEvent(ts: seq<int>, t: int, starts: seq<int>, interval: int, k: nat)
    requires forall j :: 0 <= j < |starts| ==> (InBucket(t, starts[j], interval) <==> j == k)
    ensures SumCounts(ts + [t], starts, interval) == SumCounts(ts, starts, interval) + if k < |starts| then 1 else 0
  {
    if starts != [] {
      var n := |starts| - 1;
      OneMoreEvent(ts, t, starts[..n], interval, k);
      assert (ts + [t])[..|ts|] == ts;
    }
  }

  /** The bucket counts add up to the number of events. */
  lemma {:induction false} CountsAddUp(minTs: int, maxTs: int, interval: int, ts: seq<int>)
    requires interval > 0
    requires forall i :: 0 <= i < |ts| ==> minTs <= ts[i] <= maxTs
    ensures SumCounts(ts, AlignedStarts(minTs, maxTs, interval), interval) == |ts|
  {
    var starts := AlignedStarts(minTs, maxTs, interval);
    if ts == [] {
      NoEventsNoCounts(starts, interval);
    } else {
      var n := |ts| - 1;
      CountsAddUp(minTs, maxTs, interval, ts[..n]);
      var k := ExactlyOneBucket(minTs, maxTs, interval, ts[n]);
      OneMoreEvent(ts[..n], ts[n], starts, interval, k);
      assert ts == ts[..n] + [ts[n]];
    }
  }

  // ----- Size -----

  /** The interval is at least half of what an even cut would take. */
  lemma IntervalIsWide(minTs: int, maxTs: int, bucketCount: nat)
    requires bucketCount > 0 && minTs <= maxTs
    ensures var interval := IntervalSeconds(minTs, maxTs, bucketCount);
            interval >= 1 && maxTs - minTs < 2 * bucketCount * (MICROS * interval)
  {
    var d, w := maxTs - minTs, MICROS * bucketCount;
    var q := d / w;
    assert d < q * w + w;
    var interval := IntervalSeconds(minTs, maxTs, bucketCount);
    assert q + 1 <= 2 * interval;
    ProductsAreOrdered(q + 1, 2 * interval, w);
    assert (q + 1) * w == q * w + w;
    assert (2 * interval) * w == 2 * bucketCount * (MICROS * interval);
  }

  /** The interval is the number of whole seconds in an even cut, and at least one. */
  lemma IntervalIsWholeSeconds(minTs: int, maxTs: int, bucketCount: nat, n: nat)
    requires bucketCount > 0 && minTs <= maxTs && n > 1
    ensures n <= IntervalSeconds(minTs, maxTs, bucketCount) <==> n * (MICROS * bucketCount) <= maxTs - minTs
  {
    var d, w := maxTs - minTs, MICROS * bucketCount;
    var q := d / w;
    assert q * w <= d < q * w + w;
    ProductsAreOrdered(q, n, w);
    if n <= q {
      ProductsAreOrdered(n - 1, q, w);
      AtMost(n, q, w);
    } else {
      AtMost(q + 1, n, w);
    }
  }

  lemma AtMost(a: int, b: int, u: int)
    requires u > 0 && a <= b
    ensures a * u <= b * u
  {
    if a < b {
      ProductsAreOrdered(a, b, u);
    }
  }

  /** The grid has at most `2 * bucketCount + 1` buckets. */
  lemma GridIsSmall(minTs: int, maxTs: int, bucketCount: nat)
    requires bucketCount > 0 && minTs <= maxTs
    ensures |AlignedStarts(minTs, maxTs, IntervalSeconds(minTs, maxTs, bucketCount))| <= 2 * bucketCount + 1
  {
    var interval := IntervalSeconds(minTs, maxTs, bucketCount);
    IntervalIsWide(minTs, maxTs, bucketCount);
    var u := MICROS * interval;
    var first, last := Slot(minTs, interval), Slot(maxTs, interval);
    SlotBounds(minTs, interval);
    SlotBounds(maxTs, interval);
    assert (first * interval + interval) * MICROS == (first + 1) * u;
    assert (last * interval) * MICROS == last * u;
    assert (first + 1) * u + 2 * bucketCount * u == (first + 1 + 2 * bucketCount) * u;
    ProductsAreOrdered(last, first + 1 + 2 * bucketCount, u);
  }
}
