/** The time range of a metrics request (internal/api/handlers_metrics.go) and the bucketed queries it
    leads to (internal/store/metrics.go). */
module TimeBuckets {
  import opened Common

  const MAX_METRIC_POINTS: int := 5000
  const MONTH_SECONDS: int := 30 * 24 * 3600

  // ---------------------------------------------------------------------------------------
  // The request
  // ---------------------------------------------------------------------------------------

  /** The range is in order, at most a month and a minute long, and a step of the caller's is not
      shorter than a 5000th of it. */
  predicate GoodRange(start: int, end: int, step: int) {
    && start <= end <= start + MONTH_SECONDS + 60
    && (step > 0 ==> end - start < MAX_METRIC_POINTS * (step + 1))
  }

  datatype Range = Range(start: int, end: int, step: int)

  /** What a request asks for: each parameter where it is given and allowed, its default otherwise, and a
      step no shorter than a 5000th of the range; a step of 0 leaves it to the store. */
  function Parsed(now: int, fromParam: Option<int>, toParam: Option<int>, stepParam: Option<int>): (r: Range)
    ensures GoodRange(r.start, r.end, r.step)
    ensures r.end <= now + 60 && r.start >= now - MONTH_SECONDS
    ensures 0 <= r.step <= 86400
  {
    var oldest := now - MONTH_SECONDS;
    var start := if fromParam.Some? && oldest <= fromParam.value <= now then fromParam.value else now - 3600;
    var end := if toParam.Some? && start <= toParam.value <= now + 60 then toParam.value else now;
    var least := (end - start) / MAX_METRIC_POINTS;
    Range(start, end,
          if stepParam.None? || !(1 <= stepParam.value <= 86400) then 0
          else if stepParam.value < least then least
          else stepParam.value)
  }

  /** `parseTimeRange` on the clock and the parsed parameters. */
  method ParseTimeRange(now: int, fromParam: Option<int>, toParam: Option<int>, stepParam: Option<int>)
    returns (start: int, end: int, step: int)
    ensures Range(start, end, step) == Parsed(now, fromParam, toParam, stepParam)
    ensures GoodRange(start, end, step)
    ensures fromParam.Some? && now - 2592000 <= fromParam.value <= now ==> start == fromParam.value
    ensures fromParam.None? || fromParam.value < now - 2592000 || fromParam.value > now ==> start == now - 3600
    ensures toParam.Some? && start <= toParam.value <= now + 60 ==> end == toParam.value
    ensures toParam.None? || toParam.value < start || toParam.value > now + 60 ==> end == now
    ensures stepParam.None? || stepParam.value < 1 || stepParam.value > 86400 ==> step == 0
    ensures stepParam.Some? && 1 <= stepParam.value <= 86400 ==>
              step >= stepParam.value && step >= (end - start) / 5000
              && (step == stepParam.value || step == (end - start) / 5000)
  {
    end := now;
    start := now - 3600;
    step := 0;
    var minFrom := now - MONTH_SECONDS;
    if fromParam.Some? {
      var n := fromParam.value;
      if n >= minFrom && n <= now {
        start := n;
      }
    }
    if toParam.Some? {
      var n := toParam.value;
      if n >= start && n <= now + 60 {
        end := n;
      }
    }
    if stepParam.Some? {
      var n := stepParam.value;
      if n >= 1 && n <= 86400 {
        step := n;
      }
    }
    if step > 0 {
      var minStep := (end - start) / MAX_METRIC_POINTS;
      if step < minStep {
        step := minStep;
      }
    }
  }

  /** `autoStep` for about `target` points. */
  function AutoStep(start: int, end: int, target: int): (step: int)
    requires target > 0
    ensures step >= 5 && (step == 5 || end - start >= target * step)
    ensures end - start < target * (step + 1)
  {
    var duration := end - start;
    if duration <= 0 then 5
    else if duration / target < 5 then 5
    else duration / target
  }

  /** The step a query runs with. */
  function QueryStep(start: int, end: int, step: int): (s: int)
    ensures s >= 1
    ensures step > 0 ==> s == step
    ensures step <= 0 ==> s >= 5 && (s == 5 || end - start >= 200 * s) && end - start < 200 * (s + 1)
  {
    if step <= 0 then AutoStep(start, end, 200) else step
  }

  // ---------------------------------------------------------------------------------------
  // Buckets
  // ---------------------------------------------------------------------------------------

  /** SQL integer division truncates toward zero. */
  function Quotient(ts: int, step: int): (q: int)
    requires step > 0
  {
    if ts >= 0 then ts / step else -((-ts) / step)
  }

  function Bucket(ts: int, step: int): int
    requires step > 0
  {
    Quotient(ts, step) * step
  }

  ghost function Buckets(start: int, end: int, step: int): set<int>
    requires step > 0
  {
    set ts | start <= ts <= end :: Bucket(ts, step)
  }

  lemma DivBy(n: nat, step: int, q: int)
    requires step > 0 && q == n / step
    ensures q * step <= n < (q + 1) * step
  {
  }

  lemma Scale(a: int, b: int, step: int)
    requires a <= b && step > 0
    ensures a * step <= b * step
  {
  }

  lemma Unscale(a: int, b: int, step: int)
    requires a * step < b * step && step > 0
    ensures a < b
  {
    if b <= a {
      Scale(b, a, step);
    }
  }

  lemma DivGrows(a: nat, b: nat, step: int)
    requires a <= b && step > 0
    ensures a / step <= b / step
  {
    var p, q := a / step, b / step;
    DivBy(a, step, p);
    DivBy(b, step, q);
    Unscale(p, q + 1, step);
  }

  lemma DivOneStep(a: nat, b: nat, step: int)
    requires a <= b <= a + step && step > 0
    ensures b / step <= a / step + 1
  {
    var p, q := a / step, b / step;
    DivBy(a, step, p);
    DivBy(b, step, q);
    assert (p + 2) * step == (p + 1) * step + step;
    Unscale(q, p + 2, step);
  }

  /** Division toward zero: the largest multiple of the step within the distance from zero, on the same side. */
  lemma QuotientTruncates(ts: int, step: int)
    requires step > 0
    ensures ts >= 0 ==> Quotient(ts, step) * step <= ts < Quotient(ts, step) * step + step
    ensures ts <= 0 ==> Quotient(ts, step) * step - step < ts <= Quotient(ts, step) * step
  {
    if ts >= 0 {
      DivBy(ts, step, ts / step);
    } else {
      DivBy(-ts, step, (-ts) / step);
    }
  }

  lemma QuotientGrows(a: int, b: int, step: int)
    requires a <= b && step > 0
    ensures Quotient(a, step) <= Quotient(b, step)
  {
    if a >= 0 {
      DivGrows(a, b, step);
    } else if b < 0 {
      DivGrows(-b, -a, step);
    } else {
      DivGrows(0, -a, step);
      DivGrows(0, b, step);
      assert 0 / step == 0;
    }
  }

  /** Points at most one step apart lie in the same or in neighbouring buckets. */
  lemma QuotientOneStep(a: int, b: int, step: int)
    requires a <= b <= a + step && step > 0
    ensures Quotient(b, step) <= Quotient(a, step) + 1
  {
    if a >= 0 {
      DivOneStep(a, b, step);
    } else if b < 0 {
      DivOneStep(-b, -a, step);
    } else {
      AcrossZero(-a, b, step);
    }
  }

  lemma AcrossZero(a: nat, b: nat, step: int)
    requires a > 0 && a + b <= step
    ensures b / step == 0 && a / step <= 1 && b / step <= -(a / step) + 1
  {
    DivBy(b, step, b / step);
    DivBy(a, step, a / step);
    Unscale(b / step, 1, step);
    Unscale(a / step, 2, step);
  }

  lemma LastBucket(start: int, end: int, step: int)
    requires start < end && step > 0
    ensures Buckets(start, end, step) == Buckets(start, end - 1, step) + {Bucket(end, step)}
  {
  }

  /** The next second is in the same bucket, or in a later one whose quotient is one more. */
  lemma NextBucket(ts: int, step: int)
    requires step > 0
    ensures || (Quotient(ts + 1, step) == Quotient(ts, step) && Bucket(ts + 1, step) == Bucket(ts, step))
            || (Quotient(ts + 1, step) == Quotient(ts, step) + 1 && Bucket(ts + 1, step) > Bucket(ts, step))
  {
    QuotientGrows(ts, ts + 1, step);
    QuotientOneStep(ts, ts + 1, step);
    var q := Quotient(ts, step);
    assert (q + 1) * step == q * step + step;
  }

  lemma GrowSet(s: set<int>, top: int, next: int, n: int)
    requires |s| == n && top in s && forall b :: b in s ==> b <= top
    ensures next == top ==> |s + {next}| == n
    ensures next > top ==> |s + {next}| == n + 1
    ensures next >= top ==> forall b :: b in s + {next} ==> b <= next
  {
    if next == top {
      assert s + {next} == s;
    }
  }

  /** The buckets of a range are one for each quotient between those of its ends. */
  lemma {:induction false} BucketCount(start: int, end: int, step: int)
    requires start <= end && step > 0
    ensures |Buckets(start, end, step)| == Quotient(end, step) - Quotient(start, step) + 1
    ensures Bucket(end, step) in Buckets(start, end, step)
    ensures forall b :: b in Buckets(start, end, step) ==> b <= Bucket(end, step)
    decreases end - start
  {
    if start == end {
      assert Buckets(start, end, step) == {Bucket(end, step)};
    } else {
      BucketCount(start, end - 1, step);
      NextBucket(end - 1, step);
      LastBucket(start, end, step);
      GrowSet(Buckets(start, end - 1, step), Bucket(end - 1, step), Bucket(end, step),
              Quotient(end - 1, step) - Quotient(start, step) + 1);
    }
  }

  /** Quotients of points at most `k` steps apart differ by at most `k`. */
  lemma {:induction false} QuotientSpread(start: int, end: int, step: int, k: nat)
    requires start <= end && step > 0 && end - start <= k * step
    ensures Quotient(end, step) - Quotient(start, step) <= k
    decreases k
  {
    if k > 0 {
      assert k * step == (k - 1) * step + step;
      if end - step >= start {
        QuotientSpread(start, end - step, step, k - 1);
        QuotientOneStep(end - step, end, step);
      } else {
        QuotientOneStep(start, end, step);
      }
    }
  }

  // ---------------------------------------------------------------------------------------
  // How many points a request can lead to
  // ---------------------------------------------------------------------------------------

  /** A caller's step gives at most twice the documented number of buckets. */
  lemma CallerStepBound(start: int, end: int, step: int)
    requires GoodRange(start, end, step) && step > 0
    ensures |Buckets(start, end, step)| <= 2 * MAX_METRIC_POINTS
  {
    BucketCount(start, end, step);
    QuotientSpread(start, end, step, 2 * MAX_METRIC_POINTS - 1);
  }

  /** Without a caller's step there are at most 241. */
  lemma AutoStepBound(start: int, end: int)
    requires start <= end
    ensures |Buckets(start, end, AutoStep(start, end, 200))| <= 241
  {
    var step := AutoStep(start, end, 200);
    BucketCount(start, end, step);
    QuotientSpread(start, end, step, 240);
  }

  /** Every request, at every clock value. */
  lemma RequestBound(now: int, fromParam: Option<int>, toParam: Option<int>, stepParam: Option<int>)
    ensures var r := Parsed(now, fromParam, toParam, stepParam);
            |Buckets(r.start, r.end, QueryStep(r.start, r.end, r.step))| <= BucketLimit(r.step)
  {
    var r := Parsed(now, fromParam, toParam, stepParam);
    if r.step > 0 {
      CallerStepBound(r.start, r.end, r.step);
    } else {
      AutoStepBound(r.start, r.end);
    }
  }

  /** The most buckets of a request with that step. */
  function BucketLimit(step: int): nat {
    if step > 0 then 2 * MAX_METRIC_POINTS else 241
  }

  /** Requests that reach both limits. */
  lemma BoundsAreTight()
    ensures var r := Parsed(1000009999, Some(1000000000), None, Some(1));
            r.step == 1 && |Buckets(r.start, r.end, r.step)| == 2 * MAX_METRIC_POINTS
    ensures var r := Parsed(1000001203, Some(1000000004), None, None);
            r.step == 0 && |Buckets(r.start, r.end, QueryStep(r.start, r.end, r.step))| == 241
  {
    BucketCount(1000000000, 1000009999, 1);
    BucketCount(1000000004, 1000001203, 5);
  }

  /** The most buckets a range of that length can have, wherever it lies. */
  function MostBuckets(length: nat, step: int): nat
    requires step > 0
  {
    (length + step - 1) / step + 1
  }

  /** No range of the length has more, and one has as many. */
  lemma BucketMaximum(length: nat, step: int, start: int)
    requires step > 0
    ensures |Buckets(start, start + length, step)| <= MostBuckets(length, step)
    ensures |Buckets(step - 1, step - 1 + length, step)| == MostBuckets(length, step)
  {
    var k := (length + step - 1) / step;
    DivBy(length + step - 1, step, k);
    assert (k + 1) * step == k * step + step;
    BucketCount(start, start + length, step);
    QuotientSpread(start, start + length, step, k);
    BucketCount(step - 1, step - 1 + length, step);
    DivBy(step - 1, step, (step - 1) / step);
    Unscale((step - 1) / step, 1, step);
    Unscale(-1, (step - 1) / step, step);
  }
}
