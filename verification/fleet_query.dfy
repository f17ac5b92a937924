/** The bucketed queries of internal/store/metrics.go, and the fleet-wide series: a SUM over the per-bridge
    bucket averages.  A source is a server or a bridge.  One value column is modelled; the columns are
    aggregated independently.  Values are real numbers, and a missing value is SQL's NULL. */
module FleetQuery {
  import opened Common
  import opened TimeBuckets

  datatype SourceId = SourceId(id: string)
  datatype EnvId = EnvId(id: string)

  datatype Sample = Sample(env: EnvId, source: SourceId, ts: int, value: Option<real>)

  /** Whether the table has an id column to group by, the id to filter by when one was given, and the
      range. */
  datatype Query = Query(env: EnvId, grouped: bool, source: Option<SourceId>, start: int, end: int, step: int)

  /** `buildMetricsQuery` adds the id predicate only for an id that is not empty. */
  function QueryFor(env: EnvId, grouped: bool, sourceId: SourceId, start: int, end: int, step: int): Query {
    var filter := if grouped && |sourceId.id| > 0 then Some(sourceId) else None;
    Query(env, grouped, filter, start, end, QueryStep(start, end, step))
  }

  const NO_SOURCE := SourceId("")

  /** The id a sample is grouped under. */
  function GroupOf(q: Query, s: Sample): SourceId {
    if q.grouped then s.source else NO_SOURCE
  }

  predicate Matches(q: Query, s: Sample) {
    s.env == q.env && q.start <= s.ts <= q.end && (q.source.Some? ==> s.source == q.source.value)
  }

  predicate InGroup(q: Query, s: Sample, bucket: int, bridge: SourceId)
    requires q.step > 0
  {
    Matches(q, s) && Bucket(s.ts, q.step) == bucket && GroupOf(q, s) == bridge
  }

  // ---------------------------------------------------------------------------------------
  // AVG and SUM
  // ---------------------------------------------------------------------------------------

  /** Sum and number of the values of a group that are not NULL. */
  datatype Acc = Acc(sum: real, count: nat)

  function Gather(rows: seq<Sample>, q: Query, bucket: int, bridge: SourceId): (acc: Acc)
    requires q.step > 0
  {
    if rows == [] then Acc(0.0, 0)
    else
      var acc := Gather(rows[..|rows| - 1], q, bucket, bridge);
      var s := rows[|rows| - 1];
      if InGroup(q, s, bucket, bridge) && s.value.Some? then Acc(acc.sum + s.value.value, acc.count + 1) else acc
  }

  /** AVG of a group: NULL when every value is. */
  function Avg(rows: seq<Sample>, q: Query, bucket: int, bridge: SourceId): (r: Option<real>)
    requires q.step > 0
  {
    var acc := Gather(rows, q, bucket, bridge);
    if acc.count == 0 then None else Some(acc.sum / acc.count as real)
  }

  /** The sample is of the environment, in the range, of the filtered source if there is a filter, in the bucket,
      and grouped under the source. */
  ghost predicate Counted(q: Query, s: Sample, bucket: int, source: SourceId)
    requires q.step > 0
  {
    && s.env == q.env && q.start <= s.ts && s.ts <= q.end
    && (q.source.None? || s.source == q.source.value)
    && Quotient(s.ts, q.step) * q.step == bucket
    && (if q.grouped then s.source == source else source == SourceId(""))
  }

  /** The values of the group that are present. */
  ghost function Present(rows: seq<Sample>, q: Query, bucket: int, source: SourceId): (vs: seq<real>)
    requires q.step > 0
  {
    if rows == [] then []
    else
      var n := |rows| - 1;
      Present(rows[..n], q, bucket, source)
      + if Counted(q, rows[n], bucket, source) && rows[n].value.Some? then [rows[n].value.value] else []
  }

  function SumOf(vs: seq<real>): (sum: real) {
    if vs == [] then 0.0 else SumOf(vs[..|vs| - 1]) + vs[|vs| - 1]
  }

  lemma SumOfMore(vs: seq<real>, v: real)
    ensures SumOf(vs + [v]) == SumOf(vs) + v
  {
    assert (vs + [v])[..|vs|] == vs;
  }

  lemma {:induction false} GatherIsPresent(rows: seq<Sample>, q: Query, bucket: int, source: SourceId)
    requires q.step > 0
    ensures var acc, vs := Gather(rows, q, bucket, source), Present(rows, q, bucket, source);
            acc.count == |vs| && acc.sum == SumOf(vs)
  {
    if rows != [] {
      var n := |rows| - 1;
      GatherIsPresent(rows[..n], q, bucket, source);
      var before := Present(rows[..n], q, bucket, source);
      if Counted(q, rows[n], bucket, source) && rows[n].value.Some? {
        SumOfMore(before, rows[n].value.value);
      } else {
        assert Present(rows, q, bucket, source) == before;
      }
    }
  }

  lemma {:induction false} SumBetween(vs: seq<real>, lo: real, hi: real)
    requires Bounds(vs, lo, hi)
    ensures lo * |vs| as real <= SumOf(vs) <= hi * |vs| as real
  {
    if vs != [] {
      var n := |vs| - 1;
      SumBetween(vs[..n], lo, hi);
      assert |vs| as real == n as real + 1.0;
    }
  }

  ghost predicate Bounds(vs: seq<real>, lo: real, hi: real) {
    forall i :: 0 <= i < |vs| ==> lo <= vs[i] <= hi
  }

  /** Times their number it is their sum, and it lies between any bounds of them. */
  ghost predicate IsMean(avg: real, vs: seq<real>) {
    avg * |vs| as real == SumOf(vs) && forall lo, hi :: Bounds(vs, lo, hi) ==> lo <= avg <= hi
  }

  lemma MeanOf(vs: seq<real>, n: real)
    requires vs != [] && n == |vs| as real
    ensures IsMean(SumOf(vs) / n, vs)
  {
    QuotientTimes(SumOf(vs), n);
    forall lo, hi | Bounds(vs, lo, hi)
      ensures lo <= SumOf(vs) / n <= hi
    {
      SumBetween(vs, lo, hi);
      QuotientBetween(SumOf(vs), n, lo, hi);
    }
  }

  /** The average of a group is the mean of its present values, and NULL exactly when none is present. */
  lemma AverageMeans(rows: seq<Sample>, q: Query, bucket: int, source: SourceId)
    requires q.step > 0
    ensures var avg, vs := Avg(rows, q, bucket, source), Present(rows, q, bucket, source);
            (avg.None? <==> vs == []) && (avg.Some? ==> IsMean(avg.value, vs))
  {
    GatherIsPresent(rows, q, bucket, source);
    var vs := Present(rows, q, bucket, source);
    if vs != [] {
      MeanOf(vs, |vs| as real);
    }
  }

  lemma QuotientTimes(sum: real, n: real)
    requires n > 0.0
    ensures sum / n * n == sum
  {
  }

  lemma QuotientBetween(sum: real, n: real, lo: real, hi: real)
    requires n > 0.0 && lo * n <= sum <= hi * n
    ensures lo <= sum / n <= hi
  {
    var q := sum / n;
    QuotientTimes(sum, n);
    assert q < lo ==> (lo - q) * n > 0.0;
    assert q > hi ==> (q - hi) * n > 0.0;
  }

  /** SUM of two values, skipping NULLs. */
  function Plus(a: Option<real>, b: Option<real>): Option<real> {
    if a.None? then b else if b.None? then a else Some(a.value + b.value)
  }

  // ---------------------------------------------------------------------------------------
  // What the queries answer
  // ---------------------------------------------------------------------------------------

  /** A result row of the bucketed query: one group and its average. */
  datatype Point = Point(bucket: int, source: SourceId, avg: Option<real>)

  ghost predicate HasSample(rows: seq<Sample>, q: Query, bucket: int, bridge: SourceId)
    requires q.step > 0
  {
    exists i :: 0 <= i < |rows| && InGroup(q, rows[i], bucket, bridge)
  }

  ghost predicate HasPoint(points: seq<Point>, bucket: int, bridge: SourceId) {
    exists i :: 0 <= i < |points| && points[i].bucket == bucket && points[i].source == bridge
  }

  ghost predicate OnePerGroup(points: seq<Point>) {
    forall i, j :: 0 <= i < j < |points| ==>
      points[i].bucket != points[j].bucket || points[i].source != points[j].source
  }

  /** Group rows in any order: one for each group with a sample, with its average. */
  ghost predicate Answers(points: seq<Point>, rows: seq<Sample>, q: Query) {
    && q.step > 0
    && OnePerGroup(points)
    && (forall i :: 0 <= i < |points| ==> points[i].avg == Avg(rows, q, points[i].bucket, points[i].source))
    && (forall bucket, bridge :: HasPoint(points, bucket, bridge) <==> HasSample(rows, q, bucket, bridge))
  }

  ghost predicate GroupsUpTo(points: seq<Point>, rows: seq<Sample>, q: Query, n: nat)
    requires q.step > 0 && n <= |rows|
  {
    forall bucket, bridge :: HasPoint(points, bucket, bridge) <==> HasSample(rows[..n], q, bucket, bridge)
  }

  method FindPoint(points: seq<Point>, bucket: int, bridge: SourceId) returns (found: bool)
    ensures found <==> HasPoint(points, bucket, bridge)
  {
    for i := 0 to |points|
      invariant forall j :: 0 <= j < i ==> points[j].bucket != bucket || points[j].source != bridge
    {
      if points[i].bucket == bucket && points[i].source == bridge {
        return true;
      }
    }
    return false;
  }

  /** The bucketed query: one row for each group, in order of first appearance. */
  method RunQuery(rows: seq<Sample>, q: Query) returns (points: seq<Point>)
    requires q.step > 0
    ensures Answers(points, rows, q)
  {
    points := [];
    for n := 0 to |rows|
      invariant OnePerGroup(points)
      invariant forall i :: 0 <= i < |points| ==> points[i].avg == Avg(rows, q, points[i].bucket, points[i].source)
      invariant GroupsUpTo(points, rows, q, n)
    {
      var s := rows[n];
      ghost var before := points;
      if Matches(q, s) {
        var bucket := Bucket(s.ts, q.step);
        var found := FindPoint(points, bucket, GroupOf(q, s));
        if !found {
          points := points + [Point(bucket, GroupOf(q, s), Avg(rows, q, bucket, GroupOf(q, s)))];
          assert points[|before|].bucket == bucket;
        }
      }
      GroupsNext(before, points, rows, q, n);
    }
    assert rows[..|rows|] == rows;
  }

  lemma GroupsNext(before: seq<Point>, points: seq<Point>, rows: seq<Sample>, q: Query, n: nat)
    requires q.step > 0 && n < |rows| && GroupsUpTo(before, rows, q, n)
    requires if Matches(q, rows[n]) && !HasPoint(before, Bucket(rows[n].ts, q.step), GroupOf(q, rows[n]))
             then |points| == |before| + 1 && points[..|before|] == before
                  && points[|before|].bucket == Bucket(rows[n].ts, q.step)
                  && points[|before|].source == GroupOf(q, rows[n])
             else points == before
    ensures GroupsUpTo(points, rows, q, n + 1)
  {
    forall bucket, bridge
      ensures HasPoint(points, bucket, bridge) <==> HasSample(rows[..n + 1], q, bucket, bridge)
    {
      SampleNext(rows, q, n, bucket, bridge);
      assert HasPoint(before, bucket, bridge) <==> HasSample(rows[..n], q, bucket, bridge);
      if points != before {
        PointNext(before, points, bucket, bridge);
      }
    }
  }

  lemma PointNext(before: seq<Point>, points: seq<Point>, bucket: int, bridge: SourceId)
    requires |points| == |before| + 1 && points[..|before|] == before
    ensures HasPoint(points, bucket, bridge) <==>
              || HasPoint(before, bucket, bridge)
              || (points[|before|].bucket == bucket && points[|before|].source == bridge)
  {
    assert forall i :: 0 <= i < |before| ==> points[i] == before[i];
    if HasPoint(before, bucket, bridge) {
      var k :| 0 <= k < |before| && before[k].bucket == bucket && before[k].source == bridge;
      assert points[k].bucket == bucket;
    }
  }

  lemma SampleNext(rows: seq<Sample>, q: Query, n: nat, bucket: int, bridge: SourceId)
    requires q.step > 0 && n < |rows|
    ensures HasSample(rows[..n + 1], q, bucket, bridge) <==>
              HasSample(rows[..n], q, bucket, bridge) || InGroup(q, rows[n], bucket, bridge)
  {
    assert forall i :: 0 <= i < n ==> rows[..n + 1][i] == rows[..n][i];
    assert rows[..n + 1][n] == rows[n];
    if HasSample(rows[..n], q, bucket, bridge) {
      var k :| 0 <= k < n && InGroup(q, rows[..n][k], bucket, bridge);
      assert InGroup(q, rows[..n + 1][k], bucket, bridge);
    }
  }

  /** SUM of none is NULL, of one value the value, and NULLs are skipped. */
  lemma PlusMeans(a: real, b: real)
    ensures Plus(None, None) == None && Plus(Some(a), None) == Some(a) && Plus(None, Some(b)) == Some(b)
    ensures Plus(Some(a), Some(b)) == Some(a + b)
  {
  }

  /** The sum of the averages of a bucket. */
  function Total(points: seq<Point>, bucket: int): (r: Option<real>) {
    if points == [] then None
    else
      var p := points[|points| - 1];
      var rest := Total(points[..|points| - 1], bucket);
      if p.bucket == bucket then Plus(rest, p.avg) else rest
  }

  /** The averages of a bucket that are not NULL. */
  ghost function AveragesAt(points: seq<Point>, bucket: int): (vs: seq<real>) {
    if points == [] then []
    else
      var p := points[|points| - 1];
      AveragesAt(points[..|points| - 1], bucket) + if p.bucket == bucket && p.avg.Some? then [p.avg.value] else []
  }

  /** A fleet value is the sum of the averages of its bucket, and NULL exactly when all of them are. */
  lemma {:induction false} TotalMeans(points: seq<Point>, bucket: int)
    ensures var vs := AveragesAt(points, bucket);
            (Total(points, bucket).None? <==> vs == []) && (vs != [] ==> Total(points, bucket) == Some(SumOf(vs)))
  {
    if points != [] {
      var p, before := points[|points| - 1], AveragesAt(points[..|points| - 1], bucket);
      TotalMeans(points[..|points| - 1], bucket);
      if p.bucket == bucket && p.avg.Some? {
        SumOfMore(before, p.avg.value);
        assert before == [] ==> SumOf(before) == 0.0;
      } else {
        assert AveragesAt(points, bucket) == before;
      }
    }
  }

  ghost predicate HasBucket(points: seq<Point>, bucket: int) {
    exists i :: 0 <= i < |points| && points[i].bucket == bucket
  }

  /** The outer query over the group rows: SUM per bucket, in one pass. */
  method FleetSum(points: seq<Point>) returns (fleet: map<int, Option<real>>)
    ensures forall b :: b in fleet <==> HasBucket(points, b)
    ensures forall b :: b in fleet ==> fleet[b] == Total(points, b)
  {
    fleet := map[];
    for i := 0 to |points|
      invariant forall b :: b in fleet <==> HasBucket(points[..i], b)
      invariant forall b :: Total(points[..i], b) == if b in fleet then fleet[b] else None
    {
      var p := points[i];
      assert points[..i + 1][..i] == points[..i];
      HasBucketNext(points, i);
      fleet := fleet[p.bucket := if p.bucket in fleet then Plus(fleet[p.bucket], p.avg) else p.avg];
    }
    assert points[..|points|] == points;
  }

  lemma HasBucketNext(points: seq<Point>, i: nat)
    requires i < |points|
    ensures forall b :: HasBucket(points[..i + 1], b) <==> HasBucket(points[..i], b) || b == points[i].bucket
  {
    forall b
      ensures HasBucket(points[..i + 1], b) <==> HasBucket(points[..i], b) || b == points[i].bucket
    {
      assert points[..i + 1][i] == points[i];
      if HasBucket(points[..i], b) {
        var k :| 0 <= k < i && points[..i][k].bucket == b;
        assert points[..i + 1][k].bucket == b;
      }
      if HasBucket(points[..i + 1], b) && b != points[i].bucket {
        var k :| 0 <= k < i + 1 && points[..i + 1][k].bucket == b;
        assert points[..i][k].bucket == b;
      }
    }
  }

  // ---------------------------------------------------------------------------------------
  // The fleet series is the sum of the bridge series
  // ---------------------------------------------------------------------------------------

  /** Restricting the query to a bridge does not change the group of that bridge. */
  lemma {:induction false} FilterKeepsGroup(rows: seq<Sample>, q: Query, bucket: int, bridge: SourceId)
    requires q.step > 0 && q.grouped && q.source.None?
    ensures Gather(rows, q.(source := Some(bridge)), bucket, bridge) == Gather(rows, q, bucket, bridge)
  {
    if rows != [] {
      FilterKeepsGroup(rows[..|rows| - 1], q, bucket, bridge);
    }
  }

  /** The averages of one bucket and bridge, summed. */
  function GroupTotal(points: seq<Point>, bucket: int, bridge: SourceId): (r: Option<real>) {
    if points == [] then None
    else
      var p := points[|points| - 1];
      var rest := GroupTotal(points[..|points| - 1], bucket, bridge);
      if p.bucket == bucket && p.source == bridge then Plus(rest, p.avg) else rest
  }

  /** Over all bridges of a list. */
  function BridgesTotal(points: seq<Point>, bucket: int, bridges: seq<SourceId>): (r: Option<real>) {
    if bridges == [] then None
    else
      var n := |bridges| - 1;
      Plus(BridgesTotal(points, bucket, bridges[..n]), GroupTotal(points, bucket, bridges[n]))
  }

  ghost predicate Distinct(bridges: seq<SourceId>) {
    forall i, j :: 0 <= i < j < |bridges| ==> bridges[i] != bridges[j]
  }

  lemma GroupTotalNext(points: seq<Point>, p: Point, bucket: int, bridge: SourceId)
    ensures GroupTotal(points + [p], bucket, bridge) ==
              if p.bucket == bucket && p.source == bridge then Plus(GroupTotal(points, bucket, bridge), p.avg)
              else GroupTotal(points, bucket, bridge)
  {
    assert (points + [p])[..|points|] == points;
  }

  lemma PlusLaws(a: Option<real>, b: Option<real>, c: Option<real>)
    ensures Plus(Plus(a, c), b) == Plus(Plus(a, b), c) && Plus(a, Plus(b, c)) == Plus(Plus(a, b), c)
  {
  }

  /** A further point adds its average once when its bridge is in the list, and nothing otherwise. */
  lemma {:induction false} BridgesTotalNext(points: seq<Point>, p: Point, bucket: int, bridges: seq<SourceId>)
    requires Distinct(bridges)
    ensures BridgesTotal(points + [p], bucket, bridges)
         == if p.bucket == bucket && p.source in bridges then Plus(BridgesTotal(points, bucket, bridges), p.avg)
            else BridgesTotal(points, bucket, bridges)
  {
    if bridges != [] {
      var n := |bridges| - 1;
      BridgesTotalNext(points, p, bucket, bridges[..n]);
      GroupTotalNext(points, p, bucket, bridges[n]);
      PlusLaws(BridgesTotal(points, bucket, bridges[..n]), GroupTotal(points, bucket, bridges[n]), p.avg);
      assert bridges == bridges[..n] + [bridges[n]];
    }
  }

  lemma {:induction false} TotalByBridge(points: seq<Point>, bucket: int, bridges: seq<SourceId>)
    requires Distinct(bridges) && forall i :: 0 <= i < |points| ==> points[i].source in bridges
    ensures Total(points, bucket) == BridgesTotal(points, bucket, bridges)
  {
    if points == [] {
      NoPoints(bucket, bridges);
    } else {
      var n := |points| - 1;
      TotalByBridge(points[..n], bucket, bridges);
      BridgesTotalNext(points[..n], points[n], bucket, bridges);
      assert points == points[..n] + [points[n]];
    }
  }

  lemma {:induction false} NoPoints(bucket: int, bridges: seq<SourceId>)
    ensures BridgesTotal([], bucket, bridges) == None
  {
    if bridges != [] {
      NoPoints(bucket, bridges[..|bridges| - 1]);
    }
  }

  /** With one row per group, a group's total is its average, or nothing when it has no row. */
  lemma {:induction false} OneRowPerGroup(points: seq<Point>, bucket: int, bridge: SourceId, avg: Option<real>)
    requires OnePerGroup(points)
    requires forall i :: 0 <= i < |points| && points[i].bucket == bucket && points[i].source == bridge ==>
              points[i].avg == avg
    ensures GroupTotal(points, bucket, bridge) == if HasPoint(points, bucket, bridge) then avg else None
  {
    if points != [] {
      var n := |points| - 1;
      OneRowPerGroup(points[..n], bucket, bridge, avg);
      assert points == points[..n] + [points[n]];
      if HasPoint(points[..n], bucket, bridge) {
        var k :| 0 <= k < n && points[..n][k].bucket == bucket && points[..n][k].source == bridge;
        assert points[k].bucket == bucket && points[k].source == bridge;
      }
    }
  }

  /** The total of a bucket when every row is of one bridge. */
  lemma {:induction false} SingleBridgeTotal(points: seq<Point>, bucket: int, bridge: SourceId)
    requires forall i :: 0 <= i < |points| ==> points[i].source == bridge
    ensures Total(points, bucket) == GroupTotal(points, bucket, bridge)
  {
    if points != [] {
      SingleBridgeTotal(points[..|points| - 1], bucket, bridge);
    }
  }

  /** The per-bridge series of a list of bridges, summed at a bucket. */
  function SeriesSum(series: seq<seq<Point>>, bucket: int): (r: Option<real>) {
    if series == [] then None
    else Plus(SeriesSum(series[..|series| - 1], bucket), Total(series[|series| - 1], bucket))
  }

  ghost predicate ListsBridges(rows: seq<Sample>, q: Query, bridges: seq<SourceId>) {
    && Distinct(bridges)
    && forall i :: 0 <= i < |rows| && Matches(q, rows[i]) ==> rows[i].source in bridges
  }

  /** The series of one bridge agrees with its groups in the fleet's inner query. */
  lemma SeriesOfBridge(rows: seq<Sample>, q: Query, points: seq<Point>, bridge: SourceId, series: seq<Point>,
                       bucket: int)
    requires q.grouped && q.source.None? && Answers(points, rows, q)
    requires Answers(series, rows, q.(source := Some(bridge)))
    ensures Total(series, bucket) == GroupTotal(points, bucket, bridge)
    ensures HasBucket(series, bucket) <==> HasPoint(points, bucket, bridge)
  {
    var own := q.(source := Some(bridge));
    forall i | 0 <= i < |series|
      ensures series[i].source == bridge
    {
      assert HasPoint(series, series[i].bucket, series[i].source);
      assert HasSample(rows, own, series[i].bucket, series[i].source);
    }
    SingleBridgeTotal(series, bucket, bridge);
    FilterKeepsGroup(rows, q, bucket, bridge);
    OneRowPerGroup(series, bucket, bridge, Avg(rows, q, bucket, bridge));
    OneRowPerGroup(points, bucket, bridge, Avg(rows, q, bucket, bridge));
    SameSamples(rows, q, bucket, bridge);
    assert HasPoint(series, bucket, bridge) <==> HasPoint(points, bucket, bridge);
    assert HasBucket(series, bucket) <==> HasPoint(series, bucket, bridge);
  }

  lemma SameSamples(rows: seq<Sample>, q: Query, bucket: int, bridge: SourceId)
    requires q.step > 0 && q.grouped && q.source.None?
    ensures HasSample(rows, q.(source := Some(bridge)), bucket, bridge) <==> HasSample(rows, q, bucket, bridge)
  {
    var own := q.(source := Some(bridge));
    assert forall i :: 0 <= i < |rows| ==>
      (InGroup(own, rows[i], bucket, bridge) <==> InGroup(q, rows[i], bucket, bridge));
  }

  ghost predicate AllAnswer(rows: seq<Sample>, q: Query, bridges: seq<SourceId>, series: seq<seq<Point>>) {
    |series| == |bridges| && forall i :: 0 <= i < |series| ==> Answers(series[i], rows, q.(source := Some(bridges[i])))
  }

  lemma {:induction false} SeriesByBridge(rows: seq<Sample>, q: Query, points: seq<Point>, bridges: seq<SourceId>,
                                          series: seq<seq<Point>>, bucket: int)
    requires q.grouped && q.source.None? && Answers(points, rows, q) && AllAnswer(rows, q, bridges, series)
    ensures SeriesSum(series, bucket) == BridgesTotal(points, bucket, bridges)
  {
    if series != [] {
      var n := |series| - 1;
      assert AllAnswer(rows, q, bridges[..n], series[..n]);
      SeriesByBridge(rows, q, points, bridges[..n], series[..n], bucket);
      SeriesOfBridge(rows, q, points, bridges[n], series[n], bucket);
    }
  }

  lemma PointsListed(rows: seq<Sample>, q: Query, points: seq<Point>, bridges: seq<SourceId>)
    requires q.grouped && Answers(points, rows, q) && ListsBridges(rows, q, bridges)
    ensures forall i :: 0 <= i < |points| ==> points[i].source in bridges
  {
    forall i | 0 <= i < |points|
      ensures points[i].source in bridges
    {
      assert HasPoint(points, points[i].bucket, points[i].source);
      assert HasSample(rows, q, points[i].bucket, points[i].source);
    }
  }

  /** For every table, range and step, whatever order the rows come in: the fleet series has a point
      exactly where some bridge's own series has one, and its value is the NULL-skipping sum of theirs. */
  lemma FleetIsSumOfBridges(rows: seq<Sample>, q: Query, points: seq<Point>, fleet: map<int, Option<real>>,
                            bridges: seq<SourceId>, series: seq<seq<Point>>, bucket: int)
    requires q.grouped && q.source.None? && Answers(points, rows, q)
    requires forall b :: b in fleet <==> HasBucket(points, b)
    requires forall b :: b in fleet ==> fleet[b] == Total(points, b)
    requires ListsBridges(rows, q, bridges) && AllAnswer(rows, q, bridges, series)
    ensures bucket in fleet <==> exists i :: 0 <= i < |series| && HasBucket(series[i], bucket)
    ensures bucket in fleet ==> fleet[bucket] == SeriesSum(series, bucket)
  {
    PointsListed(rows, q, points, bridges);
    TotalByBridge(points, bucket, bridges);
    SeriesByBridge(rows, q, points, bridges, series, bucket);
    forall i | 0 <= i < |series|
      ensures HasBucket(series[i], bucket) <==> HasPoint(points, bucket, bridges[i])
    {
      SeriesOfBridge(rows, q, points, bridges[i], series[i], bucket);
    }
    if HasBucket(points, bucket) {
      var k :| 0 <= k < |points| && points[k].bucket == bucket;
      var i :| 0 <= i < |bridges| && bridges[i] == points[k].source;
      assert HasPoint(points, bucket, bridges[i]);
    }
    if i :| 0 <= i < |series| && HasBucket(series[i], bucket) {
      assert HasPoint(points, bucket, bridges[i]);
    }
  }

  /** The series of a request: one bridge's own, or the fleet's when no bridge id is given. */
  method QueryMqttMetrics(rows: seq<Sample>, env: EnvId, sourceId: SourceId, start: int, end: int, step: int)
    returns (points: seq<Point>, fleet: Option<map<int, Option<real>>>)
    ensures Answers(points, rows, QueryFor(env, true, sourceId, start, end, step))
    ensures fleet.Some? <==> |sourceId.id| == 0
    ensures fleet.Some? ==> forall b :: b in fleet.value <==> HasBucket(points, b)
    ensures fleet.Some? ==> forall b :: b in fleet.value ==> fleet.value[b] == Total(points, b)
  {
    points := RunQuery(rows, QueryFor(env, true, sourceId, start, end, step));
    fleet := None;
    if |sourceId.id| == 0 {
      var sums := FleetSum(points);
      fleet := Some(sums);
    }
  }
}
