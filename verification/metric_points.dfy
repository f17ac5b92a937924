/** How many points a metrics query returns: one for each bucket and source with a sample. */
module MetricPoints {
  import opened Common
  import opened TimeBuckets
  import opened FleetQuery

  /** The (bucket, source) pairs that have a sample. */
  ghost function Groups(rows: seq<Sample>, q: Query): set<(int, SourceId)>
    requires q.step > 0
  {
    set i | 0 <= i < |rows| && Matches(q, rows[i]) :: (Bucket(rows[i].ts, q.step), GroupOf(q, rows[i]))
  }

  /** The sources with a sample in range. */
  ghost function Sources(rows: seq<Sample>, q: Query): set<SourceId> {
    set i | 0 <= i < |rows| && Matches(q, rows[i]) :: GroupOf(q, rows[i])
  }

  // ---------------------------------------------------------------------------------------
  // Sizes of sets
  // ---------------------------------------------------------------------------------------

  lemma {:induction false} DistinctSize<T>(s: seq<T>)
    requires forall i, j :: 0 <= i < j < |s| ==> s[i] != s[j]
    ensures |set x | x in s| == |s|
  {
    if s != [] {
      var n := |s| - 1;
      DistinctSize(s[..n]);
      assert (set x | x in s) == (set x | x in s[..n]) + {s[n]};
    }
  }

  lemma {:induction false} SubsetSize<T>(a: set<T>, b: set<T>)
    requires a <= b
    ensures |a| <= |b|
  {
    if a != {} {
      var x :| x in a;
      SubsetSize(a - {x}, b - {x});
    }
  }

  ghost function Pairs<A, B>(a: set<A>, b: set<B>): set<(A, B)> {
    set x, y | x in a && y in b :: (x, y)
  }

  lemma {:induction false} RowSize<A, B>(a: set<A>, y: B)
    ensures |Pairs(a, {y})| == |a|
  {
    if a == {} {
      assert Pairs(a, {y}) == {};
    } else {
      var x :| x in a;
      RowSize(a - {x}, y);
      assert Pairs(a, {y}) == Pairs(a - {x}, {y}) + {(x, y)};
    }
  }

  lemma {:induction false} PairsSize<A, B>(a: set<A>, b: set<B>)
    ensures |Pairs(a, b)| == |a| * |b|
  {
    if b == {} {
      assert Pairs(a, b) == {};
    } else {
      var y :| y in b;
      PairsSize(a, b - {y});
      RowSize(a, y);
      PairsSplit(a, b, y);
      UnionSize(Pairs(a, b - {y}), Pairs(a, {y}));
      OneMore(|a|, |b - {y}|);
    }
  }

  lemma PairsSplit<A, B>(a: set<A>, b: set<B>, y: B)
    requires y in b
    ensures Pairs(a, b) == Pairs(a, b - {y}) + Pairs(a, {y}) && Pairs(a, b - {y}) !! Pairs(a, {y})
  {
  }

  lemma UnionSize<T>(a: set<T>, b: set<T>)
    requires a !! b
    ensures |a + b| == |a| + |b|
  {
  }

  lemma OneMore(n: nat, m: nat)
    ensures n * (m + 1) == n * m + n
  {
  }

  // ---------------------------------------------------------------------------------------
  // Points are groups
  // ---------------------------------------------------------------------------------------

  function KeysOf(points: seq<Point>): (r: seq<(int, SourceId)>) {
    seq(|points|, i requires 0 <= i < |points| => (points[i].bucket, points[i].source))
  }

  /** Whatever order the rows come in, a query returns one point for each group with a sample. */
  lemma PointsAreGroups(points: seq<Point>, rows: seq<Sample>, q: Query)
    requires Answers(points, rows, q)
    ensures |points| == |Groups(rows, q)|
  {
    var keys := KeysOf(points);
    DistinctSize(keys);
    forall k | k in keys
      ensures k in Groups(rows, q)
    {
      var i :| 0 <= i < |points| && keys[i] == k;
      assert HasPoint(points, k.0, k.1) && HasSample(rows, q, k.0, k.1);
    }
    forall k | k in Groups(rows, q)
      ensures k in keys
    {
      assert HasSample(rows, q, k.0, k.1) && HasPoint(points, k.0, k.1);
      var i :| 0 <= i < |points| && points[i].bucket == k.0 && points[i].source == k.1;
      assert keys[i] == k;
    }
    assert (set k | k in keys) == Groups(rows, q);
  }

  /** At most one point for each bucket of the range and source with a sample. */
  lemma GroupBound(rows: seq<Sample>, q: Query)
    requires q.step > 0
    ensures |Groups(rows, q)| <= |Buckets(q.start, q.end, q.step)| * |Sources(rows, q)|
  {
    var buckets, sources := Buckets(q.start, q.end, q.step), Sources(rows, q);
    forall k | k in Groups(rows, q)
      ensures k in Pairs(buckets, sources)
    {
      var i :| 0 <= i < |rows| && Matches(q, rows[i]) && k == (Bucket(rows[i].ts, q.step), GroupOf(q, rows[i]));
      assert k.0 in buckets && k.1 in sources;
    }
    SubsetSize(Groups(rows, q), Pairs(buckets, sources));
    PairsSize(buckets, sources);
  }

  lemma Scaled(a: nat, b: nat, c: nat, d: nat)
    requires a <= c && b <= d
    ensures a * b <= c * d
  {
    assert a * b <= c * b by {
      assert (c - a) * b >= 0;
    }
    assert c * b <= c * d by {
      assert c * (d - b) >= 0;
    }
  }

  lemma OneGroupPerBucket(rows: seq<Sample>, q: Query)
    requires q.step > 0 && (!q.grouped || q.source.Some?)
    ensures |Groups(rows, q)| <= |Buckets(q.start, q.end, q.step)|
  {
    var only := if q.grouped then q.source.value else NO_SOURCE;
    assert Sources(rows, q) <= {only};
    SubsetSize(Sources(rows, q), {only});
    GroupBound(rows, q);
    Scaled(|Buckets(q.start, q.end, q.step)|, |Sources(rows, q)|, |Buckets(q.start, q.end, q.step)|, 1);
  }

  /** A query without an id column, or filtered by one id, returns at most one point for each bucket. */
  lemma OnePointPerBucket(points: seq<Point>, rows: seq<Sample>, q: Query)
    requires Answers(points, rows, q) && (!q.grouped || q.source.Some?)
    ensures |points| <= |Buckets(q.start, q.end, q.step)|
  {
    PointsAreGroups(points, rows, q);
    OneGroupPerBucket(rows, q);
  }

  /** So does the fleet query. */
  lemma FleetPointPerBucket(points: seq<Point>, rows: seq<Sample>, q: Query, fleet: map<int, Option<real>>)
    requires Answers(points, rows, q) && forall b :: b in fleet <==> HasBucket(points, b)
    ensures |fleet| <= |Buckets(q.start, q.end, q.step)|
  {
    forall b | b in fleet
      ensures b in Buckets(q.start, q.end, q.step)
    {
      var i :| 0 <= i < |points| && points[i].bucket == b;
      assert HasPoint(points, b, points[i].source) && HasSample(rows, q, b, points[i].source);
    }
    SubsetSize(fleet.Keys, Buckets(q.start, q.end, q.step));
    assert |fleet| == |fleet.Keys|;
  }

  // ---------------------------------------------------------------------------------------
  // Every request
  // ---------------------------------------------------------------------------------------

  /** Every request for any table, at every clock value, returns at most the bucket limit for each source
      that has a sample in range. */
  lemma RequestPointBound(now: int, fromParam: Option<int>, toParam: Option<int>, stepParam: Option<int>,
                          env: EnvId, grouped: bool, id: SourceId, rows: seq<Sample>, points: seq<Point>)
    requires var r := Parsed(now, fromParam, toParam, stepParam);
             Answers(points, rows, QueryFor(env, grouped, id, r.start, r.end, r.step))
    ensures var r := Parsed(now, fromParam, toParam, stepParam);
            var q := QueryFor(env, grouped, id, r.start, r.end, r.step);
            && |points| <= BucketLimit(r.step) * |Sources(rows, q)|
            && (!grouped || |id.id| > 0 ==> |points| <= BucketLimit(r.step))
  {
    var r := Parsed(now, fromParam, toParam, stepParam);
    var q := QueryFor(env, grouped, id, r.start, r.end, r.step);
    RequestBound(now, fromParam, toParam, stepParam);
    PointsAreGroups(points, rows, q);
    GroupBound(rows, q);
    Scaled(|Buckets(q.start, q.end, q.step)|, |Sources(rows, q)|, BucketLimit(r.step), |Sources(rows, q)|);
    if !grouped || |id.id| > 0 {
      OnePointPerBucket(points, rows, q);
    }
  }

  // ---------------------------------------------------------------------------------------
  // Tables with a sample of every source in every second
  // ---------------------------------------------------------------------------------------

  function Second(env: EnvId, ts: int, ids: seq<SourceId>): (rows: seq<Sample>) {
    if ids == [] then [] else Second(env, ts, ids[..|ids| - 1]) + [Sample(env, ids[|ids| - 1], ts, None)]
  }

  function Dense(env: EnvId, start: int, seconds: nat, ids: seq<SourceId>): (rows: seq<Sample>) {
    if seconds == 0 then [] else Dense(env, start, seconds - 1, ids) + Second(env, start + seconds - 1, ids)
  }

  lemma {:induction false} SecondHolds(env: EnvId, ts: int, ids: seq<SourceId>, s: Sample)
    ensures s in Second(env, ts, ids) <==> s.env == env && s.ts == ts && s.source in ids && s.value.None?
  {
    if ids != [] {
      var n := |ids| - 1;
      SecondHolds(env, ts, ids[..n], s);
      assert ids == ids[..n] + [ids[n]];
    }
  }

  lemma {:induction false} DenseHolds(env: EnvId, start: int, seconds: nat, ids: seq<SourceId>, s: Sample)
    ensures s in Dense(env, start, seconds, ids) <==>
              s.env == env && start <= s.ts < start + seconds && s.source in ids && s.value.None?
  {
    if seconds > 0 {
      DenseHolds(env, start, seconds - 1, ids, s);
      SecondHolds(env, start + seconds - 1, ids, s);
    }
  }

  lemma DenseMember(env: EnvId, start: int, seconds: nat, ids: seq<SourceId>, ts: int, id: SourceId) returns (i: nat)
    requires start <= ts < start + seconds && id in ids
    ensures i < |Dense(env, start, seconds, ids)| && Dense(env, start, seconds, ids)[i] == Sample(env, id, ts, None)
  {
    DenseHolds(env, start, seconds, ids, Sample(env, id, ts, None));
    var rows := Dense(env, start, seconds, ids);
    i :| 0 <= i < |rows| && rows[i] == Sample(env, id, ts, None);
  }

  lemma DenseSources(env: EnvId, q: Query, ids: seq<SourceId>)
    requires DenseQuery(env, q)
    ensures Sources(Dense(env, q.start, q.end - q.start + 1, ids), q) == set id | id in ids
  {
    var rows := Dense(env, q.start, q.end - q.start + 1, ids);
    forall id | id in Sources(rows, q)
      ensures id in ids
    {
      var i :| 0 <= i < |rows| && Matches(q, rows[i]) && id == GroupOf(q, rows[i]);
      DenseHolds(env, q.start, q.end - q.start + 1, ids, rows[i]);
    }
    forall id | id in ids
      ensures id in Sources(rows, q)
    {
      var i := DenseMember(env, q.start, q.end - q.start + 1, ids, q.start, id);
      assert Matches(q, rows[i]) && GroupOf(q, rows[i]) == id;
    }
  }

  /** A query of the table's environment without an id. */
  predicate DenseQuery(env: EnvId, q: Query) {
    q.env == env && q.grouped && q.source.None? && q.step > 0 && q.start <= q.end
  }

  /** Such a table has a group for every bucket of the range and every source. */
  lemma DenseGroups(env: EnvId, q: Query, ids: seq<SourceId>)
    requires DenseQuery(env, q) && forall i, j :: 0 <= i < j < |ids| ==> ids[i] != ids[j]
    ensures var rows := Dense(env, q.start, q.end - q.start + 1, ids);
            |Sources(rows, q)| == |ids| && |Groups(rows, q)| == |Buckets(q.start, q.end, q.step)| * |ids|
  {
    var rows := Dense(env, q.start, q.end - q.start + 1, ids);
    var buckets, sources := Buckets(q.start, q.end, q.step), set id | id in ids;
    DenseSources(env, q, ids);
    DistinctSize(ids);
    GroupBound(rows, q);
    forall k | k in Pairs(buckets, sources)
      ensures k in Groups(rows, q)
    {
      DenseGroup(env, q, ids, k);
    }
    SubsetSize(Pairs(buckets, sources), Groups(rows, q));
    PairsSize(buckets, sources);
  }

  lemma DenseGroup(env: EnvId, q: Query, ids: seq<SourceId>, k: (int, SourceId))
    requires DenseQuery(env, q) && k.0 in Buckets(q.start, q.end, q.step) && k.1 in ids
    ensures k in Groups(Dense(env, q.start, q.end - q.start + 1, ids), q)
  {
    var rows := Dense(env, q.start, q.end - q.start + 1, ids);
    var ts :| q.start <= ts <= q.end && k.0 == Bucket(ts, q.step);
    var i := DenseMember(env, q.start, q.end - q.start + 1, ids, ts, k.1);
    assert Matches(q, rows[i]) && k == (Bucket(rows[i].ts, q.step), GroupOf(q, rows[i]));
  }

  /** As many different ids as one likes. */
  lemma SomeIds(n: nat) returns (ids: seq<SourceId>)
    ensures |ids| == n && forall i, j :: 0 <= i < j < n ==> ids[i] != ids[j]
  {
    ids := seq(n, i requires 0 <= i < n => SourceId(seq(i + 1, _ => 'x')));
    forall i, j | 0 <= i < j < n
      ensures ids[i] != ids[j]
    {
      assert |ids[i].id| == i + 1 && |ids[j].id| == j + 1;
    }
  }

  /** The bound on requests without an id is reached, for any number of sources. */
  lemma RequestPointBoundReached(env: EnvId, ids: seq<SourceId>, r: Range)
    requires forall i, j :: 0 <= i < j < |ids| ==> ids[i] != ids[j]
    requires r == Parsed(1000009999, Some(1000000000), None, Some(1))
    ensures var q := QueryFor(env, true, NO_SOURCE, r.start, r.end, r.step);
            var rows := Dense(env, r.start, r.end - r.start + 1, ids);
            |Sources(rows, q)| == |ids| && |Groups(rows, q)| == 2 * MAX_METRIC_POINTS * |ids|
  {
    BoundsAreTight();
    DenseGroups(env, QueryFor(env, true, NO_SOURCE, r.start, r.end, r.step), ids);
  }

  /** Two servers sampled every second, a step of one second and a range of 4999 seconds: a request without a
      server id has 5000 buckets and returns 10000 points. */
  lemma TwoServersExceed(env: EnvId, a: SourceId, b: SourceId, r: Range)
    requires a != b && r == Parsed(1000004999, Some(1000000000), None, Some(1))
    ensures var q := QueryFor(env, true, NO_SOURCE, r.start, r.end, r.step);
            var rows := Dense(env, r.start, r.end - r.start + 1, [a, b]);
            |Buckets(q.start, q.end, q.step)| == MAX_METRIC_POINTS && |Groups(rows, q)| == 2 * MAX_METRIC_POINTS
  {
    BucketCount(r.start, r.end, r.step);
    DenseGroups(env, QueryFor(env, true, NO_SOURCE, r.start, r.end, r.step), [a, b]);
  }

  // ---------------------------------------------------------------------------------------
  // The documented bound
  // ---------------------------------------------------------------------------------------

  ghost predicate Within(rows: seq<Sample>, q: Query, sources: nat)
    requires q.step > 0
  {
    |Sources(rows, q)| <= sources ==> |Groups(rows, q)| <= MAX_METRIC_POINTS
  }

  /** Wherever the range lies and whatever was sampled of at most that many sources, a query without an id
      returns no more points than documented. */
  ghost predicate WithinDocumented(length: nat, step: int, sources: nat)
    requires step > 0
  {
    forall rows, q: Query ::
      q.step == step && q.end == q.start + length && q.grouped && q.source.None? ==> Within(rows, q, sources)
  }

  /** The documented bound holds exactly when the most buckets of such a range, times the number of sources,
      stay within it. */
  lemma DocumentedBound(length: nat, step: int, sources: nat)
    requires step > 0
    ensures WithinDocumented(length, step, sources) <==> MostBuckets(length, step) * sources <= MAX_METRIC_POINTS
  {
    if MostBuckets(length, step) * sources <= MAX_METRIC_POINTS {
      forall rows: seq<Sample>, q: Query | q.step == step && q.end == q.start + length
        ensures Within(rows, q, sources)
      {
        if |Sources(rows, q)| <= sources {
          GroupBound(rows, q);
          BucketMaximum(length, step, q.start);
          Scaled(|Buckets(q.start, q.end, step)|, |Sources(rows, q)|, MostBuckets(length, step), sources);
        }
      }
    } else {
      var ids := SomeIds(sources);
      var env, start := EnvId(""), step - 1;
      var q := Query(env, true, None, start, start + length, step);
      BucketMaximum(length, step, start);
      DenseGroups(env, q, ids);
      assert !Within(Dense(env, q.start, q.end - q.start + 1, ids), q, sources);
    }
  }

  /** The source whose samples a query without an id column, or filtered by one id, returns. */
  function OnlySource(q: Query): SourceId {
    if q.source.Some? then q.source.value else NO_SOURCE
  }

  predicate PerBucket(q: Query) {
    q.step > 0 && q.start <= q.end && (!q.grouped || q.source.Some?)
  }

  /** Sampled every second, such a query has a group for every bucket of its range. */
  lemma DensePerBucket(q: Query)
    requires PerBucket(q)
    ensures var rows := Dense(q.env, q.start, q.end - q.start + 1, [OnlySource(q)]);
            |Groups(rows, q)| >= |Buckets(q.start, q.end, q.step)|
  {
    var id := OnlySource(q);
    var rows := Dense(q.env, q.start, q.end - q.start + 1, [id]);
    var buckets, group := Buckets(q.start, q.end, q.step), if q.grouped then id else NO_SOURCE;
    forall k | k in Pairs(buckets, {group})
      ensures k in Groups(rows, q)
    {
      var ts :| q.start <= ts <= q.end && k.0 == Bucket(ts, q.step);
      var i := DenseMember(q.env, q.start, q.end - q.start + 1, [id], ts, id);
      assert Matches(q, rows[i]) && k == (Bucket(rows[i].ts, q.step), GroupOf(q, rows[i]));
    }
    SubsetSize(Pairs(buckets, {group}), Groups(rows, q));
    RowSize(buckets, group);
  }

  ghost predicate AtMostDocumented(rows: seq<Sample>, q: Query)
    requires q.step > 0
  {
    |Groups(rows, q)| <= MAX_METRIC_POINTS
  }

  /** Queries of this kind, wherever the range lies and whatever was sampled. */
  ghost predicate PerBucketWithin(length: nat, step: int, grouped: bool, source: Option<SourceId>)
    requires step > 0
  {
    forall rows, q: Query ::
      q.step == step && q.end == q.start + length && q.grouped == grouped && q.source == source ==>
        AtMostDocumented(rows, q)
  }

  /** For queries without an id column and for those filtered by one id, whichever it is, the documented
      bound holds exactly up to 4999 steps. */
  lemma DocumentedBoundPerBucket(length: nat, step: int, grouped: bool, source: Option<SourceId>)
    requires step > 0 && (!grouped || source.Some?)
    ensures PerBucketWithin(length, step, grouped, source) <==> length <= (MAX_METRIC_POINTS - 1) * step
  {
    StepsWithin(length, step);
    if MostBuckets(length, step) <= MAX_METRIC_POINTS {
      forall rows: seq<Sample>, q: Query |
        q.step == step && q.end == q.start + length && q.grouped == grouped && q.source == source
        ensures AtMostDocumented(rows, q)
      {
        OneGroupPerBucket(rows, q);
        BucketMaximum(length, step, q.start);
      }
    } else {
      var q := Query(EnvId(""), grouped, source, step - 1, step - 1 + length, step);
      BucketMaximum(length, step, step - 1);
      DensePerBucket(q);
      assert !AtMostDocumented(Dense(q.env, q.start, q.end - q.start + 1, [OnlySource(q)]), q);
    }
  }

  lemma StepsWithin(length: nat, step: int)
    requires step > 0
    ensures MostBuckets(length, step) <= MAX_METRIC_POINTS <==> length <= (MAX_METRIC_POINTS - 1) * step
  {
    var k := (length + step - 1) / step;
    DivBy(length + step - 1, step, k);
    if k <= MAX_METRIC_POINTS - 1 {
      Scale(k + 1, MAX_METRIC_POINTS, step);
    } else {
      Scale(MAX_METRIC_POINTS, k, step);
    }
  }
}
