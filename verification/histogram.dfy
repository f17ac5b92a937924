/** Histogram buckets in internal/collector/mqtt_metrics_parser.go: the scrape path reads cumulative
    counts by bound and differences them in place; the push path decodes raw counts by array
    length, for the current bounds or the legacy ones that lack 25 ms. */
module Histogram {
  import opened Common

  const BOUNDS: seq<real> := [0.0005, 0.001, 0.005, 0.01, 0.025, 0.05, 0.1, 0.5, 1.0, 5.0]
  const LEGACY_BOUNDS: seq<real> := [0.0005, 0.001, 0.005, 0.01, 0.05, 0.1, 0.5, 1.0, 5.0]
  const BUCKET_COUNT: nat := 10
  const MAX_INT64: int := 0x7fff_ffff_ffff_ffff

  function Max(a: int, b: int): int { if a >= b then a else b }

  // ---------------------------------------------------------------------------------------
  // Differencing
  // ---------------------------------------------------------------------------------------

  /** The largest entry up to each position. */
  function RunningMax(s: seq<int>): (r: seq<int>)
    ensures |r| == |s|
  {
    if |s| <= 1 then s
    else
      var before := RunningMax(s[..|s| - 1]);
      before + [Max(s[|s| - 1], before[|s| - 2])]
  }

  function Differences(s: seq<int>): (r: seq<int>)
    ensures |r| == |s|
  {
    seq(|s|, i requires 0 <= i < |s| => if i == 0 then s[0] else s[i] - s[i - 1])
  }

  function PrefixSum(s: seq<int>, n: nat): int
    requires n <= |s|
  {
    if n == 0 then 0 else PrefixSum(s, n - 1) + s[n - 1]
  }

  predicate NonNegative(s: seq<int>) {
    forall i :: 0 <= i < |s| ==> 0 <= s[i]
  }

  /** A non-negative 64-bit value. */
  predicate IsCount(x: int) {
    0 <= x <= MAX_INT64
  }

  /** `RunningMax` is the one sequence that starts like `s` and steps by maximum. */
  predicate StepsByMax(s: seq<int>, m: seq<int>) {
    && |m| == |s|
    && (|s| > 0 ==> m[0] == s[0])
    && forall i :: 1 <= i < |s| ==> m[i] == Max(s[i], m[i - 1])
  }

  lemma {:induction false} RunningMaxSteps(s: seq<int>)
    ensures StepsByMax(s, RunningMax(s))
  {
    if |s| > 1 {
      RunningMaxSteps(s[..|s| - 1]);
    }
  }

  lemma {:induction false} StepsByMaxUnique(s: seq<int>, m: seq<int>, m': seq<int>, i: nat)
    requires StepsByMax(s, m) && StepsByMax(s, m') && i < |s|
    ensures m[i] == m'[i]
  {
    if i > 0 {
      StepsByMaxUnique(s, m, m', i - 1);
    }
  }

  lemma RunningMaxIs(s: seq<int>, m: seq<int>)
    requires StepsByMax(s, m)
    ensures RunningMax(s) == m
  {
    RunningMaxSteps(s);
    forall i | 0 <= i < |s|
      ensures RunningMax(s)[i] == m[i]
    {
      StepsByMaxUnique(s, RunningMax(s), m, i);
    }
  }

  /** The running maximum at `i` bounds every entry up to `i`, and is one of them. */
  lemma {:induction false} RunningMaxIsMaximum(s: seq<int>, i: nat)
    requires i < |s|
    ensures forall j :: 0 <= j <= i ==> s[j] <= RunningMax(s)[i]
    ensures exists j :: 0 <= j <= i && s[j] == RunningMax(s)[i]
  {
    RunningMaxSteps(s);
    if i == 0 {
      assert s[0] == RunningMax(s)[0];
    } else {
      RunningMaxIsMaximum(s, i - 1);
      if RunningMax(s)[i] != s[i] {
        var j :| 0 <= j <= i - 1 && s[j] == RunningMax(s)[i - 1];
        assert s[j] == RunningMax(s)[i];
      }
    }
  }

  lemma {:induction false} PrefixSumOfDifferences(s: seq<int>, n: nat)
    requires 0 < n <= |s|
    ensures PrefixSum(Differences(s), n) == s[n - 1]
  {
    if n > 1 {
      PrefixSumOfDifferences(s, n - 1);
    }
  }

  /** What `bucketsCumulativeToRaw` leaves: counts whose prefix sums are the running maximum. */
  function CumulativeToRaw(s: seq<int>): seq<int> {
    Differences(RunningMax(s))
  }

  lemma PrefixSumsAreRunningMax(s: seq<int>, n: nat)
    requires 0 < n <= |s|
    ensures |CumulativeToRaw(s)| == |s|
    ensures PrefixSum(CumulativeToRaw(s), n) == RunningMax(s)[n - 1]
  {
    PrefixSumOfDifferences(RunningMax(s), n);
  }

  /** On non-negative 64-bit counts every stored value stays a non-negative 64-bit count: the running
      maxima as well as the differences, so nothing wraps. */
  lemma NeverOverflows(s: seq<int>, i: nat)
    requires i < |s| && forall j :: 0 <= j < |s| ==> IsCount(s[j])
    ensures IsCount(RunningMax(s)[i]) && IsCount(CumulativeToRaw(s)[i])
  {
    RunningMaxInRange(s, i);
    if i > 0 {
      RunningMaxInRange(s, i - 1);
      RunningMaxAscends(s, i);
    }
    DifferenceInRange(RunningMax(s), i);
  }

  lemma DifferenceInRange(m: seq<int>, i: nat)
    requires i < |m| && IsCount(m[i]) && (i > 0 ==> IsCount(m[i - 1]) && m[i - 1] <= m[i])
    ensures IsCount(Differences(m)[i])
  {
  }

  lemma RunningMaxAscends(s: seq<int>, i: nat)
    requires 0 < i < |s|
    ensures RunningMax(s)[i - 1] <= RunningMax(s)[i]
  {
    RunningMaxSteps(s);
  }

  lemma RunningMaxInRange(s: seq<int>, i: nat)
    requires i < |s| && forall j :: 0 <= j < |s| ==> IsCount(s[j])
    ensures IsCount(RunningMax(s)[i])
  {
    RunningMaxIsMaximum(s, i);
    var j :| 0 <= j <= i && s[j] == RunningMax(s)[i];
  }

  /** The two in-place passes. */
  method BucketsCumulativeToRaw(cum: array<int>)
    modifies cum
    ensures cum[..] == CumulativeToRaw(old(cum[..]))
  {
    ghost var was := cum[..];
    ghost var top := RunningMax(was);
    RunningMaxSteps(was);
    for i := 1 to Max(1, cum.Length)
      invariant forall j :: 0 <= j < i && j < cum.Length ==> cum[j] == top[j]
      invariant forall j :: i <= j < cum.Length ==> cum[j] == was[j]
    {
      cum[i] := Max(cum[i], cum[i - 1]);
    }
    var i := cum.Length - 1;
    while i > 0
      invariant cum.Length > 0 ==> 0 <= i < cum.Length
      invariant forall j :: 0 <= j <= i && j < cum.Length ==> cum[j] == top[j]
      invariant forall j :: 0 <= i < j < cum.Length ==> cum[j] == top[j] - top[j - 1]
    {
      cum[i] := cum[i] - cum[i - 1];
      i := i - 1;
    }
    assert cum[..] == Differences(top);
  }

  // ---------------------------------------------------------------------------------------
  // Bounds
  // ---------------------------------------------------------------------------------------

  /** `slices.Index` into the current bounds, from position `i`. */
  function IndexFrom(b: real, i: nat): (r: int)
    ensures r == -1 || (i <= r < |BOUNDS| && BOUNDS[r] == b)
    decreases |BOUNDS| - i
  {
    if i >= |BOUNDS| then -1 else if BOUNDS[i] == b then i else IndexFrom(b, i + 1)
  }

  /** `histBucketIndex`: `None` stands for a label that is infinite, NaN or no number. */
  function HistBucketIndex(le: Option<real>): int {
    if le.None? then -1 else IndexFrom(le.value, 0)
  }

  /** Where each current bound is found. */
  lemma BoundIndex(i: nat)
    requires i < BUCKET_COUNT
    ensures HistBucketIndex(Some(BOUNDS[i])) == i
  {
    IndexFromAt(i, 0);
  }

  /** Any other label is in no bucket. */
  lemma UnknownBound(b: real)
    requires forall i :: 0 <= i < |BOUNDS| ==> BOUNDS[i] != b
    ensures HistBucketIndex(Some(b)) == -1 && HistBucketIndex(None) == -1
  {
  }

  lemma {:induction false} IndexFromAt(i: nat, k: nat)
    requires k <= i < |BOUNDS|
    ensures IndexFrom(BOUNDS[i], k) == i
    decreases i - k
  {
    BoundsAscend(k, i);
    if k < i {
      IndexFromAt(i, k + 1);
    }
  }

  lemma BoundsAscend(i: nat, j: nat)
    requires i <= j < |BOUNDS|
    ensures i < j ==> BOUNDS[i] < BOUNDS[j]
  {
  }

  /** The position of legacy bound `i` among the current ones: one further on past 25 ms. */
  function FromLegacy(i: nat): nat {
    if i < 4 then i else i + 1
  }

  lemma LegacyIndex(i: nat)
    requires i < |LEGACY_BOUNDS|
    ensures FromLegacy(i) < BUCKET_COUNT && BOUNDS[FromLegacy(i)] == LEGACY_BOUNDS[i]
    ensures HistBucketIndex(Some(LEGACY_BOUNDS[i])) == FromLegacy(i)
  {
    BoundIndex(FromLegacy(i));
  }

  // ---------------------------------------------------------------------------------------
  // The push decoder
  // ---------------------------------------------------------------------------------------

  /** The buckets of a pushed array: by position, spread around the missing 25 ms bound, or empty. */
  function Pushed(raw: seq<int>): (h: seq<int>)
    ensures |h| == BUCKET_COUNT
  {
    if |raw| == BUCKET_COUNT then raw
    else if |raw| == |LEGACY_BOUNDS| then raw[..4] + [0] + raw[4..]
    else seq(BUCKET_COUNT, _ => 0)
  }

  /** Ten pushed counts are the buckets; nine are, around an empty 25 ms bucket; any other number gives none. */
  lemma PushedMeans(raw: seq<int>, i: nat)
    requires i < 10
    ensures |raw| == 10 ==> Pushed(raw)[i] == raw[i]
    ensures |raw| == 9 ==> Pushed(raw)[i] == if i < 4 then raw[i] else if i == 4 then 0 else raw[i - 1]
    ensures |raw| != 10 && |raw| != 9 ==> Pushed(raw)[i] == 0
  {
  }

  /** `UnmarshalJSON` after the JSON array has been read. */
  method DecodePushed(raw: seq<int>) returns (h: array<int>)
    ensures fresh(h) && h[..] == Pushed(raw)
  {
    h := new int[BUCKET_COUNT](_ => 0);
    if |raw| == BUCKET_COUNT {
      for i := 0 to BUCKET_COUNT
        invariant forall j :: 0 <= j < i ==> h[j] == raw[j]
      {
        h[i] := raw[i];
      }
    } else if |raw| == |LEGACY_BOUNDS| {
      for i := 0 to |LEGACY_BOUNDS|
        invariant forall j :: 0 <= j < i ==> h[FromLegacy(j)] == raw[j]
        invariant h[4] == 0
      {
        LegacyIndex(i);
        h[HistBucketIndex(Some(LEGACY_BOUNDS[i]))] := raw[i];
      }
      forall k | 0 <= k < BUCKET_COUNT
        ensures h[k] == Pushed(raw)[k]
      {
        var j := if k < 4 then k else if k == 4 then 0 else k - 1;
        assert h[FromLegacy(j)] == raw[j];
      }
    }
  }

  // ---------------------------------------------------------------------------------------
  // The scrape
  // ---------------------------------------------------------------------------------------

  /** One bucket line of a family: its `le` label and its cumulative count. */
  datatype BucketLine = BucketLine(le: Option<real>, count: int)

  /** The cell of bucket `k` after reading the lines: the last line of that bound, or zero. */
  function Cell(lines: seq<BucketLine>, k: nat): int {
    if lines == [] then 0
    else if HistBucketIndex(lines[|lines| - 1].le) == k then lines[|lines| - 1].count
    else Cell(lines[..|lines| - 1], k)
  }

  function Cells(lines: seq<BucketLine>): seq<int> {
    seq(BUCKET_COUNT, k requires 0 <= k < BUCKET_COUNT => Cell(lines, k))
  }

  method ScrapeBuckets(lines: seq<BucketLine>) returns (h: array<int>)
    ensures fresh(h) && h[..] == CumulativeToRaw(Cells(lines))
  {
    h := new int[BUCKET_COUNT](_ => 0);
    for n := 0 to |lines|
      invariant forall k :: 0 <= k < BUCKET_COUNT ==> h[k] == Cell(lines[..n], k)
    {
      assert lines[..n + 1][..n] == lines[..n];
      var i := HistBucketIndex(lines[n].le);
      if i >= 0 {
        h[i] := lines[n].count;
      }
    }
    assert lines[..|lines|] == lines;
    assert h[..] == Cells(lines);
    BucketsCumulativeToRaw(h);
  }

  /** The lines render the cumulative form of `raw` over `layout`: every bound of the layout appears,
      in any order and any number of times, always with its own prefix sum; lines of bounds the
      dashboard does not know, and the infinite bound, may carry anything. */
  predicate Exposes(lines: seq<BucketLine>, layout: seq<real>, raw: seq<int>) {
    && |raw| == |layout|
    && (forall k :: 0 <= k < |lines| && HistBucketIndex(lines[k].le) >= 0 ==>
          exists i :: 0 <= i < |layout| && IsLineOf(lines[k], layout, raw, i))
    && (forall i :: 0 <= i < |layout| ==> HasLineOf(lines, layout, raw, i))
  }

  predicate HasLineOf(lines: seq<BucketLine>, layout: seq<real>, raw: seq<int>, i: nat)
    requires |raw| == |layout|
  {
    exists k :: 0 <= k < |lines| && IsLineOf(lines[k], layout, raw, i)
  }

  predicate IsLineOf(line: BucketLine, layout: seq<real>, raw: seq<int>, i: nat)
    requires |raw| == |layout|
  {
    i < |layout| && line == BucketLine(Some(layout[i]), PrefixSum(raw, i + 1))
  }

  /** If every line of bucket `k` says `v`, and there is one, the cell says `v`. */
  lemma {:induction false} CellAgrees(lines: seq<BucketLine>, k: nat, v: int)
    requires forall n :: 0 <= n < |lines| && HistBucketIndex(lines[n].le) == k ==> lines[n].count == v
    requires exists n :: 0 <= n < |lines| && HistBucketIndex(lines[n].le) == k
    ensures Cell(lines, k) == v
  {
    var n :| 0 <= n < |lines| && HistBucketIndex(lines[n].le) == k;
    if n < |lines| - 1 && HistBucketIndex(lines[|lines| - 1].le) != k {
      assert lines[..|lines| - 1][n] == lines[n];
      CellAgrees(lines[..|lines| - 1], k, v);
    }
  }

  lemma {:induction false} CellEmpty(lines: seq<BucketLine>, k: nat)
    requires forall n :: 0 <= n < |lines| ==> HistBucketIndex(lines[n].le) != k
    ensures Cell(lines, k) == 0
  {
    if lines != [] {
      CellEmpty(lines[..|lines| - 1], k);
    }
  }

  lemma {:induction false} PrefixSumMonotone(s: seq<int>, n: nat)
    requires NonNegative(s) && n <= |s|
    ensures 0 <= PrefixSum(s, n)
    ensures n < |s| ==> PrefixSum(s, n) <= PrefixSum(s, n + 1)
  {
    if n > 0 {
      PrefixSumMonotone(s, n - 1);
    }
  }

  /** The cells of a scrape of the current layout are the prefix sums. */
  lemma CurrentCell(lines: seq<BucketLine>, raw: seq<int>, i: nat)
    requires Exposes(lines, BOUNDS, raw) && i < BUCKET_COUNT
    ensures Cell(lines, i) == PrefixSum(raw, i + 1)
  {
    BoundIndex(i);
    forall n | 0 <= n < |lines| && HistBucketIndex(lines[n].le) == i
      ensures lines[n].count == PrefixSum(raw, i + 1)
    {
      var j :| 0 <= j < |BOUNDS| && IsLineOf(lines[n], BOUNDS, raw, j);
      BoundIndex(j);
    }
    assert HasLineOf(lines, BOUNDS, raw, i);
    var k :| 0 <= k < |lines| && IsLineOf(lines[k], BOUNDS, raw, i);
    CellAgrees(lines, i, PrefixSum(raw, i + 1));
  }

  /** The cells of a scrape of the legacy layout are the prefix sums, with nothing at 25 ms. */
  lemma LegacyCell(lines: seq<BucketLine>, raw: seq<int>, i: nat)
    requires Exposes(lines, LEGACY_BOUNDS, raw) && i < |LEGACY_BOUNDS|
    ensures Cell(lines, FromLegacy(i)) == PrefixSum(raw, i + 1)
  {
    LegacyIndex(i);
    forall n | 0 <= n < |lines| && HistBucketIndex(lines[n].le) == FromLegacy(i)
      ensures lines[n].count == PrefixSum(raw, i + 1)
    {
      var j :| 0 <= j < |LEGACY_BOUNDS| && IsLineOf(lines[n], LEGACY_BOUNDS, raw, j);
      LegacyIndex(j);
    }
    assert HasLineOf(lines, LEGACY_BOUNDS, raw, i);
    var k :| 0 <= k < |lines| && IsLineOf(lines[k], LEGACY_BOUNDS, raw, i);
    CellAgrees(lines, FromLegacy(i), PrefixSum(raw, i + 1));
  }

  lemma LegacyGap(lines: seq<BucketLine>, raw: seq<int>)
    requires Exposes(lines, LEGACY_BOUNDS, raw)
    ensures Cell(lines, 4) == 0
  {
    forall n | 0 <= n < |lines|
      ensures HistBucketIndex(lines[n].le) != 4
    {
      if HistBucketIndex(lines[n].le) == 4 {
        var j :| 0 <= j < |LEGACY_BOUNDS| && IsLineOf(lines[n], LEGACY_BOUNDS, raw, j);
        LegacyIndex(j);
      }
    }
    CellEmpty(lines, 4);
  }

  /** The cumulative counts of a bucket array. */
  function Sums(h: seq<int>): (r: seq<int>)
    ensures |r| == |h|
  {
    seq(|h|, k requires 0 <= k < |h| => PrefixSum(h, k + 1))
  }

  lemma DifferencesOfSums(h: seq<int>)
    requires |h| == BUCKET_COUNT
    ensures Differences(Sums(h)) == h
  {
    var d := Differences(Sums(h));
    forall k | 0 <= k < BUCKET_COUNT
      ensures d[k] == h[k]
    {
      assert PrefixSum(h, k + 1) == PrefixSum(h, k) + h[k];
    }
  }

  lemma {:induction false} LegacySum(raw: seq<int>, n: nat)
    requires |raw| == |LEGACY_BOUNDS| && n <= |raw|
    ensures PrefixSum(Pushed(raw), if n <= 4 then n else n + 1) == PrefixSum(raw, n)
  {
    if n > 0 {
      LegacySum(raw, n - 1);
      assert n == 5 ==> PrefixSum(Pushed(raw), 5) == PrefixSum(Pushed(raw), 4);
    }
  }

  /** The sums of the decoded buckets step by maximum through the scraped cells. */
  lemma SumStep(lines: seq<BucketLine>, raw: seq<int>, k: nat)
    requires NonNegative(raw) && k < BUCKET_COUNT
    requires Exposes(lines, BOUNDS, raw) || Exposes(lines, LEGACY_BOUNDS, raw)
    ensures var h := Pushed(raw);
            Sums(h)[k] == if k == 0 then Cell(lines, 0) else Max(Cell(lines, k), Sums(h)[k - 1])
  {
    var h := Pushed(raw);
    assert NonNegative(h);
    PrefixSumMonotone(h, k);
    if |raw| == BUCKET_COUNT {
      CurrentCell(lines, raw, k);
    } else if k == 4 {
      LegacyGap(lines, raw);
      assert PrefixSum(h, 5) == PrefixSum(h, 4);
    } else {
      var i := if k < 4 then k else k - 1;
      LegacyCell(lines, raw, i);
      LegacySum(raw, i + 1);
    }
  }

  /** Scraping the cumulative form of any bucket array of either layout gives exactly what decoding
      the pushed array gives. */
  lemma ScrapeAgreesWithPush(lines: seq<BucketLine>, raw: seq<int>)
    requires NonNegative(raw)
    requires Exposes(lines, BOUNDS, raw) || Exposes(lines, LEGACY_BOUNDS, raw)
    ensures CumulativeToRaw(Cells(lines)) == Pushed(raw)
  {
    var h, cells := Pushed(raw), Cells(lines);
    SumStep(lines, raw, 0);
    forall k | 1 <= k < BUCKET_COUNT
      ensures Sums(h)[k] == Max(cells[k], Sums(h)[k - 1])
    {
      SumStep(lines, raw, k);
    }
    RunningMaxIs(cells, Sums(h));
    DifferencesOfSums(h);
  }
}
