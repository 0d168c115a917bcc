/**
 * Latency objectives from hourly aggregates. Requests are stored only as counts per route, hour,
 * status class and latency bucket; the ninety-fifth percentile is read off the histogram.
 */
module LatencyMetrics {
  import opened Prelude

  datatype Status = Ok2xx | Redirect3xx | Client4xx | Server5xx

  /** One finished request, as seen by the observer. */
  datatype Request = Request(route: string, hour: int, code: int, duration: int)

  datatype Row = Row(hour: int, route: string, status: Status, bucket: nat, count: nat)

  const BUCKETS: nat := 9

  /** Upper bounds of the buckets; the last one has none. */
  const UPPER: seq<int> := [100, 200, 300, 500, 800, 1_000, 3_000, 5_000]

  function BucketOf(duration: int): (b: nat)
    ensures b < BUCKETS
    ensures forall k :: 0 <= k < |UPPER| ==> (b <= k <==> duration < UPPER[k])
  {
    if duration < 100 then 0
    else if duration < 200 then 1
    else if duration < 300 then 2
    else if duration < 500 then 3
    else if duration < 800 then 4
    else if duration < 1_000 then 5
    else if duration < 3_000 then 6
    else if duration < 5_000 then 7
    else 8
  }

  function StatusOf(code: int): Status {
    if code >= 500 then Server5xx else if code >= 400 then Client4xx else if code >= 300 then Redirect3xx else Ok2xx
  }

  /**
   * How many values the percentile's rank counts, out of `n`: anything from one to `n`, so that the
   * rounding of `n * 0.95` does not matter. Both ways to a percentile use the same one.
   */
  ghost predicate IsRank(rank: nat -> nat) { forall n :: rank(n) <= n && (n > 0 ==> rank(n) > 0) }

  /** The nearest rank in whole numbers is one, so what holds for every rank holds for it. */
  lemma NearestRank()
    ensures IsRank((n: nat) => (95 * n + 99) / 100)
  {
  }

  /** What one figure of the dashboard looks at: one route or a surface of several, over a window of hours. */
  datatype Selection = Selection(routes: set<string>, from: int, to: int)

  predicate Selects(sel: Selection, route: string, hour: int) { route in sel.routes && sel.from <= hour <= sel.to }

  // ---------------------------------------------------------------- the aggregate

  predicate SameKey(r: Row, s: Row) { r.hour == s.hour && r.route == s.route && r.status == s.status && r.bucket == s.bucket }

  /** Add to the row of the same key, or append a new one. */
  function Increment(rows: seq<Row>, r: Row): seq<Row> {
    if |rows| == 0 then [r]
    else if SameKey(rows[0], r) then [rows[0].(count := rows[0].count + r.count)] + rows[1..]
    else [rows[0]] + Increment(rows[1..], r)
  }

  function RowOf(q: Request): Row { Row(q.hour, q.route, StatusOf(q.code), BucketOf(q.duration), 1) }

  function Recorded(requests: seq<Request>): seq<Row> {
    if |requests| == 0 then []
    else Increment(Recorded(requests[..|requests| - 1]), RowOf(requests[|requests| - 1]))
  }

  /** Total count of the rows that satisfy `p`. */
  function Total(rows: seq<Row>, p: Row -> bool): nat {
    if |rows| == 0 then 0 else (if p(rows[0]) then rows[0].count else 0) + Total(rows[1..], p)
  }

  /** A condition on rows that looks at their keys only. */
  ghost predicate ByKey(p: Row -> bool) { forall r, s :: SameKey(r, s) ==> p(r) == p(s) }

  lemma {:induction false} IncrementAdds(rows: seq<Row>, r: Row, p: Row -> bool)
    requires ByKey(p)
    ensures Total(Increment(rows, r), p) == Total(rows, p) + if p(r) then r.count else 0
  {
    if |rows| > 0 {
      var t := Increment(rows, r);
      if SameKey(rows[0], r) {
        assert t[1..] == rows[1..];
        assert SameKey(t[0], r);
      } else {
        assert t[1..] == Increment(rows[1..], r);
        IncrementAdds(rows[1..], r, p);
      }
    } else {
      assert [r][1..] == [];
    }
  }

  /** Aggregation forgets nothing about keys: totals are counts of requests. */
  lemma {:induction false} AggregateIsFaithful(requests: seq<Request>, p: Row -> bool)
    requires ByKey(p)
    ensures Total(Recorded(requests), p) == Count(requests, (q: Request) => p(RowOf(q)))
  {
    if |requests| > 0 {
      var front, last := requests[..|requests| - 1], requests[|requests| - 1];
      AggregateIsFaithful(front, p);
      IncrementAdds(Recorded(front), RowOf(last), p);
    }
  }

  // ---------------------------------------------------------------- the exact percentile

  predicate Ascending(s: seq<int>) { forall i, j :: 0 <= i < j < |s| ==> s[i] <= s[j] }

  function Insert(s: seq<int>, x: int): seq<int> {
    if |s| == 0 || s[|s| - 1] <= x then s + [x] else Insert(s[..|s| - 1], x) + [s[|s| - 1]]
  }

  function Sort(s: seq<int>): seq<int> {
    if |s| == 0 then [] else Insert(Sort(s[..|s| - 1]), s[|s| - 1])
  }

  lemma {:induction false} InsertSorts(s: seq<int>, x: int, p: int -> bool)
    requires Ascending(s)
    ensures Ascending(Insert(s, x)) && |Insert(s, x)| == |s| + 1
    ensures forall i :: 0 <= i <= |s| ==> Insert(s, x)[i] <= if |s| > 0 && s[|s| - 1] > x then s[|s| - 1] else x
    ensures Count(Insert(s, x), p) == Count(s, p) + if p(x) then 1 else 0
  {
    if |s| == 0 || s[|s| - 1] <= x {
      CountSnoc(s, x, p);
    } else {
      InsertSorts(s[..|s| - 1], x, p);
      CountSnoc(Insert(s[..|s| - 1], x), s[|s| - 1], p);
    }
  }

  lemma {:induction false} SortSorts(s: seq<int>, p: int -> bool)
    ensures Ascending(Sort(s)) && |Sort(s)| == |s| && Count(Sort(s), p) == Count(s, p)
  {
    if |s| > 0 {
      SortSorts(s[..|s| - 1], p);
      InsertSorts(Sort(s[..|s| - 1]), s[|s| - 1], p);
    }
  }

  function Percentile95(values: seq<int>, rank: nat -> nat): Option<int>
    requires IsRank(rank)
  {
    SortSorts(values, v => true);
    if |values| == 0 then None else Some(Sort(values)[rank(|values|) - 1])
  }

  /** In an ascending list, at least `r` values fall into the first buckets iff the one of rank `r` does. */
  lemma {:induction false} RankIsCount(s: seq<int>, c: nat, r: nat)
    requires Ascending(s) && 0 < r <= |s|
    ensures Count(s, (v: int) => BucketOf(v) <= c) >= r <==> BucketOf(s[r - 1]) <= c
  {
    var p, last := (v: int) => BucketOf(v) <= c, s[|s| - 1];
    var front := s[..|s| - 1];
    if BucketOf(last) <= c {
      AllCounted(s, c);
      Monotone(s[r - 1], last);
    } else if r < |s| {
      RankIsCount(front, c, r);
    }
  }

  lemma Monotone(a: int, b: int)
    requires a <= b
    ensures BucketOf(a) <= BucketOf(b)
  {
  }

  lemma {:induction false} AllCounted(s: seq<int>, c: nat)
    requires Ascending(s) && |s| > 0 && BucketOf(s[|s| - 1]) <= c
    ensures Count(s, (v: int) => BucketOf(v) <= c) == |s|
  {
    if |s| > 1 {
      Monotone(s[|s| - 2], s[|s| - 1]);
      AllCounted(s[..|s| - 1], c);
    }
  }

  // ---------------------------------------------------------------- the histogram

  function InBucket(sel: Selection, b: nat): Row -> bool { (r: Row) => Selects(sel, r.route, r.hour) && r.bucket == b }
  function UpTo(sel: Selection, b: nat): Row -> bool { (r: Row) => Selects(sel, r.route, r.hour) && r.bucket <= b }
  function InSelection(sel: Selection): Row -> bool { (r: Row) => Selects(sel, r.route, r.hour) }
  function Failing(sel: Selection): Row -> bool { (r: Row) => Selects(sel, r.route, r.hour) && r.status == Server5xx }

  datatype Metric = Metric(requests: nat, fiveXx: nat, buckets: seq<nat>, p95: Option<nat>)

  lemma {:induction false} TotalSplits(rows: seq<Row>, sel: Selection, b: nat)
    ensures Total(rows, UpTo(sel, b + 1)) == Total(rows, UpTo(sel, b)) + Total(rows, InBucket(sel, b + 1))
    ensures Total(rows, UpTo(sel, 0)) == Total(rows, InBucket(sel, 0))
  {
    if |rows| > 0 {
      TotalSplits(rows[1..], sel, b);
    }
  }

  lemma {:induction false} TotalSnoc(rows: seq<Row>, i: nat, p: Row -> bool)
    requires i < |rows|
    ensures Total(rows[..i + 1], p) == Total(rows[..i], p) + if p(rows[i]) then rows[i].count else 0
    decreases i
  {
    if i > 0 {
      assert rows[..i + 1][1..] == rows[1..][..i] && rows[..i][1..] == rows[1..][..i - 1];
      TotalSnoc(rows[1..], i - 1, p);
    }
  }

  method BuildHttpRouteMetric(sel: Selection, rows: seq<Row>, rank: nat -> nat) returns (m: Metric)
    requires IsRank(rank) && forall r :: r in rows ==> r.bucket < BUCKETS
    ensures m.requests == Total(rows, InSelection(sel)) && m.fiveXx == Total(rows, Failing(sel)) && |m.buckets| == BUCKETS
    ensures forall b :: 0 <= b < BUCKETS ==> m.buckets[b] == Total(rows, InBucket(sel, b))
    ensures m.p95.None? ==> rank(m.requests) == 0 || Total(rows, UpTo(sel, BUCKETS - 1)) < rank(m.requests)
    ensures m.p95.Some? ==>
              && m.p95.value < BUCKETS && 0 < rank(m.requests) <= Total(rows, UpTo(sel, m.p95.value))
              && (m.p95.value > 0 ==> Total(rows, UpTo(sel, m.p95.value - 1)) < rank(m.requests))
  {
    var requests: nat, fiveXx: nat, buckets := 0, 0, seq(BUCKETS, i => 0 as nat);
    var i := 0;
    while i < |rows|
      invariant i <= |rows| && |buckets| == BUCKETS
      invariant requests == Total(rows[..i], InSelection(sel)) && fiveXx == Total(rows[..i], Failing(sel))
      invariant forall b :: 0 <= b < BUCKETS ==> buckets[b] == Total(rows[..i], InBucket(sel, b))
    {
      var r := rows[i];
      TotalSnoc(rows, i, InSelection(sel));
      TotalSnoc(rows, i, Failing(sel));
      forall b | 0 <= b < BUCKETS
        ensures Total(rows[..i + 1], InBucket(sel, b)) ==
                Total(rows[..i], InBucket(sel, b)) + if Selects(sel, r.route, r.hour) && r.bucket == b then r.count else 0
      {
        TotalSnoc(rows, i, InBucket(sel, b));
      }
      if Selects(sel, r.route, r.hour) {
        buckets := buckets[r.bucket := buckets[r.bucket] + r.count];
        requests := requests + r.count;
        if r.status == Server5xx { fiveXx := fiveXx + r.count; }
      }
      i := i + 1;
    }
    assert rows[..i] == rows;
    var p95 := FirstReaching(sel, rows, buckets, rank(requests));
    m := Metric(requests, fiveXx, buckets, p95);
  }

  /** The first bucket at which the cumulative count reaches the target. */
  method FirstReaching(sel: Selection, rows: seq<Row>, buckets: seq<nat>, target: nat) returns (p95: Option<nat>)
    requires |buckets| == BUCKETS && forall b :: 0 <= b < BUCKETS ==> buckets[b] == Total(rows, InBucket(sel, b))
    ensures p95.None? ==> target == 0 || Total(rows, UpTo(sel, BUCKETS - 1)) < target
    ensures p95.Some? ==>
              && p95.value < BUCKETS && 0 < target <= Total(rows, UpTo(sel, p95.value))
              && (p95.value > 0 ==> Total(rows, UpTo(sel, p95.value - 1)) < target)
  {
    if target == 0 { return None; }
    var cumulative, b := 0, 0;
    while b < BUCKETS
      invariant b <= BUCKETS && (b == 0 ==> cumulative == 0)
      invariant b > 0 ==> cumulative == Total(rows, UpTo(sel, b - 1)) < target
    {
      TotalSplits(rows, sel, if b > 0 then b - 1 else 0);
      cumulative := cumulative + buckets[b];
      if cumulative >= target { return Some(b); }
      b := b + 1;
    }
    p95 := None;
  }

  // ---------------------------------------------------------------- main results

  function Durations(requests: seq<Request>, sel: Selection): seq<int> {
    if |requests| == 0 then []
    else
      Durations(requests[..|requests| - 1], sel)
      + if Selects(sel, requests[|requests| - 1].route, requests[|requests| - 1].hour) then [requests[|requests| - 1].duration] else []
  }

  lemma {:induction false} DurationsCount(requests: seq<Request>, sel: Selection, p: int -> bool)
    ensures Count(Durations(requests, sel), p) == Count(requests, (q: Request) => Selects(sel, q.route, q.hour) && p(q.duration))
  {
    if |requests| > 0 {
      var front, last := requests[..|requests| - 1], requests[|requests| - 1];
      DurationsCount(front, sel, p);
      if Selects(sel, last.route, last.hour) {
        CountSnoc(Durations(front, sel), last.duration, p);
      } else {
        assert Durations(requests, sel) == Durations(front, sel);
      }
    }
  }

  lemma {:induction false} SameCount(requests: seq<Request>, p: Row -> bool, f: Request -> bool)
    requires forall q: Request :: p(RowOf(q)) == f(q)
    ensures Count(requests, (q: Request) => p(RowOf(q))) == Count(requests, f)
  {
    if |requests| > 0 {
      SameCount(requests[..|requests| - 1], p, f);
      assert p(RowOf(requests[|requests| - 1])) == f(requests[|requests| - 1]);
    }
  }

  /** The rows of a run of requests carry, per route, how many were at most in bucket `b`. */
  lemma CumulativeIsExact(requests: seq<Request>, sel: Selection, b: nat)
    ensures Total(Recorded(requests), UpTo(sel, b)) == Count(Durations(requests, sel), (v: int) => BucketOf(v) <= b)
  {
    var p := (v: int) => BucketOf(v) <= b;
    AggregateIsFaithful(requests, UpTo(sel, b));
    DurationsCount(requests, sel, p);
    SameCount(requests, UpTo(sel, b), (q: Request) => Selects(sel, q.route, q.hour) && p(q.duration));
  }

  lemma RequestsAreExact(requests: seq<Request>, sel: Selection)
    ensures Total(Recorded(requests), InSelection(sel)) == |Durations(requests, sel)|
  {
    AggregateIsFaithful(requests, InSelection(sel));
    var p := (v: int) => true;
    DurationsCount(requests, sel, p);
    SameCount(requests, InSelection(sel), (q: Request) => Selects(sel, q.route, q.hour) && p(q.duration));
    CountAll(Durations(requests, sel));
  }

  lemma {:induction false} CountAll(s: seq<int>)
    ensures Count(s, (v: int) => true) == |s|
  {
    if |s| > 0 {
      CountAll(s[..|s| - 1]);
    }
  }

  /** Every rank, not just that of the percentile: it lies in the first buckets iff the cumulative count reaches it. */
  lemma HistogramFindsRank(requests: seq<Request>, sel: Selection, r: nat, b: nat)
    requires 0 < r <= |Durations(requests, sel)|
    ensures |Sort(Durations(requests, sel))| == |Durations(requests, sel)|
    ensures r <= Total(Recorded(requests), UpTo(sel, b)) <==> BucketOf(Sort(Durations(requests, sel))[r - 1]) <= b
  {
    var ds := Durations(requests, sel);
    SortSorts(ds, (v: int) => BucketOf(v) <= b);
    hide Sort, Durations, Recorded, Total, BucketOf;
    CumulativeIsExact(requests, sel, b);
    RankIsCount(Sort(ds), b, r);
  }

  /** The bucket at which the cumulative count first reaches the percentile's rank is the percentile's bucket. */
  lemma HistogramFindsPercentile(requests: seq<Request>, sel: Selection, b: nat, rank: nat -> nat)
    requires IsRank(rank) && Durations(requests, sel) != []
    requires rank(|Durations(requests, sel)|) <= Total(Recorded(requests), UpTo(sel, b))
    requires b > 0 ==> Total(Recorded(requests), UpTo(sel, b - 1)) < rank(|Durations(requests, sel)|)
    ensures Percentile95(Durations(requests, sel), rank).Some?
    ensures BucketOf(Percentile95(Durations(requests, sel), rank).value) == b
  {
    hide Sort, Durations, Recorded, Total, BucketOf, UpTo;
    var r := rank(|Durations(requests, sel)|);
    HistogramFindsRank(requests, sel, r, b);
    if b > 0 {
      HistogramFindsRank(requests, sel, r, b - 1);
    }
  }

  lemma FailuresAreExact(requests: seq<Request>, sel: Selection)
    ensures Total(Recorded(requests), Failing(sel)) ==
            Count(requests, (q: Request) => Selects(sel, q.route, q.hour) && q.code >= 500)
  {
    AggregateIsFaithful(requests, Failing(sel));
    SameCount(requests, Failing(sel), (q: Request) => Selects(sel, q.route, q.hour) && q.code >= 500);
  }

  lemma LastBucketHoldsAll(requests: seq<Request>, sel: Selection)
    ensures Total(Recorded(requests), UpTo(sel, BUCKETS - 1)) == |Durations(requests, sel)|
  {
    CumulativeIsExact(requests, sel, BUCKETS - 1);
    CountAll(Durations(requests, sel));
    var ds := Durations(requests, sel);
    CountEq(ds, (v: int) => BucketOf(v) <= BUCKETS - 1, ds, (v: int) => true);
  }

  lemma {:induction false} RowsInRange(requests: seq<Request>)
    ensures forall r :: r in Recorded(requests) ==> r.bucket < BUCKETS
  {
    if |requests| > 0 {
      RowsInRange(requests[..|requests| - 1]);
      IncrementInRange(Recorded(requests[..|requests| - 1]), RowOf(requests[|requests| - 1]));
    }
  }

  lemma {:induction false} IncrementInRange(rows: seq<Row>, r: Row)
    requires r.bucket < BUCKETS && forall x :: x in rows ==> x.bucket < BUCKETS
    ensures forall x :: x in Increment(rows, r) ==> x.bucket < BUCKETS
  {
    if |rows| > 0 && !SameKey(rows[0], r) {
      IncrementInRange(rows[1..], r);
    }
  }

  datatype Slo = NoData | Pass | Fail

  function UpperBoundSlo(p95: Option<nat>, maximum: int): Slo {
    if p95.None? then NoData
    else if p95.value < |UPPER| && UPPER[p95.value] <= maximum then Pass
    else Fail
  }

  /**
   * For every run of requests, the bucket the dashboard shows is the bucket of the exact percentile,
   * and the objective passes exactly if that percentile is below the bound, for every bound that is
   * a bucket's upper end: a percentile equal to the bound fails, although the target reads "at most".
   */
  method DashboardIsExact(requests: seq<Request>, sel: Selection, k: nat, rank: nat -> nat) returns (m: Metric, slo: Slo)
    requires IsRank(rank) && k < |UPPER|
    ensures m.requests == |Durations(requests, sel)|
    ensures m.fiveXx == Count(requests, (q: Request) => Selects(sel, q.route, q.hour) && q.code >= 500)
    ensures m.p95 == match Percentile95(Durations(requests, sel), rank) case None => None case Some(v) => Some(BucketOf(v))
    ensures slo == match Percentile95(Durations(requests, sel), rank)
                   case None => NoData
                   case Some(v) => if v < UPPER[k] then Pass else Fail
  {
    var rows, ds := Recorded(requests), Durations(requests, sel);
    RowsInRange(requests);
    assert Percentile95(ds, rank).None? <==> ds == [];
    m := BuildHttpRouteMetric(sel, rows, rank);
    RequestsAreExact(requests, sel);
    LastBucketHoldsAll(requests, sel);
    FailuresAreExact(requests, sel);
    hide Durations, Recorded, Total, Percentile95, UpTo;
    if m.p95.Some? {
      HistogramFindsPercentile(requests, sel, m.p95.value, rank);
    }
    slo := UpperBoundSlo(m.p95, UPPER[k]);
  }

  /** A single request of exactly 300 ms: the percentile meets the 300 ms target, and the objective fails. */
  method BoundaryFails(rank: nat -> nat) returns (requests: seq<Request>, sel: Selection, slo: Slo)
    requires IsRank(rank)
    ensures Percentile95(Durations(requests, sel), rank) == Some(300) && UPPER[2] == 300
    ensures slo == Fail
  {
    var q := Request("client_feature_policy", 0, 200, 300);
    requests, sel := [q], Selection({"client_feature_policy"}, 0, 0);
    assert requests[..0] == [];
    assert Durations(requests, sel) == [300];
    assert [300][..0] == [] && Sort([300]) == [300];
    var m;
    m, slo := DashboardIsExact(requests, sel, 2, rank);
  }
}
