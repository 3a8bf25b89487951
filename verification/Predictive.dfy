/** From a prediction to the looked-up replicas: adjust_pred_replicas, resample_by_freq
    and the expiry of algorithm/kapacity/portrait/horizontal/predictive/main.py, and
    FetchResult of pkg/portrait/algorithm/externaljob/resultfetcher/configmap.go.
    Timestamps are integers, and no bucket is empty. */
module Predictive {
  import opened Common
  import opened Cron
  import opened Gray
  import opened Portrait

  // ----- Sorting

  predicate Ascending(s: seq<Point>) { forall i, j :: 0 <= i < j < |s| ==> s[i].time < s[j].time }

  function InsertByTime(p: Point, s: seq<Point>): (r: seq<Point>)
    ensures |r| == |s| + 1
  {
    if s == [] || p.time <= s[0].time then [p] + s else [s[0]] + InsertByTime(p, s[1..])
  }

  function SortedByTime(s: seq<Point>): (r: seq<Point>)
    ensures |r| == |s|
  {
    if s == [] then [] else InsertByTime(s[0], SortedByTime(s[1..]))
  }

  predicate DistinctTimes(s: seq<Point>) { forall i, j :: 0 <= i < j < |s| ==> s[i].time != s[j].time }

  lemma AscendingCons(p: Point, s: seq<Point>)
    ensures Elems([p] + s) == Elems(s) + {p}
    ensures Ascending([p] + s) <==> Ascending(s) && forall q :: q in Elems(s) ==> p.time < q.time
  {
    if Ascending([p] + s) {
      AscendingTail(p, s);
    }
    if Ascending(s) && forall q :: q in Elems(s) ==> p.time < q.time {
      var all := [p] + s;
      forall i, j | 0 <= i < j < |all| ensures all[i].time < all[j].time {
        assert all[j] == s[j - 1] && s[j - 1] in Elems(s);
        assert i > 0 ==> all[i] == s[i - 1];
      }
    }
  }

  lemma AscendingTail(p: Point, s: seq<Point>)
    requires Ascending([p] + s)
    ensures Ascending(s) && forall q :: q in Elems(s) ==> p.time < q.time
  {
    var all := [p] + s;
    forall i, j | 0 <= i < j < |s| ensures s[i].time < s[j].time {
      assert all[i + 1] == s[i] && all[j + 1] == s[j];
    }
    forall q | q in Elems(s) ensures p.time < q.time {
      var i :| 0 <= i < |s| && s[i] == q;
      assert all[i + 1] == q && all[0] == p;
    }
  }

  lemma {:induction false} InsertAscends(p: Point, s: seq<Point>)
    requires Ascending(s) && forall q :: q in Elems(s) ==> q.time != p.time
    ensures Ascending(InsertByTime(p, s)) && Elems(InsertByTime(p, s)) == Elems(s) + {p}
  {
    hide Ascending, Elems;
    AscendingCons(p, s);
    if s != [] {
      assert s == [s[0]] + s[1..];
      AscendingCons(s[0], s[1..]);
      if p.time > s[0].time {
        InsertAscends(p, s[1..]);
        AscendingCons(s[0], InsertByTime(p, s[1..]));
      }
    } else {
      assert [p] + s == [p];
      NoElems(s);
      AscendingNone();
    }
  }

  lemma AscendingNone()
    ensures Ascending([])
  {
  }

  lemma {:induction false} SortAscends(s: seq<Point>)
    requires DistinctTimes(s)
    ensures Ascending(SortedByTime(s)) && Elems(SortedByTime(s)) == Elems(s)
  {
    if s != [] {
      SortAscends(s[1..]);
      assert s == [s[0]] + s[1..];
      assert forall q :: q in Elems(s[1..]) ==> q.time != s[0].time;
      InsertAscends(s[0], SortedByTime(s[1..]));
    }
  }

  lemma NoElems(s: seq<Point>)
    ensures Elems(s) == {} <==> s == []
  {
    assert s == [] || s[0] in Elems(s);
  }

  lemma SortedCons(p: Point, s: seq<Point>)
    ensures Elems([p] + s) == Elems(s) + {p}
    ensures Sorted([p] + s) <==> Sorted(s) && forall q :: q in Elems(s) ==> p.time <= q.time
  {
    if Sorted([p] + s) {
      SortedTail(p, s);
    }
    if Sorted(s) && forall q :: q in Elems(s) ==> p.time <= q.time {
      SortedAll(p, s);
    }
    hide Sorted;
  }

  lemma SortedAll(p: Point, s: seq<Point>)
    requires Sorted(s) && forall q :: q in Elems(s) ==> p.time <= q.time
    ensures Sorted([p] + s)
  {
    var all := [p] + s;
    forall i, j | 0 <= i < j < |all| ensures all[i].time <= all[j].time {
      assert all[j] == s[j - 1] && s[j - 1] in Elems(s);
      assert i > 0 ==> all[i] == s[i - 1];
    }
  }

  lemma SortedTail(p: Point, s: seq<Point>)
    requires Sorted([p] + s)
    ensures Sorted(s) && forall q :: q in Elems(s) ==> p.time <= q.time
  {
    var all := [p] + s;
    forall i, j | 0 <= i < j < |s| ensures s[i].time <= s[j].time {
      assert all[i + 1] == s[i] && all[j + 1] == s[j];
    }
    forall q | q in Elems(s) ensures p.time <= q.time {
      var i :| 0 <= i < |s| && s[i] == q;
      assert all[i + 1] == q && all[0] == p;
    }
  }

  lemma SortedNone()
    ensures Sorted([])
  {
  }

  lemma {:induction false} InsertSorts(p: Point, s: seq<Point>)
    requires Sorted(s)
    ensures Sorted(InsertByTime(p, s)) && Elems(InsertByTime(p, s)) == Elems(s) + {p}
  {
    hide Sorted, Elems;
    SortedCons(p, s);
    if s != [] {
      assert s == [s[0]] + s[1..];
      SortedCons(s[0], s[1..]);
      if p.time > s[0].time {
        InsertSorts(p, s[1..]);
        SortedCons(s[0], InsertByTime(p, s[1..]));
      }
    } else {
      assert [p] + s == [p];
      NoElems(s);
      SortedNone();
    }
  }

  lemma {:induction false} InsertPermutes(p: Point, s: seq<Point>)
    ensures multiset(InsertByTime(p, s)) == multiset(s) + multiset{p}
  {
    if s != [] {
      assert s == [s[0]] + s[1..];
      InsertPermutes(p, s[1..]);
    }
  }

  lemma {:induction false} SortPermutes(s: seq<Point>)
    ensures multiset(SortedByTime(s)) == multiset(s)
  {
    if s != [] {
      assert s == [s[0]] + s[1..];
      SortPermutes(s[1..]);
      InsertPermutes(s[0], SortedByTime(s[1..]));
    }
  }

  /** Sorting by time loses and invents no point. */
  lemma {:induction false} SortSorts(s: seq<Point>)
    ensures Sorted(SortedByTime(s)) && multiset(SortedByTime(s)) == multiset(s)
    ensures Elems(SortedByTime(s)) == Elems(s)
  {
    SortPermutes(s);
    hide Sorted, Elems;
    SortedNone();
    if s != [] {
      SortSorts(s[1..]);
      SortedCons(s[0], s[1..]);
      assert s == [s[0]] + s[1..];
      InsertSorts(s[0], SortedByTime(s[1..]));
    }
  }

  // ----- Buckets

  function Greatest(raw: seq<Point>, from: int, to: int): Option<int> {
    if raw == [] then None
    else
      var (p, rest) := (raw[0], Greatest(raw[1..], from, to));
      if from <= p.time < to && (rest.None? || p.replicas > rest.value) then Some(p.replicas) else rest
  }

  lemma {:induction false} GreatestIsMaximum(raw: seq<Point>, from: int, to: int)
    ensures var g := Greatest(raw, from, to);
            && (forall p :: p in raw && from <= p.time < to ==> g.Some? && p.replicas <= g.value)
            && (g.Some? ==> exists p :: p in raw && from <= p.time < to && p.replicas == g.value)
  {
    if raw != [] {
      GreatestIsMaximum(raw[1..], from, to);
      assert forall p :: p in raw <==> p == raw[0] || p in raw[1..];
    }
  }

  /** The number of the bucket of an instant; buckets are counted from an origin, the
      start of a day. */
  function BucketOf(t: int, origin: int, period: int): int
    requires period > 0
  {
    (t - origin) / period
  }

  function BucketStart(bucket: int, origin: int, period: int): int { origin + bucket * period }

  predicate HasRow(raw: seq<Point>, origin: int, period: int, bucket: int) {
    var start := BucketStart(bucket, origin, period);
    Greatest(raw, start, start + period).Some?
  }

  predicate NoGaps(raw: seq<Point>, origin: int, period: int)
    requires period > 0
  {
    && raw != []
    && forall b :: BucketOf(raw[0].time, origin, period) <= b <= BucketOf(raw[|raw| - 1].time, origin, period) ==>
         HasRow(raw, origin, period, b)
  }

  function Row(raw: seq<Point>, origin: int, period: int, bucket: int): Point
    requires HasRow(raw, origin, period, bucket)
  {
    var start := BucketStart(bucket, origin, period);
    Point(start, Greatest(raw, start, start + period).value)
  }

  /** One row for each bucket from the first to the last. */
  function Aggregate(raw: seq<Point>, origin: int, period: int): (rows: seq<Point>)
    requires period > 0 && Sorted(raw) && NoGaps(raw, origin, period)
    ensures rows != []
  {
    var (first, last) := (BucketOf(raw[0].time, origin, period), BucketOf(raw[|raw| - 1].time, origin, period));
    FirstToLast(raw, origin, period);
    seq(last - first + 1, k requires 0 <= k < last - first + 1 => Row(raw, origin, period, first + k))
  }

  lemma Div(a: int, b: int, period: int)
    requires a <= b && period > 0
    ensures a / period <= b / period
  {
    assert a == a / period * period + a % period;
    assert b == b / period * period + b % period;
    Product(a / period - b / period - 1, period);
  }

  lemma Product(x: int, y: int)
    requires y > 0
    ensures x >= 0 ==> x * y >= 0
  {
  }

  /** Rows follow each other at the distance of the period. */
  predicate Uniform(rows: seq<Point>, period: int) {
    && period > 0 && rows != []
    && forall i :: 0 < i < |rows| ==> rows[i].time == rows[i - 1].time + period
  }

  predicate Covers(row: Point, period: int, p: Point) { row.time <= p.time < row.time + period }

  lemma FirstToLast(raw: seq<Point>, origin: int, period: int)
    requires period > 0 && Sorted(raw) && raw != []
    ensures BucketOf(raw[0].time, origin, period) <= BucketOf(raw[|raw| - 1].time, origin, period)
  {
    Div(raw[0].time - origin, raw[|raw| - 1].time - origin, period);
  }

  lemma AggregateUniform(raw: seq<Point>, origin: int, period: int)
    requires period > 0 && Sorted(raw) && NoGaps(raw, origin, period)
    ensures Uniform(Aggregate(raw, origin, period), period)
  {
    hide HasRow, BucketStart;
    var rows := Aggregate(raw, origin, period);
    var first := BucketOf(raw[0].time, origin, period);
    FirstToLast(raw, origin, period);
    forall i | 0 < i < |rows| ensures rows[i].time == rows[i - 1].time + period {
      NextStart(first + i - 1, origin, period);
      assert rows[i] == Row(raw, origin, period, first + i);
      assert rows[i - 1] == Row(raw, origin, period, first + (i - 1));
    }
  }

  lemma StartIsAligned(bucket: int, origin: int, period: int)
    requires period > 0
    ensures (BucketStart(bucket, origin, period) - origin) % period == 0
  {
    MultipleModulo(bucket, period);
  }

  lemma MultipleModulo(k: int, period: int)
    requires period > 0
    ensures k * period % period == 0
  {
    var (q, rest) := (k * period / period, k * period % period);
    assert (k - q) * period == rest by { assert k * period == q * period + rest; }
    Product(k - q - 1, period);
    Product(q - k, period);
  }

  lemma NextStart(bucket: int, origin: int, period: int)
    ensures BucketStart(bucket + 1, origin, period) == BucketStart(bucket, origin, period) + period
  {
    assert (bucket + 1) * period == bucket * period + period;
  }

  ghost predicate IsBucketMaximum(raw: seq<Point>, period: int, row: Point) {
    && (forall p :: p in raw && Covers(row, period, p) ==> p.replicas <= row.replicas)
    && exists p :: p in raw && Covers(row, period, p) && p.replicas == row.replicas
  }

  lemma RowIsMaximum(raw: seq<Point>, origin: int, period: int, bucket: int)
    requires period > 0 && HasRow(raw, origin, period, bucket)
    ensures IsBucketMaximum(raw, period, Row(raw, origin, period, bucket))
  {
    var row := Row(raw, origin, period, bucket);
    GreatestIsMaximum(raw, row.time, row.time + period);
  }

  lemma AggregateMeaning(raw: seq<Point>, origin: int, period: int)
    requires period > 0 && Sorted(raw) && NoGaps(raw, origin, period)
    ensures var rows := Aggregate(raw, origin, period);
            && Uniform(rows, period)
            && (forall row :: row in rows ==> IsBucketMaximum(raw, period, row))
            && (forall p :: p in raw ==> exists k :: 0 <= k < |rows| && Covers(rows[k], period, p))
  {
    AggregateUniform(raw, origin, period);
    hide HasRow, BucketOf, BucketStart, Uniform, IsBucketMaximum;
    var rows := Aggregate(raw, origin, period);
    var first := BucketOf(raw[0].time, origin, period);
    FirstToLast(raw, origin, period);
    forall row | row in rows ensures IsBucketMaximum(raw, period, row) {
      var k :| 0 <= k < |rows| && rows[k] == row;
      RowIsMaximum(raw, origin, period, first + k);
    }
    forall p | p in raw ensures exists k :: 0 <= k < |rows| && Covers(rows[k], period, p) {
      InBucket(raw, origin, period, p);
      var k := BucketOf(p.time, origin, period) - first;
      assert rows[k] == Row(raw, origin, period, first + k);
    }
  }

  lemma InBucket(raw: seq<Point>, origin: int, period: int, p: Point)
    requires period > 0 && Sorted(raw) && p in raw
    ensures BucketOf(raw[0].time, origin, period) <= BucketOf(p.time, origin, period)
    ensures BucketOf(p.time, origin, period) <= BucketOf(raw[|raw| - 1].time, origin, period)
    ensures var start := BucketStart(BucketOf(p.time, origin, period), origin, period); start <= p.time < start + period
  {
    var i :| 0 <= i < |raw| && raw[i] == p;
    Div(raw[0].time - origin, p.time - origin, period);
    Div(p.time - origin, raw[|raw| - 1].time - origin, period);
  }

  /** From the first bucket with a point to the last, none is empty. */
  predicate HasData(raw: seq<Point>, origin: int, period: int)
    requires period > 0
  {
    NoGaps(SortedByTime(raw), origin, period)
  }

  /** resample_by_freq: the points are sorted first. */
  function Resample(raw: seq<Point>, origin: int, period: int): (rows: seq<Point>)
    requires period > 0 && HasData(raw, origin, period)
    ensures rows != []
  {
    SortSorts(raw);
    Aggregate(SortedByTime(raw), origin, period)
  }

  /** Resampling means, in whatever order the points come: rows at the distance of the
      period, each the maximum of its bucket, and a row for every predicted point. */
  lemma ResampleMeaning(raw: seq<Point>, origin: int, period: int)
    requires period > 0 && HasData(raw, origin, period)
    ensures var rows := Resample(raw, origin, period);
            && Uniform(rows, period)
            && (forall row :: row in rows ==> IsBucketMaximum(raw, period, row))
            && (forall p :: p in raw ==> exists k :: 0 <= k < |rows| && Covers(rows[k], period, p))
  {
    var sorted := SortedByTime(raw);
    SortSorts(raw);
    assert forall p :: p in raw <==> p in Elems(sorted);
    AggregateMeaning(sorted, origin, period);
    hide SortedByTime, Sorted, Uniform, Covers, Aggregate, NoGaps;
  }

  lemma RowStarts(raw: seq<Point>, origin: int, period: int, k: nat)
    requires period > 0 && Sorted(raw) && NoGaps(raw, origin, period) && k < |Aggregate(raw, origin, period)|
    ensures Aggregate(raw, origin, period)[k].time
         == BucketStart(BucketOf(raw[0].time, origin, period) + k, origin, period)
  {
    hide HasRow, BucketStart;
    FirstToLast(raw, origin, period);
    assert Aggregate(raw, origin, period)[k] == Row(raw, origin, period, BucketOf(raw[0].time, origin, period) + k);
  }

  /** The buckets are counted from the origin. */
  lemma RowsAreAligned(raw: seq<Point>, origin: int, period: int, k: nat)
    requires period > 0 && HasData(raw, origin, period) && k < |Resample(raw, origin, period)|
    ensures (Resample(raw, origin, period)[k].time - origin) % period == 0
  {
    hide SortedByTime, BucketOf, BucketStart, Aggregate, HasRow, Sorted;
    SortSorts(raw);
    var sorted := SortedByTime(raw);
    RowStarts(sorted, origin, period, k);
    StartIsAligned(BucketOf(sorted[0].time, origin, period) + k, origin, period);
  }

  // ----- Moving scale-ups ahead

  predicate ScalesUp(rows: seq<Point>, i: int) { 0 < i < |rows| && rows[i].replicas > rows[i - 1].replicas }

  function Moved(rows: seq<Point>, ahead: int, i: int): Point
    requires 0 <= i < |rows|
  {
    if ahead > 0 && ScalesUp(rows, i) then Point(rows[i].time - ahead, rows[i].replicas) else rows[i]
  }

  function Adjusted(rows: seq<Point>, ahead: int): (r: seq<Point>)
    ensures |r| == |rows|
  {
    seq(|rows|, i requires 0 <= i < |rows| => Moved(rows, ahead, i))
  }

  /** p is row i, moved if and only if it has more replicas than its predecessor. */
  predicate MovedIfMore(rows: seq<Point>, ahead: int, i: int, p: Point)
    requires 0 <= i < |rows|
  {
    && p.replicas == rows[i].replicas
    && (ahead > 0 && i > 0 && rows[i].replicas > rows[i - 1].replicas ==> p.time == rows[i].time - ahead)
    && (ahead <= 0 || i == 0 || rows[i].replicas <= rows[i - 1].replicas ==> p.time == rows[i].time)
  }

  /** The timestamps are moved in place; the comparison sees replicas only. */
  method MoveScaleUps(rows: array<Point>, ahead: int)
    modifies rows
    ensures rows[..] == Adjusted(old(rows[..]), ahead)
    ensures forall i :: 0 <= i < rows.Length ==> MovedIfMore(old(rows[..]), ahead, i, rows[i])
  {
    ghost var before := rows[..];
    if ahead > 0 {
      for i := 0 to rows.Length
        invariant forall k :: 0 <= k < i ==> rows[k] == Moved(before, ahead, k)
        invariant forall k :: i <= k < rows.Length ==> rows[k] == before[k]
      {
        if i > 0 && rows[i].replicas > rows[i - 1].replicas {
          rows[i] := Point(rows[i].time - ahead, rows[i].replicas);
        }
      }
    }
  }

  /** The data of the ConfigMap: a later row takes the place of an earlier one with the
      same timestamp. */
  function Content(rows: seq<Point>): map<int, int> {
    if rows == [] then map[]
    else Content(rows[..|rows| - 1])[rows[|rows| - 1].time := rows[|rows| - 1].replicas]
  }

  function ExpireTime(rows: seq<Point>, period: int): int
    requires rows != []
  {
    rows[|rows| - 1].time + period
  }

  function LastRow(rows: seq<Point>, t: int): (j: int)
    ensures -1 <= j < |rows|
    ensures j >= 0 ==> rows[j].time == t
    ensures forall i :: j < i < |rows| ==> rows[i].time != t
  {
    if rows == [] then -1
    else if rows[|rows| - 1].time == t then |rows| - 1
    else LastRow(rows[..|rows| - 1], t)
  }

  lemma {:induction false} ContentMeaning(rows: seq<Point>, t: int)
    ensures t in Content(rows) <==> LastRow(rows, t) >= 0
    ensures t in Content(rows) ==> Content(rows)[t] == rows[LastRow(rows, t)].replicas
  {
    if rows != [] {
      ContentMeaning(rows[..|rows| - 1], t);
    }
  }

  // ----- Fetching the result

  function PointsOf(m: map<int, int>): set<Point> { set t | t in m :: Point(t, m[t]) }

  /** sort.Slice by timestamp. */
  method SortByTime(s: array<Point>)
    modifies s
    ensures Sorted(s[..]) && multiset(s[..]) == multiset(old(s[..])) && Elems(s[..]) == Elems(old(s[..]))
    ensures DistinctTimes(old(s[..])) ==> Ascending(s[..])
  {
    var sorted := SortedByTime(s[..]);
    SortSorts(s[..]);
    if DistinctTimes(s[..]) {
      SortAscends(s[..]);
    }
    hide Sorted, Ascending, SortedByTime, Elems;
    forall i | 0 <= i < s.Length {
      s[i] := sorted[i];
    }
    assert s[..] == sorted;
  }

  /** The points of the data, in whatever order the range over the map takes, and then
      sorted. */
  method FetchResult(timeSeriesMap: map<int, int>, order: seq<int>) returns (series: seq<Point>)
    requires Lists(order, timeSeriesMap.Keys)
    ensures Ascending(series) && Elems(series) == PointsOf(timeSeriesMap)
  {
    DistinctElems(order, timeSeriesMap.Keys);
    assert forall i :: 0 <= i < |order| ==> order[i] in Elems(order);
    series := [];
    for i := 0 to |order|
      invariant |series| == i && forall k :: 0 <= k < i ==> series[k] == Point(order[k], timeSeriesMap[order[k]])
    {
      series := series + [Point(order[i], timeSeriesMap[order[i]])];
    }
    EntriesInOrder(timeSeriesMap, order, series);
    var slice := new Point[|series|](i requires 0 <= i < |series| => series[i]);
    assert slice[..] == series;
    SortByTime(slice);
    series := slice[..];
  }

  lemma EntriesInOrder(m: map<int, int>, order: seq<int>, points: seq<Point>)
    requires Elems(order) == m.Keys && forall i, j :: 0 <= i < j < |order| ==> order[i] != order[j]
    requires |points| == |order|
    requires forall i :: 0 <= i < |order| ==> order[i] in m && points[i] == Point(order[i], m[order[i]])
    ensures DistinctTimes(points) && Elems(points) == PointsOf(m)
  {
    forall t | t in m ensures Point(t, m[t]) in points {
      assert t in Elems(order);
      var i :| 0 <= i < |order| && order[i] == t;
      assert points[i] == Point(t, m[t]);
    }
  }

  /** The order of the map does not matter. */
  lemma {:induction false} SeriesIsUnique(a: seq<Point>, b: seq<Point>)
    requires Ascending(a) && Ascending(b) && Elems(a) == Elems(b)
    ensures a == b
  {
    if a == [] || b == [] {
      NoElems(a);
      NoElems(b);
    } else {
      assert a[0] in Elems(b) && b[0] in Elems(a);
      assert a[0] == b[0];
      forall p ensures p in Elems(a[1..]) <==> p in Elems(b[1..]) {
        assert p in Elems(a) <==> p in Elems(b);
        assert p in a <==> p == a[0] || p in a[1..];
        assert p in b <==> p == b[0] || p in b[1..];
      }
      SeriesIsUnique(a[1..], b[1..]);
    }
  }

  // ----- Looking up

  /** The series that arrives from adjusted rows. */
  ghost predicate Arrives(series: seq<Point>, rows: seq<Point>) {
    Ascending(series) && Elems(series) == PointsOf(Content(rows))
  }

  lemma {:induction false} TimesApart(rows: seq<Point>, period: int, i: nat, j: nat)
    requires Uniform(rows, period) && i < j < |rows|
    ensures rows[j].time >= rows[i].time + period
    ensures j > i + 1 ==> rows[j].time >= rows[i].time + 2 * period
  {
    if i < j - 1 {
      TimesApart(rows, period, i, j - 1);
    }
  }

  predicate HasTime(series: seq<Point>, t: int) { exists at :: 0 <= at < |series| && series[at].time == t }

  /** Each row's timestamp is in the series, and each of its points is the last row
      with that timestamp. */
  lemma ArrivesMeaning(series: seq<Point>, rows: seq<Point>)
    requires Arrives(series, rows)
    ensures forall i :: 0 <= i < |rows| ==> HasTime(series, rows[i].time)
    ensures forall at :: 0 <= at < |series| ==>
              LastRow(rows, series[at].time) >= 0 && rows[LastRow(rows, series[at].time)] == series[at]
  {
    hide Content, LastRow;
    var m := Content(rows);
    forall i | 0 <= i < |rows| ensures HasTime(series, rows[i].time) {
      ContentMeaning(rows, rows[i].time);
      assert Point(rows[i].time, m[rows[i].time]) in Elems(series);
    }
    forall at | 0 <= at < |series|
      ensures LastRow(rows, series[at].time) >= 0 && rows[LastRow(rows, series[at].time)] == series[at]
    {
      assert series[at] in Elems(series);
      ContentMeaning(rows, series[at].time);
    }
  }

  /** From the moment a row takes effect to the end of its bucket, the series shows
      the row or the next one; the next one only if it scales up and has been moved
      into this bucket. */
  lemma LookupRow(rows: seq<Point>, period: int, ahead: int, series: seq<Point>, k: nat, t: int) returns (j: nat)
    requires Uniform(rows, period) && ahead <= period && Arrives(series, Adjusted(rows, ahead)) && k < |rows|
    requires Adjusted(rows, ahead)[k].time <= t < rows[k].time + period
    ensures Latest(series, t) >= 0 && j < |rows| && series[Latest(series, t)] == Adjusted(rows, ahead)[j]
    ensures j == k || (j == k + 1 && ahead > 0 && ScalesUp(rows, j) && t >= rows[k].time)
  {
    hide Arrives, LastRow, Latest;
    var (adjusted, at) := (Adjusted(rows, ahead), Latest(series, t));
    assert Ascending(series) by { AscendingOf(series, adjusted); }
    ArrivesMeaning(series, adjusted);
    assert HasTime(series, adjusted[k].time);
    assert at >= 0 && series[at].time >= adjusted[k].time;
    j := LastRow(adjusted, series[at].time);
    if j < k {
      TimesApart(rows, period, j, k);
    } else if j > k {
      TimesApart(rows, period, k, j);
    }
  }

  lemma AscendingOf(series: seq<Point>, rows: seq<Point>)
    requires Arrives(series, rows)
    ensures Ascending(series)
  {
  }

  /** Before the data expires, the looked-up replicas are never fewer than those of the
      row in force. */
  ghost predicate Safe(rows: seq<Point>, period: int, ahead: int, series: seq<Point>)
    requires rows != []
  {
    forall k, t :: 0 <= k < |rows| && rows[k].time <= t < rows[k].time + period
                   && t < ExpireTime(Adjusted(rows, ahead), period) ==>
                     Latest(series, t) >= 0 && series[Latest(series, t)].replicas >= rows[k].replicas
  }

  lemma MovedIsSafe(rows: seq<Point>, period: int, ahead: int, series: seq<Point>)
    requires Uniform(rows, period) && ahead <= period && Arrives(series, Adjusted(rows, ahead))
    ensures Safe(rows, period, ahead, series)
  {
    hide Latest, Arrives, Uniform;
    forall k, t | 0 <= k < |rows| && rows[k].time <= t < rows[k].time + period
                  && t < ExpireTime(Adjusted(rows, ahead), period)
      ensures Latest(series, t) >= 0 && series[Latest(series, t)].replicas >= rows[k].replicas
    {
      var j := LookupRow(rows, period, ahead, series, k, t);
    }
  }

  /** Moved by more than a bucket, a scale-up is overtaken by the row before it. */
  lemma MovedTooFar(period: int, ahead: int) returns (rows: seq<Point>, series: seq<Point>)
    requires ahead > period > 0
    ensures Uniform(rows, period) && Arrives(series, Adjusted(rows, ahead)) && !Safe(rows, period, ahead, series)
  {
    hide Content, LastRow;
    rows := [Point(0, 1), Point(period, 2), Point(2 * period, 2)];
    var adjusted := [Point(0, 1), Point(period - ahead, 2), Point(2 * period, 2)];
    assert Adjusted(rows, ahead) == adjusted;
    series := [Point(period - ahead, 2), Point(0, 1), Point(2 * period, 2)];
    forall p ensures p in Elems(series) <==> p in PointsOf(Content(adjusted)) {
      ContentMeaning(adjusted, p.time);
      assert p in series <==> p == adjusted[0] || p == adjusted[1] || p == adjusted[2];
      assert LastRow(adjusted, p.time) in {-1, 0, 1, 2};
      var m := Content(adjusted);
      assert p in PointsOf(m) <==> p.time in m && m[p.time] == p.replicas;
    }
    assert series[..2][1].time <= period < series[2].time;
    assert Latest(series, period) == 1;
    assert rows[1].time <= period < rows[1].time + period;
  }

  ghost predicate AlwaysSafe(period: int, ahead: int) {
    forall rows, series :: Uniform(rows, period) && Arrives(series, Adjusted(rows, ahead)) ==>
                             Safe(rows, period, ahead, series)
  }

  /** Before the data expires the prediction never under-provisions, whatever it is, if
      and only if scale-ups are moved by at most one bucket. */
  lemma SafeIff(period: int, ahead: int)
    requires period > 0
    ensures AlwaysSafe(period, ahead) <==> ahead <= period
  {
    hide Arrives, Safe;
    if ahead <= period {
      forall rows, series | Uniform(rows, period) && Arrives(series, Adjusted(rows, ahead))
        ensures Safe(rows, period, ahead, series)
      {
        MovedIsSafe(rows, period, ahead, series);
      }
    } else {
      var rows, series := MovedTooFar(period, ahead);
    }
  }

  lemma AdjustedAscends(rows: seq<Point>, period: int, ahead: int)
    requires Uniform(rows, period) && ahead < period
    ensures Ascending(Adjusted(rows, ahead))
  {
    forall i, j | 0 <= i < j < |rows| ensures Adjusted(rows, ahead)[i].time < Adjusted(rows, ahead)[j].time {
      TimesApart(rows, period, i, j);
    }
  }

  /** The adjusted rows stay strictly ascending, whatever the prediction is, if and only
      if scale-ups are moved by less than one bucket. */
  lemma AscendingIff(period: int, ahead: int)
    requires period > 0
    ensures (forall rows :: Uniform(rows, period) ==> Ascending(Adjusted(rows, ahead))) <==> ahead < period
  {
    if ahead < period {
      forall rows | Uniform(rows, period) ensures Ascending(Adjusted(rows, ahead)) {
        AdjustedAscends(rows, period, ahead);
      }
    } else {
      var rows := [Point(0, 1), Point(period, 2)];
      assert Uniform(rows, period);
      assert Adjusted(rows, ahead)[0].time >= Adjusted(rows, ahead)[1].time;
    }
  }

  /** The capacity for a scale-up is there exactly that much earlier. */
  lemma ScaleUpComesAhead(rows: seq<Point>, period: int, ahead: int, series: seq<Point>, k: nat, t: int)
    requires Uniform(rows, period) && 0 < ahead <= period && Arrives(series, Adjusted(rows, ahead))
    requires 0 < k < |rows| && rows[k].replicas > rows[k - 1].replicas && rows[k].time - ahead <= t < rows[k].time
    ensures Latest(series, t) >= 0 && series[Latest(series, t)].replicas == rows[k].replicas
  {
    hide Latest, Arrives, Uniform;
    var j := LookupRow(rows, period, ahead, series, k, t);
  }

  /** The resampled frame is a new one, and moving it leaves the rows alone. */
  method MovedCopy(rows: seq<Point>, ahead: int) returns (adjusted: seq<Point>)
    ensures adjusted == Adjusted(rows, ahead)
  {
    hide Adjusted, MovedIfMore;
    var frame := new Point[|rows|](i requires 0 <= i < |rows| => rows[i]);
    assert frame[..] == rows;
    MoveScaleUps(frame, ahead);
    adjusted := frame[..];
  }

  /** adjust_pred_replicas and the expiry. */
  method AdjustPredReplicas(raw: seq<Point>, origin: int, period: int, ahead: int)
    returns (adjusted: seq<Point>, expire: int)
    requires period > 0 && HasData(raw, origin, period)
    ensures var rows := Resample(raw, origin, period);
            && adjusted == Adjusted(rows, ahead)
            && expire == rows[|rows| - 1].time + period - (if LastIsMoved(rows, ahead) then ahead else 0)
  {
    hide Resample, HasData, Adjusted;
    var rows := Resample(raw, origin, period);
    adjusted := MovedCopy(rows, ahead);
    AdjustedMeaning(rows, ahead, |rows| - 1);
    expire := ExpireTime(adjusted, period);
  }

  /** From the prediction to the portrait value: until the data expires, the value at
      each predicted instant has at least the predicted replicas. */
  lemma PredictionIsServed(cal: Calendar, provider: string, raw: seq<Point>, origin: int, period: int, ahead: int,
                           series: seq<Point>, p: Point)
    requires period > 0 && HasData(raw, origin, period) && ahead <= period
    requires Arrives(series, Adjusted(Resample(raw, origin, period), ahead))
    requires p in raw && p.replicas > 0
    ensures var expire := ExpireTime(Adjusted(Resample(raw, origin, period), ahead), period);
            && var outcome := Evaluate(cal, provider, Data(Some(expire), SeriesData(series)), p.time).0;
            p.time < expire ==> outcome.HasValue? && outcome.value.replicas >= p.replicas
  {
    var rows := Resample(raw, origin, period);
    ResampleMeaning(raw, origin, period);
    hide Resample, HasData, Uniform, Arrives, Latest;
    var k :| 0 <= k < |rows| && Covers(rows[k], period, p);
    assert rows[k] in rows;
    var j := LookupRow(rows, period, ahead, series, k, p.time);
  }

  /** The last row has more replicas than the one before it, and scale-ups are moved. */
  predicate LastIsMoved(rows: seq<Point>, ahead: int) {
    ahead > 0 && |rows| > 1 && rows[|rows| - 1].replicas > rows[|rows| - 2].replicas
  }

  /** What is moved: exactly the rows with more replicas than their predecessor. */
  lemma AdjustedMeaning(rows: seq<Point>, ahead: int, i: nat)
    requires i < |rows|
    ensures MovedIfMore(rows, ahead, i, Adjusted(rows, ahead)[i])
  {
  }

  /** A row that does not scale up takes effect at its own time and not before: until then
      the series shows its predecessor. */
  lemma OthersComeOnTime(rows: seq<Point>, period: int, ahead: int, series: seq<Point>, k: nat, t: int)
    requires Uniform(rows, period) && ahead <= period && Arrives(series, Adjusted(rows, ahead))
    requires k + 1 < |rows| && rows[k + 1].replicas <= rows[k].replicas && rows[k].time <= t < rows[k + 1].time
    ensures Latest(series, t) >= 0 && series[Latest(series, t)] == Adjusted(rows, ahead)[k]
  {
    assert rows[k + 1].time == rows[k].time + period;
    hide Latest, Arrives, Uniform;
    var j := LookupRow(rows, period, ahead, series, k, t);
  }

  lemma LastRowOfAscending(rows: seq<Point>, i: nat)
    requires Ascending(rows) && i < |rows|
    ensures LastRow(rows, rows[i].time) == i
  {
    var j := LastRow(rows, rows[i].time);
    assert j >= i;
    hide LastRow;
  }

  /** Moved by less than a bucket, every row is in the series, at its own time if it does
      not scale up. */
  lemma RowsArrive(rows: seq<Point>, period: int, ahead: int, series: seq<Point>, i: nat)
    requires Uniform(rows, period) && ahead < period && Arrives(series, Adjusted(rows, ahead)) && i < |rows|
    ensures Adjusted(rows, ahead)[i] in series
    ensures ahead <= 0 || i == 0 || rows[i].replicas <= rows[i - 1].replicas ==> rows[i] in series
  {
    hide Arrives, Uniform, Adjusted, Ascending, LastRow;
    var adjusted := Adjusted(rows, ahead);
    AdjustedAscends(rows, period, ahead);
    AdjustedMeaning(rows, ahead, i);
    ArrivesMeaning(series, adjusted);
    assert HasTime(series, adjusted[i].time);
    LastRowOfAscending(adjusted, i);
  }

  predicate Positive(rows: seq<Point>) { forall k :: 0 <= k < |rows| ==> rows[k].replicas > 0 }

  /** The portrait value at an instant has at least a number of replicas. */
  predicate Provides(cal: Calendar, provider: string, data: Data, t: int, replicas: int) {
    var outcome := Evaluate(cal, provider, data, t).0;
    outcome.HasValue? && outcome.value.replicas >= replicas
  }

  /** Every instant of every bucket has a value of at least its row's replicas. */
  ghost predicate AlwaysProvided(cal: Calendar, provider: string, data: Data, rows: seq<Point>, period: int) {
    forall k, t :: 0 <= k < |rows| && rows[k].time <= t < rows[k].time + period ==>
                     Provides(cal, provider, data, t, rows[k].replicas)
  }

  lemma ProvidedBeforeExpiry(cal: Calendar, provider: string, rows: seq<Point>, period: int, ahead: int,
                             series: seq<Point>, expire: int, k: nat, t: int)
    requires Uniform(rows, period) && ahead <= period && Positive(rows) && Arrives(series, Adjusted(rows, ahead))
    requires k < |rows| && rows[k].time <= t < rows[k].time + period && t < expire
    ensures Provides(cal, provider, Data(Some(expire), SeriesData(series)), t, rows[k].replicas)
  {
    hide Uniform, Arrives, Latest;
    var j := LookupRow(rows, period, ahead, series, k, t);
  }

  /** The data expires before the end of the last bucket, and leaves its last instants
      without a value, if and only if the last row is a scale-up that has been moved. */
  lemma AlwaysProvidedIff(cal: Calendar, provider: string, rows: seq<Point>, period: int, ahead: int,
                          series: seq<Point>)
    requires Uniform(rows, period) && ahead <= period && Positive(rows) && Arrives(series, Adjusted(rows, ahead))
    ensures var expire := ExpireTime(Adjusted(rows, ahead), period);
            var data := Data(Some(expire), SeriesData(series));
            && (AlwaysProvided(cal, provider, data, rows, period) <==> !LastIsMoved(rows, ahead))
            && expire == rows[|rows| - 1].time + period - (if LastIsMoved(rows, ahead) then ahead else 0)
  {
    hide Arrives, Evaluate, Positive;
    var (last, expire) := (|rows| - 1, ExpireTime(Adjusted(rows, ahead), period));
    var data := Data(Some(expire), SeriesData(series));
    if ahead > 0 && ScalesUp(rows, last) {
      assert rows[last].time <= rows[last].time + period - 1 < rows[last].time + period;
      NotProvidedAfterExpiry(cal, provider, data, rows[last].time + period - 1, rows[last].replicas);
    } else {
      forall k, t | 0 <= k < |rows| && rows[k].time <= t < rows[k].time + period
        ensures Provides(cal, provider, data, t, rows[k].replicas)
      {
        if k < last {
          TimesApart(rows, period, k, last);
        }
        ProvidedBeforeExpiry(cal, provider, rows, period, ahead, series, expire, k, t);
      }
    }
  }

  lemma NotProvidedAfterExpiry(cal: Calendar, provider: string, data: Data, t: int, replicas: int)
    requires Expired(data, t)
    ensures !Provides(cal, provider, data, t, replicas)
  {
  }
}
