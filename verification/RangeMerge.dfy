/** The parallel fetch and the merge of a sharded range query: Query of
    pkg/metric/provider/prometheus/provider.go. The server is a function from
    ranges to answers; a label set stands for its own string form. */
module RangeMerge {
  import opened Common
  import opened RangeQuery

  type Labels = string

  datatype Sample = Sample(time: int, value: real)

  datatype Series = Series(labels: Labels, points: seq<Sample>)

  /** What the server would say about a series at one instant. */
  type Oracle = (Labels, int) -> Option<real>

  function PointsOf(f: Oracle, labels: Labels, instants: seq<int>): seq<Sample> {
    if instants == [] then []
    else
      var (init, last) := (instants[..|instants| - 1], instants[|instants| - 1]);
      PointsOf(f, labels, init) + match f(labels, last) case None => [] case Some(v) => [Sample(last, v)]
  }

  ghost predicate Distinct(answer: seq<Series>) {
    forall i, j :: 0 <= i < j < |answer| ==> answer[i].labels != answer[j].labels
  }

  /** An answer for some instants: each series that has a point there, once, with all
      its points. */
  ghost predicate Answers(f: Oracle, answer: seq<Series>, instants: seq<int>) {
    && Distinct(answer)
    && (forall s :: s in answer ==> s.points == PointsOf(f, s.labels, instants) && s.points != [])
    && (forall labels :: PointsOf(f, labels, instants) != [] ==>
          Series(labels, PointsOf(f, labels, instants)) in answer)
  }

  lemma {:induction false} PointsConcat(f: Oracle, labels: Labels, a: seq<int>, b: seq<int>)
    ensures PointsOf(f, labels, a + b) == PointsOf(f, labels, a) + PointsOf(f, labels, b)
  {
    if b == [] {
      assert a + b == a;
    } else {
      var last := |b| - 1;
      assert (a + b)[..|a + b| - 1] == a + b[..last];
      PointsConcat(f, labels, a, b[..last]);
    }
  }

  /** A series has a point exactly where the server has a value at an instant. */
  lemma {:induction false} PointsMeaning(f: Oracle, labels: Labels, instants: seq<int>)
    ensures forall p :: p in PointsOf(f, labels, instants) <==> p.time in instants && f(labels, p.time) == Some(p.value)
  {
    if instants != [] {
      var (init, last) := (instants[..|instants| - 1], instants[|instants| - 1]);
      PointsMeaning(f, labels, init);
      assert instants == init + [last];
    }
  }

  ghost predicate Ascending(points: seq<Sample>) {
    forall i, j :: 0 <= i < j < |points| ==> points[i].time < points[j].time
  }

  lemma AscendingAppend(points: seq<Sample>, p: Sample)
    requires Ascending(points) && forall q :: q in points ==> q.time < p.time
    ensures Ascending(points + [p])
  {
    assert forall i :: 0 <= i < |points| ==> points[i] in points;
  }

  predicate Increases(instants: seq<int>) { forall i, j :: 0 <= i < j < |instants| ==> instants[i] < instants[j] }

  lemma IncreasesInit(init: seq<int>, last: int)
    requires Increases(init + [last])
    ensures Increases(init) && forall t :: t in init ==> t < last
  {
    var all := init + [last];
    forall i, j | 0 <= i < j < |init| ensures init[i] < init[j] {
      assert all[i] < all[j];
    }
    forall t | t in init ensures t < last {
      var i :| 0 <= i < |init| && init[i] == t;
      assert all[i] < all[|init|];
    }
  }

  /** The points of a series are as ascending as the instants. */
  lemma {:induction false} PointsAscend(f: Oracle, labels: Labels, instants: seq<int>)
    requires Increases(instants)
    ensures Ascending(PointsOf(f, labels, instants))
    ensures forall p :: p in PointsOf(f, labels, instants) ==> p.time in instants
  {
    hide Increases;
    if instants != [] {
      var (init, last) := (instants[..|instants| - 1], instants[|instants| - 1]);
      assert instants == init + [last];
      IncreasesInit(init, last);
      PointsAscend(f, labels, init);
      if f(labels, last).Some? {
        AscendingAppend(PointsOf(f, labels, init), Sample(last, f(labels, last).value));
      }
    }
  }

  /** The server has just one answer, up to the order of the series. */
  lemma AnswersAgree(f: Oracle, a: seq<Series>, b: seq<Series>, instants: seq<int>)
    requires Answers(f, a, instants) && Answers(f, b, instants)
    ensures multiset(a) == multiset(b)
  {
    hide PointsOf;
    forall s ensures multiset(a)[s] == multiset(b)[s] {
      AtMostOnce(a, s);
      AtMostOnce(b, s);
      assert s in a <==> s in b;
      assert s in a <==> s in multiset(a);
      assert s in b <==> s in multiset(b);
    }
  }

  lemma {:induction false} AtMostOnce(a: seq<Series>, s: Series)
    requires Distinct(a)
    ensures multiset(a)[s] <= 1
  {
    if a != [] {
      var last := |a| - 1;
      AtMostOnce(a[..last], s);
      assert a == a[..last] + [a[last]];
      assert s == a[last] ==> s !in a[..last];
    }
  }

  // ----- Fetching

  datatype ShardResult = ShardResult(index: nat, outcome: Result<seq<Series>>)

  /** The goroutines send their results in any order. */
  method FetchShards(server: Range -> Result<seq<Series>>, shards: seq<Range>) returns (channel: seq<ShardResult>)
    ensures forall r :: r in channel ==> r.index < |shards| && r.outcome == server(shards[r.index])
    ensures forall i: nat :: i < |shards| ==> ShardResult(i, server(shards[i])) in channel
    ensures |channel| == |shards|
  {
    var running: set<nat> := {};
    for i := 0 to |shards|
      invariant |running| == i && forall k: nat :: k in running <==> k < i
    {
      running := running + {i};
    }
    channel := [];
    while running != {}
      invariant |channel| + |running| == |shards| && forall i :: i in running ==> i < |shards|
      invariant forall r :: r in channel ==> r.index < |shards| && r.outcome == server(shards[r.index])
      invariant forall i: nat :: i < |shards| && i !in running ==> ShardResult(i, server(shards[i])) in channel
    {
      var i :| i in running;
      running := running - {i};
      channel := channel + [ShardResult(i, server(shards[i]))];
    }
  }

  /** Every slot is filled, whatever the order of arrival. */
  method OrderResults(ghost server: Range -> Result<seq<Series>>, shards: seq<Range>, channel: seq<ShardResult>)
    returns (ordered: array<Option<ShardResult>>)
    requires forall r :: r in channel ==> r.index < |shards| && r.outcome == server(shards[r.index])
    requires forall i: nat :: i < |shards| ==> ShardResult(i, server(shards[i])) in channel
    ensures fresh(ordered) && ordered.Length == |shards|
    ensures forall i :: 0 <= i < |shards| ==> ordered[i] == Some(ShardResult(i, server(shards[i])))
  {
    ordered := new Option<ShardResult>[|shards|](_ => None);
    for k := 0 to |channel|
      invariant forall r :: r in channel[..k] ==> ordered[r.index].Some?
      invariant forall i :: 0 <= i < |shards| && ordered[i].Some? ==>
                              ordered[i].value == ShardResult(i, server(shards[i]))
    {
      assert channel[k] in channel;
      ordered[channel[k].index] := Some(channel[k]);
    }
    assert channel[..|channel|] == channel;
  }

  // ----- Merging

  /** The series collected so far are those of the instants so far. */
  ghost predicate Collected(f: Oracle, series: map<Labels, seq<Sample>>, instants: seq<int>) {
    forall labels :: (labels in series <==> PointsOf(f, labels, instants) != [])
                     && (labels in series ==> series[labels] == PointsOf(f, labels, instants))
  }

  /** The first i series of a shard are merged with what was collected before. */
  ghost predicate MergedUpTo(f: Oracle, seriesMap: map<Labels, seq<Sample>>, merged: map<Labels, seq<Sample>>,
                             shard: seq<Series>, i: nat, before: seq<int>)
    requires i <= |shard|
  {
    && (forall k :: 0 <= k < i ==>
          HasPoints(merged, shard[k].labels, PointsOf(f, shard[k].labels, before) + shard[k].points))
    && (forall labels :: Fresh(shard, i, labels) ==> SameEntry(merged, seriesMap, labels))
  }

  predicate HasPoints(m: map<Labels, seq<Sample>>, labels: Labels, points: seq<Sample>) {
    labels in m && m[labels] == points
  }

  predicate SameEntry(a: map<Labels, seq<Sample>>, b: map<Labels, seq<Sample>>, labels: Labels) {
    (labels in a <==> labels in b) && (labels in a ==> a[labels] == b[labels])
  }

  predicate Fresh(shard: seq<Series>, i: nat, labels: Labels)
    requires i <= |shard|
  {
    forall k :: 0 <= k < i ==> shard[k].labels != labels
  }

  function MergeSeries(m: map<Labels, seq<Sample>>, s: Series): map<Labels, seq<Sample>> {
    if s.labels in m then m[s.labels := m[s.labels] + s.points] else m[s.labels := s.points]
  }

  lemma MergeOneMore(f: Oracle, seriesMap: map<Labels, seq<Sample>>, merged: map<Labels, seq<Sample>>,
                     shard: seq<Series>, i: nat, before: seq<int>)
    requires i < |shard| && Distinct(shard) && Collected(f, seriesMap, before)
    requires MergedUpTo(f, seriesMap, merged, shard, i, before)
    ensures MergedUpTo(f, seriesMap, MergeSeries(merged, shard[i]), shard, i + 1, before)
  {
    hide PointsOf;
    var (s, after) := (shard[i], MergeSeries(merged, shard[i]));
    assert Fresh(shard, i, s.labels);
    assert SameEntry(merged, seriesMap, s.labels);
    assert s.labels in seriesMap <==> PointsOf(f, s.labels, before) != [];
    assert HasPoints(after, s.labels, PointsOf(f, s.labels, before) + s.points);
    forall k | 0 <= k < i
      ensures HasPoints(after, shard[k].labels, PointsOf(f, shard[k].labels, before) + shard[k].points)
    {
      assert HasPoints(merged, shard[k].labels, PointsOf(f, shard[k].labels, before) + shard[k].points);
    }
    forall labels | Fresh(shard, i + 1, labels) ensures SameEntry(after, seriesMap, labels) {
      assert Fresh(shard, i, labels) && labels != s.labels;
    }
  }

  lemma CollectedAfter(f: Oracle, seriesMap: map<Labels, seq<Sample>>, merged: map<Labels, seq<Sample>>,
                       shard: seq<Series>, before: seq<int>, instants: seq<int>)
    requires Collected(f, seriesMap, before) && Answers(f, shard, instants)
    requires MergedUpTo(f, seriesMap, merged, shard, |shard|, before)
    ensures Collected(f, merged, before + instants)
  {
    hide PointsOf;
    forall labels
      ensures labels in merged <==> PointsOf(f, labels, before + instants) != []
      ensures labels in merged ==> merged[labels] == PointsOf(f, labels, before + instants)
    {
      PointsConcat(f, labels, before, instants);
      if k :| 0 <= k < |shard| && shard[k].labels == labels {
        assert shard[k] in shard;
      } else {
        assert Fresh(shard, |shard|, labels);
        assert Series(labels, PointsOf(f, labels, instants)) !in shard;
      }
    }
  }

  method MergeShard(ghost f: Oracle, seriesMap: map<Labels, seq<Sample>>, shard: seq<Series>,
                    ghost before: seq<int>, ghost instants: seq<int>)
    returns (merged: map<Labels, seq<Sample>>)
    requires Collected(f, seriesMap, before) && Answers(f, shard, instants)
    ensures Collected(f, merged, before + instants)
  {
    hide PointsOf, Collected;
    merged := seriesMap;
    for i := 0 to |shard|
      invariant MergedUpTo(f, seriesMap, merged, shard, i, before)
    {
      var s := shard[i];
      MergeOneMore(f, seriesMap, merged, shard, i, before);
      if s.labels in merged {
        merged := merged[s.labels := merged[s.labels] + s.points];
      } else {
        merged := merged[s.labels := s.points];
      }
    }
    CollectedAfter(f, seriesMap, merged, shard, before, instants);
  }

  /** The loop over the collected series, in any order. */
  method ListSeries(ghost f: Oracle, seriesMap: map<Labels, seq<Sample>>, ghost instants: seq<int>)
    returns (series: seq<Series>)
    requires Collected(f, seriesMap, instants)
    ensures Answers(f, series, instants)
  {
    hide PointsOf;
    series := [];
    var todo := seriesMap.Keys;
    while todo != {}
      invariant todo <= seriesMap.Keys
      invariant forall s :: s in series <==>
                              s.labels in seriesMap && s.labels !in todo && s.points == seriesMap[s.labels]
      invariant Distinct(series)
    {
      var labels :| labels in todo;
      todo := todo - {labels};
      assert forall i :: 0 <= i < |series| ==> series[i] in series;
      series := series + [Series(labels, seriesMap[labels])];
    }
  }

  /** Merging the shards in order. Nothing is collected twice, and the errors are
      those of the shards. */
  method MergeOrdered(ghost server: Range -> Result<seq<Series>>, ghost f: Oracle, ghost q: Range,
                      ordered: seq<Option<ShardResult>>)
    returns (seriesMap: map<Labels, seq<Sample>>, errs: seq<string>)
    requires q.step > 0
    requires forall p: Range :: p.step > 0 && server(p).Ok? ==> Answers(f, server(p).value, Instants(p))
    requires forall i :: 0 <= i < |ordered| ==> ordered[i] == Some(ShardResult(i, server(ShardAt(q, i))))
    ensures errs == [] <==> forall i: nat :: i < |ordered| ==> server(ShardAt(q, i)).Ok?
    ensures errs == [] ==> Collected(f, seriesMap, InstantsOfShards(q, |ordered|))
  {
    seriesMap, errs := map[], [];
    ghost var seen := [];
    assert Collected(f, seriesMap, seen);
    hide Answers, Collected, Instants;
    for i := 0 to |ordered|
      invariant errs == [] <==> forall j: nat :: j < i ==> server(ShardAt(q, j)).Ok?
      invariant Collected(f, seriesMap, seen)
      invariant errs == [] ==> seen == InstantsOfShards(q, i)
    {
      match ordered[i].value.outcome {
        case Err(e) =>
          errs := errs + [e];
        case Ok(series) =>
          seriesMap := MergeShard(f, seriesMap, series, seen, Instants(ShardAt(q, i)));
          seen := seen + Instants(ShardAt(q, i));
      }
    }
  }

  /** The sharded query refines the direct one: it fails if and only if the server
      fails on a shard, and otherwise gives an answer for the instants of the range. */
  method Query(server: Range -> Result<seq<Series>>, ghost f: Oracle, start: int, end: int, step: int)
    returns (r: Result<seq<Series>>)
    requires ValidStep(step)
    requires forall q: Range :: q.step > 0 && server(q).Ok? ==> Answers(f, server(q).value, Instants(q))
    ensures var q := Range(start, end, step);
            && (r.Ok? <==> forall i: nat :: i < NumShards(q) ==> server(ShardAt(q, i)).Ok?)
            && (r.Ok? ==> Answers(f, r.value, Instants(q)))
  {
    hide Answers, Collected, NumShards, ShardAt, Instants;
    ghost var q := Range(start, end, step);
    var shards := PromQueryRangeSharding(start, end, step);
    var channel := FetchShards(server, shards);
    var ordered := OrderResults(server, shards, channel);
    var seriesMap, errs := MergeOrdered(server, f, q, ordered[..]);
    if errs != [] {
      return Err("prom query range failed");
    }
    ShardsPartition(q);
    var series := ListSeries(f, seriesMap, Instants(q));
    return Ok(series);
  }

  /** So whatever the order of arrival, a successful sharded query gives what the
      direct one gives, and the points of each series ascend strictly. */
  lemma ShardedEqualsDirect(f: Oracle, sharded: seq<Series>, direct: seq<Series>, q: Range)
    requires q.step > 0 && Answers(f, sharded, Instants(q)) && Answers(f, direct, Instants(q))
    ensures multiset(sharded) == multiset(direct)
    ensures forall s :: s in sharded ==> Ascending(s.points)
  {
    AnswersAgree(f, sharded, direct, Instants(q));
    InstantsMeaning(q);
    forall s | s in sharded ensures Ascending(s.points) {
      PointsAscend(f, s.labels, Instants(q));
    }
  }
}
