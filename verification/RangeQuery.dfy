/** A range query that is cut into shards, run in parallel and put together again:
    promQueryRangeSharding and Query of pkg/metric/provider/prometheus/provider.go.
    Times and steps are in nanoseconds. */
module RangeQuery {
  import opened Common

  const MAX_POINTS := 11000

  /** With a larger step the product step * MAX_POINTS overflows an int64. */
  const MAX_STEP := 0x7FFF_FFFF_FFFF_FFFF / MAX_POINTS

  datatype Range = Range(start: int, end: int, step: int)

  predicate ValidStep(step: int) { 0 < step <= MAX_STEP }

  /** How many instants start, start + step, start + 2 * step, ... a range has. */
  function Count(r: Range): nat
    requires r.step > 0
  {
    if r.end < r.start then 0 else (r.end - r.start) / r.step + 1
  }

  function Instants(r: Range): (s: seq<int>)
    requires r.step > 0
    ensures |s| == Count(r)
  {
    seq(Count(r), k => r.start + k * r.step)
  }

  /** The instants are exactly the start plus multiples of the step, up to the end,
      each once and in order. */
  lemma InstantsMeaning(r: Range)
    requires r.step > 0
    ensures forall k :: 0 <= k < Count(r) ==> Instants(r)[k] == r.start + k * r.step
    ensures forall k: nat :: r.start + k * r.step <= r.end <==> k < Count(r)
    ensures forall i, j :: 0 <= i < j < Count(r) ==> Instants(r)[i] < Instants(r)[j]
  {
    forall k: nat ensures r.start + k * r.step <= r.end <==> k < Count(r) {
      if r.end >= r.start {
        Quotient(r.end - r.start, r.step, k);
      } else {
        Quotient(0, r.step, k);
      }
    }
    forall i, j | 0 <= i < j < Count(r) ensures Instants(r)[i] < Instants(r)[j] {
      Distribute(i, j - i, r.step);
      Quotient(0, r.step, j - i);
    }
  }

  lemma Quotient(x: int, step: int, k: nat)
    requires x >= 0 && step > 0
    ensures k * step >= 0 && (k > 0 ==> k * step > 0)
    ensures k * step <= x <==> k <= x / step
  {
    var q := x / step;
    assert x == q * step + x % step;
    Distribute(q - k, k, step);
    Distribute(k - q - 1, q + 1, step);
    Distribute(q, 1, step);
    Nonnegative(k, step);
    Nonnegative(q - k, step);
    Nonnegative(k - q - 1, step);
  }

  lemma Nonnegative(k: int, step: int)
    requires step > 0
    ensures k >= 0 ==> k * step >= 0
    ensures k > 0 ==> k * step > 0
  {
  }

  lemma Distribute(a: int, b: int, step: int)
    ensures (a + b) * step == a * step + b * step
  {
  }

  // ----- Cutting a range into shards

  function Stride(step: int): int { (MAX_POINTS + 1) * step }

  function NumShards(r: Range): (n: nat)
    requires r.step > 0
    ensures n >= 1
  {
    if r.end < r.start then 1 else (r.end - r.start) / Stride(r.step) + 1
  }

  /** Shard i in closed form. */
  function ShardAt(r: Range, i: nat): Range {
    var start := r.start + i * Stride(r.step);
    Range(start, Min(start + r.step * MAX_POINTS, r.end), r.step)
  }

  method PromQueryRangeSharding(start: int, end: int, step: int) returns (shards: seq<Range>)
    requires ValidStep(step)
    ensures |shards| == NumShards(Range(start, end, step))
    ensures forall i :: 0 <= i < |shards| ==> shards[i] == ShardAt(Range(start, end, step), i)
  {
    ghost var r := Range(start, end, step);
    shards := [];
    var shardStart, complete := start, false;
    while !complete
      invariant |shards| <= NumShards(r) && (complete <==> |shards| == NumShards(r))
      invariant shardStart <= end || shards == [] || complete
      invariant !complete ==> shardStart == start + |shards| * Stride(step)
      invariant forall i :: 0 <= i < |shards| ==> shards[i] == ShardAt(r, i)
      decreases NumShards(r) - |shards|
    {
      ghost var n := |shards|;
      var shardEnd := shardStart + step * MAX_POINTS;
      if shardEnd >= end {
        shardEnd := end;
        complete := true;
      }
      shards := shards + [Range(shardStart, shardEnd, step)];
      shardStart := shardEnd + step;
      if shardStart > end {
        complete := true;
      }
      Distribute(n, 1, Stride(step));
      if end >= start {
        Quotient(end - start, Stride(step), n);
        Quotient(end - start, Stride(step), n + 1);
      }
    }
  }

  /** A shard spans at most MAX_POINTS steps, and holds the instants of the range from
      its own start on, MAX_POINTS + 1 of them unless it is the last. */
  lemma ShardSpan(r: Range, i: nat)
    requires r.step > 0 && i < NumShards(r)
    ensures ShardAt(r, i).end - ShardAt(r, i).start <= 11000 * r.step
    ensures ShardAt(r, i).start == r.start + i * (MAX_POINTS + 1) * r.step
    ensures Count(ShardAt(r, i)) == Min(MAX_POINTS + 1, Count(r) - i * (MAX_POINTS + 1))
    ensures i < NumShards(r) - 1 ==> Count(ShardAt(r, i)) == 11001
  {
    var m := i * (MAX_POINTS + 1);
    Regroup(i, MAX_POINTS + 1, r.step);
    if r.end >= r.start {
      var length := r.end - r.start;
      DivDiv(length, r.step, MAX_POINTS + 1);
      DivMinus(length, m, r.step);
      Quotient(length, r.step, m);
      DivMin(length - m * r.step, r.step);
      hide Stride;
    }
  }

  lemma Regroup(i: int, size: int, step: int)
    ensures i * (size * step) == i * size * step
  {
  }

  /** Counting strides is counting steps in groups of the stride's size. */
  lemma DivDiv(x: int, step: int, size: int)
    requires x >= 0 && step > 0 && size > 0
    ensures size * step > 0
    ensures x / (size * step) == x / step / size
  {
    var (steps, strides) := (x / step, x / step / size);
    Quotient(0, step, size);
    Regroup(strides, size, step);
    Distribute(strides * size, steps % size, step);
    Quotient(0, step, steps % size);
    Distribute(size - 1 - steps % size, steps % size + 1, step);
    Quotient(0, step, size - 1 - steps % size);
    Distribute(steps % size, 1, step);
    Unique(x, strides, steps % size * step + x % step, size * step);
  }

  lemma DivMinus(x: int, m: int, step: int)
    requires step > 0
    ensures (x - m * step) / step == x / step - m
  {
    Distribute(x / step - m, m, step);
    Unique(x - m * step, x / step - m, x % step, step);
  }

  lemma DivMin(x: int, step: int)
    requires x >= 0 && step > 0
    ensures Min(step * MAX_POINTS, x) / step == Min(MAX_POINTS, x / step)
  {
    Quotient(x, step, MAX_POINTS);
    Unique(MAX_POINTS * step, MAX_POINTS, 0, step);
  }

  lemma Unique(x: int, q: int, rest: int, step: int)
    requires step > 0 && x == q * step + rest && 0 <= rest < step
    ensures x / step == q
  {
    var p := x / step;
    Distribute(p - q, q, step);
    assert (p - q) * step == rest - x % step;
    assert -step < (p - q) * step < step;
    Small(p - q, step);
  }

  lemma Small(d: int, step: int)
    requires step > 0 && -step < d * step < step
    ensures d == 0
  {
    var e := if d >= 0 then d else -d;
    assert e * step < step;
    Distribute(1, e - 1, step);
    Quotient(0, step, if e > 0 then e - 1 else 0);
  }

  /** The instants of the first n shards, one shard after the other. */
  function InstantsOfShards(r: Range, n: nat): seq<int>
    requires r.step > 0
  {
    if n == 0 then [] else InstantsOfShards(r, n - 1) + Instants(ShardAt(r, n - 1))
  }

  lemma ShardsSuffice(r: Range)
    requires r.step > 0
    ensures Count(r) <= NumShards(r) * (MAX_POINTS + 1)
  {
    if r.end >= r.start {
      DivDiv(r.end - r.start, r.step, MAX_POINTS + 1);
      hide Stride;
    }
  }

  lemma {:induction false} ShardsUpTo(r: Range, n: nat)
    requires r.step > 0 && n <= NumShards(r)
    ensures InstantsOfShards(r, n) == Instants(r)[..Min(n * (MAX_POINTS + 1), Count(r))]
  {
    hide NumShards, Count, Stride;
    if n > 0 {
      ShardsUpTo(r, n - 1);
      ShardSpan(r, n - 1);
      ShardFollows(r, n - 1);
    }
  }

  lemma ShardFollows(r: Range, i: nat)
    requires r.step > 0 && i < NumShards(r)
    ensures var m := i * (MAX_POINTS + 1);
            && m + Count(ShardAt(r, i)) <= Max(m, Count(r))
            && forall k :: 0 <= k < Count(ShardAt(r, i)) ==> Instants(ShardAt(r, i))[k] == Instants(r)[m + k]
  {
    ShardSpan(r, i);
    hide NumShards, Count, Stride;
    forall k | 0 <= k < Count(ShardAt(r, i))
      ensures Instants(ShardAt(r, i))[k] == Instants(r)[i * (MAX_POINTS + 1) + k]
    {
      Distribute(i * (MAX_POINTS + 1), k, r.step);
    }
  }

  /** No instant of the range is lost and none is in two shards. */
  lemma ShardsPartition(r: Range)
    requires r.step > 0
    ensures InstantsOfShards(r, NumShards(r)) == Instants(r)
  {
    ShardsUpTo(r, NumShards(r));
    ShardsSuffice(r);
    hide NumShards, Count, Stride;
  }
}
