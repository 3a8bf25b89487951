/** What a plan is when the sorter orders pods by a key, as the StatefulSet's
    sorter orders them by ordinal. */
module PlannerOrder {
  import opened Common
  import opened Planner
  import opened PlannerTheorems

  type Key = Name -> int

  predicate Descending(key: Key, l: seq<Name>) {
    forall i, j :: 0 <= i < j < |l| ==> key(l[i]) >= key(l[j])
  }

  /** A sorter that puts pods in descending order of a key. */
  ghost predicate SortsDescending(key: Key, sort: Sorter) {
    Permutes(sort) && forall l :: sort(l).Ok? ==> Descending(key, sort(l).value)
  }

  ghost predicate Below(key: Key, a: set<Name>, b: set<Name>) {
    forall x, y :: x in a && y in b ==> key(x) < key(y)
  }

  ghost predicate DistinctKeys(key: Key, s: set<Name>) {
    forall x, y :: x in s && y in s && key(x) == key(y) ==> x == y
  }

  /** The states hold consecutive ranges of keys, Online the lowest. */
  ghost predicate Stratified(key: Key, c: Cells) {
    && DistinctKeys(key, c.All())
    && Below(key, c.online, c.cutoff) && Below(key, c.online, c.standby) && Below(key, c.online, c.deleted)
    && Below(key, c.cutoff, c.standby) && Below(key, c.cutoff, c.deleted) && Below(key, c.standby, c.deleted)
  }

  /** picked is a lower part of names if pods are pulled, an upper part if pushed. */
  ghost predicate Cuts(key: Key, names: set<Name>, scaleUp: bool, picked: set<Name>) {
    picked <= names && if scaleUp then Below(key, picked, names - picked) else Below(key, names - picked, picked)
  }

  /** Cutting a descending list of pods separates the high from the low keys. */
  lemma CutByKey(key: Key, s: seq<Name>, k: nat)
    requires Descending(key, s) && k <= |s| && DistinctKeys(key, Elems(s))
    requires forall i, j :: 0 <= i < j < |s| ==> s[i] != s[j]
    ensures Below(key, Elems(s[k..]), Elems(s[..k]))
    ensures Elems(s[k..]) == Elems(s) - Elems(s[..k]) && Elems(s[..k]) == Elems(s) - Elems(s[k..])
  {
    assert s == s[..k] + s[k..];
  }

  lemma SliceByKey(key: Key, s: seq<Name>, names: set<Name>, n: int, scaleUp: bool)
    requires Lists(s, names) && Descending(key, s) && DistinctKeys(key, names) && n > 0
    ensures Cuts(key, names, scaleUp, Elems(Slice(s, n, scaleUp)))
  {
    hide Below, DistinctKeys, Elems, Descending;
    DistinctElems(s, names);
    CutByKey(key, s, if scaleUp then |s| - Min(n, |s|) else Min(n, |s|));
  }

  /** A transfer down takes the highest keys, a transfer up the lowest. */
  lemma PicksByKey(key: Key, sort: Sorter, names: set<Name>, n: int, scaleUp: bool, picked: set<Name>)
    requires SortsDescending(key, sort) && DistinctKeys(key, names)
    requires Picks(sort, names, n, scaleUp, picked)
    ensures Cuts(key, names, scaleUp, picked)
  {
    hide DistinctKeys, Slice, Elems;
    if n > 0 && names != {} {
      var l :| Lists(l, names) && sort(l).Ok? && picked == Elems(Slice(sort(l).value, n, scaleUp));
      SliceByKey(key, sort(l).value, names, n, scaleUp);
    }
  }

  /** Two neighbouring layers stay ordered when the lower gives its highest pods
      to the upper, or takes the upper's lowest. */
  lemma ExchangeKeepsOrder(key: Key, a: set<Name>, b: set<Name>, down: set<Name>, up: set<Name>)
    requires Below(key, a, b) && (down == {} || up == {})
    requires Cuts(key, a, false, down) && Cuts(key, b, true, up)
    ensures Below(key, (a - down) + up, (b - up) + down)
  {
  }

  lemma BelowWithin(key: Key, a: set<Name>, b: set<Name>, a': set<Name>, b': set<Name>)
    requires Below(key, a, b) && a' <= a && b' <= b
    ensures Below(key, a', b')
  {
  }

  lemma BelowUnion(key: Key, a: set<Name>, a': set<Name>, b: set<Name>)
    requires Below(key, a, b) && Below(key, a', b)
    ensures Below(key, a + a', b)
  {
  }

  lemma AboveUnion(key: Key, a: set<Name>, b: set<Name>, b': set<Name>)
    requires Below(key, a, b) && Below(key, a, b')
    ensures Below(key, a, b + b')
  {
  }

  /** The first stage keeps Online below everything else, and the others ordered. */
  lemma OnlineStaysBelow(key: Key, a: set<Name>, b: set<Name>, c: set<Name>,
                         down0: set<Name>, up01: set<Name>, up02: set<Name>)
    requires Below(key, a, b) && Below(key, a, c) && Below(key, b, c)
    requires Cuts(key, a, false, down0) && Cuts(key, b, true, up01) && Cuts(key, c, true, up02)
    requires down0 == {} || up01 == up02 == {}
    requires up02 == {} || up01 == b
    ensures var online := (a - down0) + up01 + up02;
            && Below(key, online, (b - up01) + down0) && Below(key, online, c - up02)
            && Below(key, (b - up01) + down0, c - up02)
  {
    hide Below;
    var online := (a - down0) + up01;
    ExchangeKeepsOrder(key, a, b, down0, up01);
    BelowUnion(key, a, b, c);
    BelowWithin(key, a + b, c, online, c - up02);
    BelowWithin(key, a + b, c, (b - up01) + down0, c - up02);
    BelowUnion(key, online, up02, c - up02);
    if up02 == {} {
      assert online + up02 == online;
    } else {
      assert (b - up01) + down0 == {};
      NothingIsAbove(key, online + up02);
    }
  }

  lemma NothingIsAbove(key: Key, names: set<Name>)
    ensures Below(key, names, {}) && Below(key, {}, names)
  {
  }

  /** The second stage does the same for Cutoff and Standby. */
  lemma CutoffStaysBelow(key: Key, a: set<Name>, b: set<Name>, c: set<Name>, down1: set<Name>, up12: set<Name>)
    requires Below(key, a, b) && Below(key, a, c) && Below(key, b, c)
    requires Cuts(key, b, false, down1) && Cuts(key, c, true, up12) && (down1 == {} || up12 == {})
    ensures Below(key, a, (b - down1) + up12) && Below(key, a, (c - up12) + down1)
    ensures Below(key, (b - down1) + up12, (c - up12) + down1)
  {
    hide Below;
    ExchangeKeepsOrder(key, b, c, down1, up12);
    AboveUnion(key, a, b, c);
    BelowWithin(key, a, b + c, a, (b - down1) + up12);
    BelowWithin(key, a, b + c, a, (c - up12) + down1);
  }

  lemma DistinctWithin(key: Key, a: set<Name>, b: set<Name>)
    requires DistinctKeys(key, b) && a <= b
    ensures DistinctKeys(key, a)
  {
  }

  lemma PoolsAreDistinct(key: Key, c: Cells, m: Moves)
    requires DistinctKeys(key, c.All()) && Sane(c, m)
    ensures DistinctKeys(key, c.online) && DistinctKeys(key, c.cutoff) && DistinctKeys(key, c.standby)
    ensures DistinctKeys(key, Pool1(c, m)) && DistinctKeys(key, Pool2(c, m)) && DistinctKeys(key, c.standby - m.up02)
  {
    hide DistinctKeys;
    DistinctWithin(key, c.online, c.All());
    DistinctWithin(key, c.cutoff, c.All());
    DistinctWithin(key, c.standby, c.All());
    DistinctWithin(key, Pool1(c, m), c.All());
    DistinctWithin(key, Pool2(c, m), c.All());
    DistinctWithin(key, c.standby - m.up02, c.All());
  }

  /** Every move of a plan cuts its pool by key. */
  lemma MovesCut(key: Key, sort: Sorter, d: Desired, c: Cells, m: Moves)
    requires SortsDescending(key, sort) && DistinctKeys(key, c.All()) && Sane(c, m)
    requires Step0(sort, d, c, m) && Step1(sort, d, c, m) && Step2(sort, d, c, m)
    ensures Cuts(key, c.online, false, m.down0)
    ensures Cuts(key, c.cutoff, true, m.up01) && Cuts(key, c.standby, true, m.up02)
    ensures Cuts(key, Pool1(c, m), false, m.down1) && Cuts(key, c.standby - m.up02, true, m.up12)
    ensures Cuts(key, Pool2(c, m), false, m.down2)
  {
    hide Picks, Cuts, DistinctKeys, SortsDescending, Pool1, Pool2, Cells.All, Sane;
    var (p1, p2, rest) := (Pool1(c, m), Pool2(c, m), c.standby - m.up02);
    PoolsAreDistinct(key, c, m);
    PicksByKey(key, sort, c.online, |c.online| - d.online, false, m.down0);
    PicksByKey(key, sort, c.cutoff, d.online - |c.online|, true, m.up01);
    PicksByKey(key, sort, c.standby, d.online - |c.online| - |m.up01|, true, m.up02);
    PicksByKey(key, sort, p1, |p1| - d.cutoff, false, m.down1);
    PicksByKey(key, sort, rest, d.cutoff - |p1|, true, m.up12);
    PicksByKey(key, sort, p2, |p2| - d.standby, false, m.down2);
  }

  /** A plan under such a sorter keeps the states stratified, and the pods to
      delete are above every other. */
  lemma PlanStaysStratified(key: Key, sort: Sorter, d: Desired, c: Cells, f: Cells)
    requires SortsDescending(key, sort) && c.Running() && Stratified(key, c) && Planned(sort, d, c, f)
    ensures Stratified(key, f)
  {
    hide Picks, Planned, Step0, Step1, Step2, Below, DistinctKeys;
    PlanIsWaterfall(sort, d, c, f);
    var m := PlanMovesExclude(sort, d, c, f);
    MovesCut(key, sort, d, c, m);
    hide Permutes, Cells.Running, Cells.Disjoint;
    OnlineStaysBelow(key, c.online, c.cutoff, c.standby, m.down0, m.up01, m.up02);
    CutoffStaysBelow(key, f.online, Pool1(c, m), c.standby - m.up02, m.down1, m.up12);
    var p2 := Pool2(c, m);
    BelowWithin(key, f.online, p2, f.online, f.standby);
    BelowWithin(key, f.online, p2, f.online, f.deleted);
    BelowWithin(key, f.cutoff, p2, f.cutoff, f.standby);
    BelowWithin(key, f.cutoff, p2, f.cutoff, f.deleted);
  }

  /** How many pods come before x when all are sorted by key. */
  ghost function Rank(key: Key, all: set<Name>, x: Name): nat { |set y | y in all && key(y) < key(x)| }

  lemma RankIs(key: Key, all: set<Name>, x: Name, before: set<Name>)
    requires forall y :: y in before <==> y in all && key(y) < key(x)
    ensures Rank(key, all, x) == |before|
  {
    assert (set y | y in all && key(y) < key(x)) == before;
  }

  /** If one set is below another, its pods are those of the lowest ranks. */
  lemma RankSplits(key: Key, low: set<Name>, high: set<Name>, x: Name)
    requires Below(key, low, high) && low !! high && x in low + high
    ensures x in low <==> Rank(key, low + high, x) < |low|
  {
    var before := set y | y in low + high && key(y) < key(x);
    if x in low {
      CardSub(before, low - {x});
    } else {
      CardSub(low, before);
    }
  }

  lemma LayersAreCuts(key: Key, f: Cells)
    requires Stratified(key, f)
    ensures Below(key, f.online, f.cutoff + f.standby + f.deleted)
    ensures Below(key, f.online + f.cutoff, f.standby + f.deleted)
    ensures Below(key, f.online + f.cutoff + f.standby, f.deleted)
  {
    hide Below, DistinctKeys;
    AboveUnion(key, f.online, f.cutoff, f.standby);
    AboveUnion(key, f.online, f.cutoff + f.standby, f.deleted);
    BelowUnion(key, f.online, f.cutoff, f.standby);
    BelowUnion(key, f.online, f.cutoff, f.deleted);
    AboveUnion(key, f.online + f.cutoff, f.standby, f.deleted);
    BelowUnion(key, f.online + f.cutoff, f.standby, f.deleted);
  }

  lemma LayersAreSplits(f: Cells)
    requires f.Disjoint()
    ensures f.online !! f.cutoff + f.standby + f.deleted
    ensures f.online + f.cutoff !! f.standby + f.deleted
    ensures f.online + f.cutoff + f.standby !! f.deleted
    ensures f.All() == f.online + (f.cutoff + f.standby + f.deleted)
    ensures f.All() == (f.online + f.cutoff) + (f.standby + f.deleted)
    ensures |f.online + f.cutoff| == |f.online| + |f.cutoff|
    ensures |f.online + f.cutoff + f.standby| == |f.online| + |f.cutoff| + |f.standby|
  {
  }

  /** In stratified states the rank of a pod tells its state. */
  lemma LayersByRank(key: Key, f: Cells, x: Name)
    requires f.Disjoint() && Stratified(key, f) && x in f.All()
    ensures var (n, rank) := (Sizes(f), Rank(key, f.All(), x));
            && (x in f.online <==> rank < n.online)
            && (x in f.cutoff <==> n.online <= rank < n.online + n.cutoff)
            && (x in f.standby <==> n.online + n.cutoff <= rank < n.online + n.cutoff + n.standby)
            && (x in f.deleted <==> n.online + n.cutoff + n.standby <= rank)
  {
    hide Below, DistinctKeys, Rank, Stratified;
    LayersAreCuts(key, f);
    LayersAreSplits(f);
    RankSplits(key, f.online, f.cutoff + f.standby + f.deleted, x);
    RankSplits(key, f.online + f.cutoff, f.standby + f.deleted, x);
    RankSplits(key, f.online + f.cutoff + f.standby, f.deleted, x);
  }

  /** The plan is the plain one: sort all pods by key, keep the first online, the
      next cut off, the next on standby, and delete the rest. */
  lemma PlanSlicesByKey(key: Key, sort: Sorter, d: Desired, c: Cells, f: Cells, x: Name)
    requires SortsDescending(key, sort) && c.Running() && Stratified(key, c) && Planned(sort, d, c, f)
    requires x in c.All()
    ensures var (w, rank) := (Waterfall(d, Total(c)), Rank(key, c.All(), x));
            && (x in f.online <==> rank < w.online)
            && (x in f.cutoff <==> w.online <= rank < w.online + w.cutoff)
            && (x in f.standby <==> w.online + w.cutoff <= rank < w.online + w.cutoff + w.standby)
            && (x in f.deleted <==> w.online + w.cutoff + w.standby <= rank)
  {
    hide Picks, Planned, Below, DistinctKeys, Waterfall, Rank, Permutes, SortsDescending;
    PlanStaysStratified(key, sort, d, c, f);
    assert Permutes(sort) by { SorterPermutes(key, sort); }
    PlanIsWaterfall(sort, d, c, f);
    LayersByRank(key, f, x);
  }

  lemma SorterPermutes(key: Key, sort: Sorter)
    requires SortsDescending(key, sort)
    ensures Permutes(sort)
  {
  }
}
