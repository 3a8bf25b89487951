/** What a plan of the state manager always is, whatever the sorter prefers. */
module PlannerTheorems {
  import opened Common
  import opened Planner

  datatype Counts = Counts(online: int, cutoff: int, standby: int, deleted: int)

  function Sizes(c: Cells): Counts { Counts(|c.online|, |c.cutoff|, |c.standby|, |c.deleted|) }

  function Total(c: Cells): nat { |c.online| + |c.cutoff| + |c.standby| + |c.deleted| }

  lemma TotalIsAll(c: Cells)
    requires c.Running()
    ensures Total(c) == |c.All()|
  {
    CardUnion(c.online, c.cutoff);
    CardUnion(c.online + c.cutoff, c.standby);
    assert c.All() == c.online + c.cutoff + c.standby;
  }

  /** At most n of what is wanted; a negative wish is a wish for none. */
  function Share(wanted: int, n: int): int { Max(0, Min(wanted, n)) }

  /** n pods poured into the states in order; what is left over is deleted. */
  function Waterfall(d: Desired, n: nat): Counts {
    var f0 := Share(d.online, n);
    var f1 := Share(d.cutoff, n - f0);
    var f2 := Share(d.standby, n - f0 - f1);
    Counts(f0, f1, f2, n - f0 - f1 - f2)
  }

  /** The sizes of all the pools, from the sizes of the moves. */
  lemma MoveSizes(c: Cells, m: Moves)
    requires c.Running() && Sane(c, m)
    ensures |Pool1(c, m)| == |c.cutoff| - |m.up01| + |m.down0|
    ensures |Pool2(c, m)| == |c.standby| - |m.up02| - |m.up12| + |m.down1|
    ensures |c.standby - m.up02| == |c.standby| - |m.up02|
    ensures var f := Final(c, m);
            && |f.online| == |c.online| - |m.down0| + |m.up01| + |m.up02|
            && |f.cutoff| == |Pool1(c, m)| - |m.down1| + |m.up12|
            && |f.standby| == |Pool2(c, m)| - |m.down2| && |f.deleted| == |m.down2|
  {
    CardSub(m.up01, c.cutoff);
    CardUnion(c.cutoff - m.up01, m.down0);
    CardSub(m.up02, c.standby);
    CardSub(m.up12, c.standby - m.up02);
    CardUnion(c.standby - m.up02 - m.up12, m.down1);
    CardSub(m.down0, c.online);
    CardUnion(c.online - m.down0, m.up01);
    CardUnion((c.online - m.down0) + m.up01, m.up02);
    CardSub(m.down1, Pool1(c, m));
    CardUnion(Pool1(c, m) - m.down1, m.up12);
    CardSub(m.down2, Pool2(c, m));
  }

  /** Every plan comes from moves whose sizes are forced by the counts. */
  lemma PlanMoves(sort: Sorter, d: Desired, c: Cells, f: Cells) returns (m: Moves)
    requires Permutes(sort) && c.Running() && Planned(sort, d, c, f)
    ensures f == Final(c, m) && Sane(c, m)
    ensures Step0(sort, d, c, m) && Step1(sort, d, c, m) && Step2(sort, d, c, m)
    ensures var short := d.online - |c.online|;
            && |m.down0| == Share(-short, |c.online|)
            && |m.up01| == Share(short, |c.cutoff|)
            && |m.up02| == Share(short - |m.up01|, |c.standby|)
    ensures var short := d.cutoff - |Pool1(c, m)|;
            && |m.down1| == Share(-short, |Pool1(c, m)|)
            && |m.up12| == Share(short, |c.standby| - |m.up02|)
    ensures |m.down2| == Share(|Pool2(c, m)| - d.standby, |Pool2(c, m)|)
  {
    hide Picks, Pool1, Pool2, Final;
    m :| f == Final(c, m) && Step0(sort, d, c, m) && Step1(sort, d, c, m) && Step2(sort, d, c, m);
    assert MadeUpTo(sort, d, c, m, 4);
    MadeIsSane(sort, d, c, m, 4);
    hide Sane, Cells.Running;
    PicksSubset(sort, c.online, |c.online| - d.online, false, m.down0);
    PicksSubset(sort, c.cutoff, d.online - |c.online|, true, m.up01);
    PicksSubset(sort, c.standby, d.online - |c.online| - |m.up01|, true, m.up02);
    PicksSubset(sort, Pool1(c, m), |Pool1(c, m)| - d.cutoff, false, m.down1);
    PicksSubset(sort, c.standby - m.up02, d.cutoff - |Pool1(c, m)|, true, m.up12);
    PicksSubset(sort, Pool2(c, m), |Pool2(c, m)| - d.standby, false, m.down2);
    MoveSizes(c, m);
  }

  /** A state pushes or pulls, never both, and Standby is pulled from for Online
      only when Cutoff is exhausted. */
  lemma PlanMovesExclude(sort: Sorter, d: Desired, c: Cells, f: Cells) returns (m: Moves)
    requires Permutes(sort) && c.Running() && Planned(sort, d, c, f)
    ensures f == Final(c, m) && Sane(c, m)
    ensures Step0(sort, d, c, m) && Step1(sort, d, c, m) && Step2(sort, d, c, m)
    ensures d.online >= |c.online| ==> m.down0 == {}
    ensures d.online <= |c.online| ==> m.up01 == m.up02 == {}
    ensures m.down0 == {} || m.up01 == m.up02 == {}
    ensures m.up02 == {} || m.up01 == c.cutoff
    ensures m.down1 == {} || m.up12 == {}
  {
    hide Picks, Permutes, Planned, Step0, Step1, Step2, Pool1, Pool2, Final, Cells.Running;
    m := PlanMoves(sort, d, c, f);
    if m.up02 != {} {
      assert |m.up01| == |c.cutoff|;
      CardSub(m.up01, c.cutoff);
    }
  }

  /** The arithmetic of the cascade, with the moves as numbers. */
  lemma CascadeArith(d: Desired, n0: nat, n1: nat, n2: nat,
                     down0: int, up01: int, up02: int, down1: int, up12: int, down2: int)
    requires down0 == Share(n0 - d.online, n0) && up01 == Share(d.online - n0, n1)
    requires up02 == Share(d.online - n0 - up01, n2)
    requires down1 == Share(n1 - up01 + down0 - d.cutoff, n1 - up01 + down0)
    requires up12 == Share(d.cutoff - (n1 - up01 + down0), n2 - up02)
    requires down2 == Share(n2 - up02 - up12 + down1 - d.standby, n2 - up02 - up12 + down1)
    ensures Waterfall(d, n0 + n1 + n2)
         == Counts(n0 - down0 + up01 + up02, n1 - up01 + down0 - down1 + up12, n2 - up02 - up12 + down1 - down2, down2)
  {
  }

  /** Every pod ends in exactly one place, and the counts are the waterfall. */
  lemma PlanIsWaterfall(sort: Sorter, d: Desired, c: Cells, f: Cells)
    requires Permutes(sort) && c.Running() && Planned(sort, d, c, f)
    ensures f.Disjoint() && f.All() == c.All()
    ensures Sizes(f) == Waterfall(d, Total(c))
  {
    hide Picks, Planned, Step0, Step1, Step2, Pool1, Pool2, Final, Sane, Cells.All, Cells.Disjoint, Waterfall, Share;
    assert |c.deleted| == 0;
    hide Cells.Running;
    var m := PlanMoves(sort, d, c, f);
    MoveSizes(c, m);
    FinalPartitions(c, m);
    CascadeArith(d, |c.online|, |c.cutoff|, |c.standby|,
                 |m.down0|, |m.up01|, |m.up02|, |m.down1|, |m.up12|, |m.down2|);
  }

  lemma FinalPartitions(c: Cells, m: Moves)
    requires c.Running() && Sane(c, m)
    ensures Final(c, m).Disjoint() && Final(c, m).All() == c.All()
  {
  }

  lemma MovesDiscipline(c: Cells, m: Moves)
    requires c.Running() && Sane(c, m)
    requires m.up02 == {} || m.up01 == c.cutoff
    requires m.down1 == {} || m.up12 == {}
    ensures var f := Final(c, m);
            && (m.down0 == {} ==> c.online <= f.online)
            && (m.up01 == m.up02 == {} ==> f.online <= c.online)
            && (f.online * c.standby != {} ==> c.cutoff <= f.online)
            && (f.cutoff * c.standby != {} ==> (c.online + c.cutoff) - f.online <= f.cutoff)
  {
    var f := Final(c, m);
    assert f.online * c.standby == m.up02;
    assert f.cutoff * c.standby == m.up12;
  }

  /** How a plan treats the states: nothing moves out of a state that is short
      or into one that has too many, a standby pod goes online only after every
      cutoff pod has, and standby pods are cut off only if no pod leaves Cutoff. */
  lemma PlanDiscipline(sort: Sorter, d: Desired, c: Cells, f: Cells)
    requires Permutes(sort) && c.Running() && Planned(sort, d, c, f)
    ensures d.online >= |c.online| ==> c.online <= f.online
    ensures d.online <= |c.online| ==> f.online <= c.online
    ensures f.online * c.standby != {} ==> c.cutoff <= f.online
    ensures f.cutoff * c.standby != {} ==> (c.online + c.cutoff) - f.online <= f.cutoff
  {
    hide Picks, Permutes, Planned, Step0, Step1, Step2, Final, Sane, Cells.Running;
    var m := PlanMovesExclude(sort, d, c, f);
    MovesDiscipline(c, m);
  }

  /** A classification that already has the waterfall counts is left alone. */
  lemma PlanIsStable(sort: Sorter, d: Desired, c: Cells, f: Cells)
    requires Permutes(sort) && c.Running() && Planned(sort, d, c, f)
    requires Sizes(c) == Waterfall(d, Total(c))
    ensures f == c
  {
    hide Picks, Planned;
    var m := NoMovesNeeded(sort, d, c, f);
    assert m == NO_MOVES;
  }

  lemma NoMovesNeeded(sort: Sorter, d: Desired, c: Cells, f: Cells) returns (m: Moves)
    requires Permutes(sort) && c.Running() && Planned(sort, d, c, f)
    requires Sizes(c) == Waterfall(d, Total(c))
    ensures f == Final(c, m) && |m.down0| == |m.up01| == |m.up02| == |m.down1| == |m.up12| == |m.down2| == 0
  {
    hide Picks, Planned, Step0, Step1, Step2, Pool1, Pool2, Final, Sane, Cells.All, Cells.Disjoint, Cells.Running;
    m := PlanMoves(sort, d, c, f);
    MoveSizes(c, m);
  }

  /** What is left when the planned pods are deleted. */
  function Survivors(f: Cells): Cells { f.(deleted := {}) }

  lemma WaterfallSettles(d: Desired, n: nat)
    ensures var w := Waterfall(d, n);
            && w.online >= 0 && w.cutoff >= 0 && w.standby >= 0
            && Waterfall(d, w.online + w.cutoff + w.standby) == w.(deleted := 0)
  {
  }

  lemma SurvivorsFit(d: Desired, f: Cells, n: nat)
    requires f.Disjoint() && Sizes(f) == Waterfall(d, n)
    ensures Survivors(f).Running() && Sizes(Survivors(f)) == Waterfall(d, Total(Survivors(f)))
  {
    WaterfallSettles(d, n);
    hide Waterfall;
  }

  /** Carrying out a plan leaves nothing to plan: the second plan moves no pod,
      even if the sorter has changed its mind. */
  lemma PlanIsIdempotent(sort: Sorter, sort': Sorter, d: Desired, c: Cells, f: Cells, g: Cells)
    requires Permutes(sort) && Permutes(sort') && c.Running()
    requires Planned(sort, d, c, f) && Planned(sort', d, Survivors(f), g)
    ensures g == Survivors(f)
  {
    hide Permutes, Planned, Waterfall, Sizes, Total, Survivors, Cells.Running, Cells.Disjoint, Cells.All;
    PlanIsWaterfall(sort, d, c, f);
    SurvivorsFit(d, f, Total(c));
    PlanIsStable(sort', d, Survivors(f), g);
  }

  // ----- There always is a plan

  lemma {:induction false} ListingExists(names: set<Name>) returns (l: seq<Name>)
    ensures Lists(l, names)
  {
    l := [];
    if names != {} {
      var name :| name in names;
      var rest := ListingExists(names - {name});
      l := rest + [name];
      assert names == (names - {name}) + {name};
    }
  }

  lemma PickExists(sort: Sorter, names: set<Name>, n: int, scaleUp: bool) returns (picked: set<Name>)
    requires forall l :: sort(l).Ok?
    ensures Picks(sort, names, n, scaleUp, picked)
  {
    picked := {};
    if n > 0 && names != {} {
      var l := ListingExists(names);
      picked := Elems(Slice(sort(l).value, n, scaleUp));
    }
  }

  /** If the sorter does not fail, there is a plan for every classification and
      every wish. */
  lemma PlanExists(sort: Sorter, d: Desired, c: Cells) returns (f: Cells)
    requires forall l :: sort(l).Ok?
    ensures Planned(sort, d, c, f)
  {
    hide Picks, Final, Pool1, Pool2;
    var down0 := PickExists(sort, c.online, |c.online| - d.online, false);
    var up01 := PickExists(sort, c.cutoff, d.online - |c.online|, true);
    var up02 := PickExists(sort, c.standby, d.online - |c.online| - |up01|, true);
    var m0 := NO_MOVES.(down0 := down0, up01 := up01, up02 := up02);
    var pool1 := Pool1(c, m0);
    var down1 := PickExists(sort, pool1, |pool1| - d.cutoff, false);
    var up12 := PickExists(sort, c.standby - up02, d.cutoff - |pool1|, true);
    var m1 := m0.(down1 := down1, up12 := up12);
    var pool2 := Pool2(c, m1);
    var down2 := PickExists(sort, pool2, |pool2| - d.standby, false);
    var m := m1.(down2 := down2);
    assert Pool1(c, m) == pool1 && Pool2(c, m) == pool2 by { SamePools(c, m0, m1, m); }
    f := Final(c, m);
    assert Step0(sort, d, c, m) && Step1(sort, d, c, m) && Step2(sort, d, c, m);
  }

  lemma SamePools(c: Cells, m0: Moves, m1: Moves, m: Moves)
    requires m1 == m0.(down1 := m1.down1, up12 := m1.up12) && m == m1.(down2 := m.down2)
    ensures Pool1(c, m) == Pool1(c, m0) && Pool2(c, m) == Pool2(c, m1)
  {
  }
}
