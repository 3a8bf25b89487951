/** Runs of the ReplicaProfile controller against an environment that brings the
    running pods to the scale of the workload between two reconciles. */
module Convergence {
  import opened Common
  import opened Planner
  import opened PlannerTheorems
  import opened Pods
  import opened ReplicaProfile

  const MAX_INT32 := 0x7fff_ffff

  /** The workload controller at work: it deletes whichever pods it likes, or
      creates pods, which are online, until scale pods run. */
  ghost predicate Levels(w: World, w': World) {
    var (c, c') := (Classified(w.pods), Classified(w'.pods));
    && w'.scale == w.scale && Total(c') == w.scale
    && if Total(c) >= w.scale then c'.online <= c.online && c'.cutoff <= c.cutoff && c'.standby <= c.standby
       else c.online <= c'.online && c'.cutoff == c.cutoff && c'.standby == c.standby
  }

  /** A reconcile, then the environment. */
  ghost predicate Round(spec: Spec, w: World, w': World) {
    exists sort, canSelect, mid :: Permutes(sort) && Reconciles(spec, sort, canSelect, w, mid) && Levels(mid, w')
  }

  /** The int32 sums of the controller are exact. */
  predicate Fits(spec: Spec, n: Counts) {
    spec.cutoff >= 0 && spec.standby >= 0 && 0 <= DesiredOnline(spec, n.online)
    && DesiredOnline(spec, n.online) + spec.cutoff + spec.standby <= MAX_INT32
  }

  function Wish(spec: Spec, n: Counts): int { DesiredOnline(spec, n.online) + spec.cutoff + spec.standby }

  predicate Acts(spec: Spec, w: World) { !Ensured(spec, Seen(w)) }

  /** The workload has as many running pods as its scale says. */
  predicate Level(w: World) { Running(w) == w.scale }

  lemma CarriedCells(c: Cells, f: Cells)
    requires c.Running() && f.Disjoint() && f.All() == c.All()
    ensures Carried(c, f).Running() && Carried(c, f).All() == c.All()
    ensures f.deleted == {} ==> Carried(c, f) == f
    ensures c.online <= f.online ==> Carried(c, f).online == f.online
    ensures f.online <= c.online ==> Carried(c, f).online <= c.online
  {
  }

  /** At rest the environment changes nothing. */
  lemma RestIsStill(w: World, w': World)
    requires Levels(w, w') && Level(w)
    ensures w'.scale == w.scale && Level(w') && Classified(w'.pods) == Classified(w.pods)
  {
    var (c, c') := (Classified(w.pods), Classified(w'.pods));
    assert c.deleted == c'.deleted == {};
    hide Classified, Cells.Running;
    CardSub(c'.online, c.online);
    CardSub(c'.cutoff, c.cutoff);
    CardSub(c'.standby, c.standby);
  }

  lemma LevelsTally(w: World, w': World)
    requires Levels(w, w')
    ensures w'.scale == w.scale && Level(w') && Seen(w').deleted == 0
    ensures var (n, n') := (Seen(w), Seen(w'));
            && (Running(w) >= w.scale ==> n'.online <= n.online && n'.cutoff <= n.cutoff && n'.standby <= n.standby)
            && (Running(w) == w.scale ==> n' == n)
            && (Running(w) < w.scale ==> n' == n.(online := n.online + w.scale - Running(w)))
  {
    hide Classified, Cells.Running;
    NoneDeleted(w);
    NoneDeleted(w');
    var (c, c') := (Classified(w.pods), Classified(w'.pods));
    if Total(c) >= w.scale {
      CardSub(c'.online, c.online);
      CardSub(c'.cutoff, c.cutoff);
      CardSub(c'.standby, c.standby);
    }
  }

  /** What an acting reconcile that can change states does to the numbers. */
  lemma PlanTally(spec: Spec, sort: Sorter, canSelect: bool, w: World, mid: World)
    requires Permutes(sort) && Reconciles(spec, sort, canSelect, w, mid)
    requires Acts(spec, w) && NeedsStateChange(spec, Seen(w)) && Level(w)
    requires spec.cutoff >= 0 && spec.standby >= 0 && DesiredOnline(spec, Seen(w).online) >= 0
    ensures Running(mid) == Running(w)
    ensures var (n, d) := (Seen(w), Target(spec, Seen(w)));
            && (Running(w) <= d.online + d.cutoff + d.standby ==> Seen(mid) == Waterfall(d, Running(w)))
            && (n.online <= d.online && Running(w) >= d.online + d.cutoff + d.standby ==> Seen(mid).online == d.online)
            && (n.online >= d.online ==> Seen(mid).online <= n.online)
  {
    hide Picks, Planned, Permutes, Relabelled, Carried, Classified, Waterfall, Cells.Running, Cells.Disjoint, Cells.All;
    var (c, d) := (Classified(w.pods), Target(spec, Seen(w)));
    var f :| Planned(sort, d, c, f) && mid.pods == Relabelled(w.pods, c, f);
    PlanIsWaterfall(sort, d, c, f);
    RelabelledIsCarried(w.pods, c, f);
    CarriedCells(c, f);
    TotalIsAll(c);
    TotalIsAll(Carried(c, f));
    WaterfallFacts(d, Total(c));
    PlanDiscipline(sort, d, c, f);
    if Seen(w).online >= d.online {
      CardSub(Carried(c, f).online, c.online);
    }
  }

  /** What one acting round does to the numbers. */
  lemma RoundTally(spec: Spec, w: World, w': World)
    requires Round(spec, w, w') && Acts(spec, w) && Fits(spec, Seen(w))
    ensures w'.scale == Wish(spec, Seen(w)) && Level(w') && Seen(w').deleted == 0
    ensures var (n, n', d, wish) := (Seen(w), Seen(w'), Target(spec, Seen(w)), Wish(spec, Seen(w)));
            && (!NeedsStateChange(spec, n) ==> n' == Counts(wish, 0, 0, 0))
            && (NeedsStateChange(spec, n) && Level(w) && Running(w) <= wish ==>
                  var f := Waterfall(d, Running(w));
                  n' == Counts(f.online + wish - Running(w), f.cutoff, f.standby, 0))
            && (NeedsStateChange(spec, n) && Level(w) && Running(w) >= wish ==> n'.online <= Max(n.online, d.online))
            && (NeedsStateChange(spec, n) && !Level(w) && Running(w) < wish ==>
                  n' == n.(online := n.online + wish - Running(w)))
            && (NeedsStateChange(spec, n) && !Level(w) && Running(w) >= wish ==>
                  n'.online <= n.online && n'.cutoff <= n.cutoff && n'.standby <= n.standby)
  {
    hide Planned, Permutes, Relabelled, Classified, Waterfall, Levels;
    var sort, canSelect, mid :| Permutes(sort) && Reconciles(spec, sort, canSelect, w, mid) && Levels(mid, w');
    assert mid.scale == Wish(spec, Seen(w));
    LevelsTally(mid, w');
    if NeedsStateChange(spec, Seen(w)) && Level(w) {
      PlanTally(spec, sort, canSelect, w, mid);
      WaterfallFacts(Target(spec, Seen(w)), Running(w));
    }
  }

  lemma WaterfallFacts(d: Desired, n: nat)
    requires d.online >= 0 && d.cutoff >= 0 && d.standby >= 0
    ensures var f := Waterfall(d, n);
            && (n <= d.online + d.cutoff + d.standby ==> f.deleted == 0)
            && (n >= d.online + d.cutoff + d.standby ==>
                  f.online == d.online && f.cutoff == d.cutoff && f.standby == d.standby)
            && f.online <= d.online
            && f.online + f.cutoff + f.standby + f.deleted == n
  {
  }

  // ----- Direction Both: convergence

  /** The profile holds and the workload is at rest: nothing is left to do. */
  predicate Settled(spec: Spec, w: World) {
    !Acts(spec, w) && Level(w)
  }

  predicate Converges(spec: Spec) {
    spec.direction == Both && spec.online >= 0 && spec.cutoff >= 0 && spec.standby >= 0
    && spec.online + spec.cutoff + spec.standby <= MAX_INT32
  }

  /** A run alternates reconciles and the environment. */
  ghost predicate Run(spec: Spec, ws: seq<World>) {
    forall i :: 0 <= i < |ws| - 1 ==> Round(spec, ws[i], ws[i + 1])
  }

  /** A round without an action only lets the environment reach the scale. */
  lemma IdleRound(spec: Spec, w: World, w': World)
    requires Round(spec, w, w') && !Acts(spec, w)
    ensures w'.scale == w.scale && Level(w')
    ensures Level(w) ==> Classified(w'.pods) == Classified(w.pods) && Seen(w') == Seen(w)
    ensures Running(w) < w.scale ==> Seen(w') == Seen(w).(online := Seen(w).online + w.scale - Running(w))
    ensures Running(w) >= w.scale ==> Seen(w').online <= Seen(w).online
  {
    hide Planned, Permutes, Relabelled, Classified, Waterfall, Levels, Level;
    var sort, canSelect, mid :| Permutes(sort) && Reconciles(spec, sort, canSelect, w, mid) && Levels(mid, w');
    LevelsTally(mid, w');
    if Level(w) {
      RestIsStill(mid, w');
    }
  }

  /** From a workload at rest with the right scale, one round suffices. */
  lemma LastRound(spec: Spec, w: World, w': World)
    requires Round(spec, w, w') && Converges(spec) && Level(w) && w.scale == Wish(spec, Seen(w))
    ensures Settled(spec, w') && w'.scale == w.scale
  {
    hide Round, Classified;
    if Acts(spec, w) {
      RoundTally(spec, w, w');
    } else {
      IdleRound(spec, w, w');
    }
  }

  lemma SettledStays(spec: Spec, w: World, w': World)
    requires Round(spec, w, w') && Settled(spec, w)
    ensures Settled(spec, w') && w'.scale == w.scale
    ensures Classified(w'.pods) == Classified(w.pods) && Seen(w') == Seen(w)
  {
    hide Round, Classified;
    IdleRound(spec, w, w');
  }

  lemma {:induction false} SettledForever(spec: Spec, ws: seq<World>, i: nat, j: nat)
    requires Run(spec, ws) && i <= j < |ws| && Settled(spec, ws[i])
    ensures Settled(spec, ws[j]) && ws[j].scale == ws[i].scale
    ensures Classified(ws[j].pods) == Classified(ws[i].pods) && Seen(ws[j]) == Seen(ws[i])
    decreases j - i
  {
    hide Round, Settled;
    if i < j {
      SettledStays(spec, ws[i], ws[i + 1]);
      SettledForever(spec, ws, i + 1, j);
    }
  }

  /** An acting round leaves the workload at rest at the wished scale. */
  lemma AlignedAfterActing(spec: Spec, w: World, w': World)
    requires Round(spec, w, w') && Converges(spec) && Acts(spec, w)
    ensures Level(w') && w'.scale == spec.online + spec.cutoff + spec.standby
  {
    hide Round, Classified;
    RoundTally(spec, w, w');
  }

  /** Whatever the start, from the third round on the profile holds, the workload
      has exactly the desired number of pods, and nothing changes any more. */
  lemma ConvergesInThreeRounds(spec: Spec, ws: seq<World>, k: nat)
    requires Run(spec, ws) && Converges(spec) && 3 <= k < |ws|
    ensures Settled(spec, ws[k]) && ws[k].scale == spec.online + spec.cutoff + spec.standby
    ensures Seen(ws[k]) == Counts(spec.online, spec.cutoff, spec.standby, 0)
  {
    hide Round, Classified;
    assert Round(spec, ws[0], ws[1]) && Round(spec, ws[1], ws[2]) && Round(spec, ws[2], ws[3]);
    if Acts(spec, ws[0]) {
      AlignedAfterActing(spec, ws[0], ws[1]);
      LastRound(spec, ws[1], ws[2]);
      SettledForever(spec, ws, 2, k);
    } else {
      IdleRound(spec, ws[0], ws[1]);
      if Acts(spec, ws[1]) {
        AlignedAfterActing(spec, ws[1], ws[2]);
        LastRound(spec, ws[2], ws[3]);
        SettledForever(spec, ws, 3, k);
      } else {
        SettledForever(spec, ws, 1, k);
      }
    }
    NoneDeleted(ws[k]);
  }

  lemma NoneDeleted(w: World)
    ensures Seen(w).deleted == 0
  {
  }

  /** At most two reconciles of a run act. */
  lemma AtMostTwoActions(spec: Spec, ws: seq<World>, i: nat, j: nat, k: nat)
    requires Run(spec, ws) && Converges(spec) && i < j < k < |ws|
    requires Acts(spec, ws[i]) && Acts(spec, ws[j])
    ensures !Acts(spec, ws[k])
  {
    hide Round, Classified;
    AlignedAfterActing(spec, ws[i], ws[i + 1]);
    assert Round(spec, ws[i + 1], ws[i + 2]);
    LastRound(spec, ws[i + 1], ws[i + 2]);
    SettledForever(spec, ws, i + 2, k);
  }
}
