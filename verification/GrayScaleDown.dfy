/** A gray scale-down carried out by the ReplicaProfile controller: the two state
    machines together. */
module GrayScaleDown {
  import opened Common
  import opened Planner
  import opened PlannerTheorems
  import opened Pods
  import RP = ReplicaProfile
  import Convergence
  import G = Gray
  import GrayRun

  /** The pods in the gray state. */
  function GrayPods(c: Cells, state: PodState): set<Name> { if state == Cutoff then c.cutoff else c.standby }

  /** g of n pods in the gray state, the others online. */
  function Split(n: int, g: int, state: PodState): Counts {
    if state == Cutoff then Counts(n - g, g, 0, 0) else Counts(n - g, 0, g, 0)
  }

  /** The profile that the IHPA controller writes for the data. */
  function Profile(data: G.ReplicaData): RP.Spec { RP.Spec(data.online, data.cutoff, data.standby, RP.Both) }

  function DesiredSplit(n: int, g: int, state: PodState): Desired {
    var k := Split(n, g, state);
    Desired(k.online, k.cutoff, k.standby)
  }

  /** One gray step of the plan: exactly the additional pods move from Online to
      the gray state, and no pod is deleted. */
  lemma StagePlan(sort: Sorter, c: Cells, f: Cells, state: PodState, n: int, g: int, g': int)
    requires Permutes(sort) && c.Running() && (state == Cutoff || state == Standby)
    requires Sizes(c) == Split(n, g, state) && 0 <= g <= g' <= n
    requires Planned(sort, DesiredSplit(n, g', state), c, f)
    ensures f.deleted == {} && Sizes(f) == Split(n, g', state)
    ensures f.online <= c.online && GrayPods(c, state) <= GrayPods(f, state)
    ensures GrayPods(f, state) - GrayPods(c, state) == c.online - f.online
    ensures |GrayPods(f, state) - GrayPods(c, state)| == g' - g
  {
    hide Planned, Permutes;
    PlanIsWaterfall(sort, DesiredSplit(n, g', state), c, f);
    PlanDiscipline(sort, DesiredSplit(n, g', state), c, f);
    assert Sizes(f) == Split(n, g', state);
    StageCells(c, f, state);
  }

  lemma StageCells(c: Cells, f: Cells, state: PodState)
    requires c.Running() && f.Disjoint() && f.All() == c.All() && f.online <= c.online && f.deleted == {}
    requires if state == Cutoff then |c.standby| == |f.standby| == 0 else |c.cutoff| == |f.cutoff| == 0
    ensures GrayPods(c, state) <= GrayPods(f, state)
    ensures GrayPods(f, state) - GrayPods(c, state) == c.online - f.online
    ensures |GrayPods(f, state) - GrayPods(c, state)| == |c.online| - |f.online|
  {
    if state == Cutoff {
      assert c.standby == f.standby == {};
      assert f.cutoff - c.cutoff == c.online - f.online;
    } else {
      assert c.cutoff == f.cutoff == {};
      assert f.standby - c.standby == c.online - f.online;
    }
    CardSub(f.online, c.online);
  }

  /** The last step: the online pods stay, and exactly the gray pods are to be deleted. */
  lemma FinalPlan(sort: Sorter, c: Cells, f: Cells, state: PodState, n: int, g: int)
    requires Permutes(sort) && c.Running() && (state == Cutoff || state == Standby)
    requires Sizes(c) == Split(n, g, state) && 0 <= g <= n
    requires Planned(sort, Desired(n - g, 0, 0), c, f)
    ensures f == Cells(c.online, {}, {}, GrayPods(c, state))
  {
    hide Planned, Permutes, Cells.Running, Cells.Disjoint, Cells.All;
    PlanIsWaterfall(sort, Desired(n - g, 0, 0), c, f);
    PlanDiscipline(sort, Desired(n - g, 0, 0), c, f);
    FinalCells(c, f, state);
  }

  lemma FinalCells(c: Cells, f: Cells, state: PodState)
    requires c.Running() && f.Disjoint() && f.All() == c.All()
    requires |f.cutoff| == |f.standby| == 0 && f.online <= c.online && c.online <= f.online
    requires if state == Cutoff then |c.standby| == 0 else |c.cutoff| == 0
    ensures f == Cells(c.online, {}, {}, GrayPods(c, state))
  {
    assert f.cutoff == f.standby == {};
    if state == Cutoff {
      assert c.standby == {};
    } else {
      assert c.cutoff == {};
    }
  }

  function Sorted(n: int, g: int, state: PodState): RP.Spec {
    var k := Split(n, g, state);
    RP.Spec(k.online, k.cutoff, k.standby, RP.Both)
  }

  /** n pods run and are wanted, g of them in the gray state. */
  ghost predicate Holds(w: RP.World, state: PodState, n: int, g: int) {
    (state == Cutoff || state == Standby) && 0 <= g <= n <= Convergence.MAX_INT32
    && w.scale == n && Convergence.Level(w) && RP.Seen(w) == Split(n, g, state)
  }

  /** What a gray step asks of the controller: to act, with all n pods in the scale. */
  lemma StageMeaning(w: RP.World, state: PodState, n: int, g: int, g': int)
    requires Holds(w, state, n, g) && g < g' <= n
    ensures var (spec, seen) := (Sorted(n, g', state), RP.Seen(w));
            && !RP.Ensured(spec, seen) && RP.NeedsStateChange(spec, seen) && RP.Running(w) == w.scale
            && RP.DesiredTotal(spec, seen) == n && RP.Target(spec, seen) == DesiredSplit(n, g', state)
  {
    GrayRun.WrapSmall(n);
    GrayRun.WrapSmall(n - g');
    hide Wrap32, Classified, RP.Running;
  }

  lemma StageReconcile(sort: Sorter, canSelect: bool, w: RP.World, mid: RP.World, state: PodState,
                       n: int, g: int, g': int)
    requires Permutes(sort) && Holds(w, state, n, g) && g < g' <= n
    requires RP.Reconciles(Sorted(n, g', state), sort, canSelect, w, mid)
    ensures Holds(mid, state, n, g') && Classified(mid.pods).All() == Classified(w.pods).All()
    ensures var (before, after) := (GrayPods(Classified(w.pods), state), GrayPods(Classified(mid.pods), state));
            before <= after && |after - before| == g' - g
  {
    hide Planned, Permutes, Classified, RP.Relabelled, GrayPods, RP.Carried, Waterfall;
    hide Cells.All, Cells.Disjoint, Cells.Running;
    hide Wrap32, RP.DesiredTotal, RP.OnlineEnsured, Convergence.Level;
    StageMeaning(w, state, n, g, g');
    var (c, d) := (Classified(w.pods), DesiredSplit(n, g', state));
    var f :| Planned(sort, d, c, f) && mid.pods == RP.Relabelled(w.pods, c, f);
    StagePlan(sort, c, f, state, n, g, g');
    PlanIsWaterfall(sort, d, c, f);
    RP.RelabelledIsCarried(w.pods, c, f);
    Convergence.CarriedCells(c, f);
    AllRun(mid, state, n, g');
  }

  lemma AllRun(w: RP.World, state: PodState, n: int, g: int)
    requires RP.Seen(w) == Split(n, g, state) && w.scale == n
    ensures Convergence.Level(w)
  {
    hide Classified;
  }

  /** One gray step with its round: no pod is lost, the scale stays, and exactly
      the additional pods go gray. */
  lemma StageRound(w: RP.World, w': RP.World, state: PodState, n: int, g: int, g': int)
    requires Holds(w, state, n, g) && g <= g' <= n
    requires Convergence.Round(Sorted(n, g', state), w, w')
    ensures Holds(w', state, n, g') && Classified(w'.pods).All() == Classified(w.pods).All()
    ensures var (before, after) := (GrayPods(Classified(w.pods), state), GrayPods(Classified(w'.pods), state));
            before <= after && |after - before| == g' - g
  {
    hide Permutes, Classified, GrayPods, Convergence.Levels;
    var spec := Sorted(n, g', state);
    var sort, canSelect, mid :| Permutes(sort) && RP.Reconciles(spec, sort, canSelect, w, mid)
                             && Convergence.Levels(mid, w');
    if g < g' {
      hide RP.Reconciles;
      StageReconcile(sort, canSelect, w, mid, state, n, g, g');
    } else {
      assert RP.Ensured(spec, RP.Seen(w));
    }
    Convergence.RestIsStill(mid, w');
  }

  /** The rounds after the first find nothing to do. */
  lemma {:induction false} StageRounds(run: seq<RP.World>, state: PodState, n: int, g: int, g': int, k: nat)
    requires Convergence.Run(Sorted(n, g', state), run) && 1 <= k < |run|
    requires Holds(run[0], state, n, g) && g <= g' <= n
    ensures Holds(run[k], state, n, g') && Classified(run[k].pods).All() == Classified(run[0].pods).All()
    ensures var (before, after) := (GrayPods(Classified(run[0].pods), state), GrayPods(Classified(run[k].pods), state));
            before <= after && |after - before| == g' - g
    decreases k
  {
    hide Convergence.Round, Holds, Classified, GrayPods, Sorted, Cells.All;
    if k == 1 {
      StageRound(run[0], run[1], state, n, g, g');
    } else {
      StageRounds(run, state, n, g, g', k - 1);
      HoldsIsBounded(run[k - 1], state, n, g');
      StageRound(run[k - 1], run[k], state, n, g', g');
      var (a, b) := (GrayPods(Classified(run[k - 1].pods), state), GrayPods(Classified(run[k].pods), state));
      assert b == a + (b - a) == a;
    }
  }

  lemma HoldsIsBounded(w: RP.World, state: PodState, n: int, g: int)
    requires Holds(w, state, n, g)
    ensures g <= n
  {
  }

  /** The last reconcile hands exactly the gray pods to the workload for deletion,
      relabels nothing, and lowers the scale to the online pods. */
  lemma FinalReconcile(sort: Sorter, canSelect: bool, w: RP.World, mid: RP.World, state: PodState, n: int, g: int)
    requires Permutes(sort) && Holds(w, state, n, g) && 0 < g
    requires RP.Reconciles(RP.Spec(n - g, 0, 0, RP.Both), sort, canSelect, w, mid)
    ensures mid.scale == n - g && Classified(mid.pods) == Classified(w.pods)
    ensures canSelect ==> mid.victims == GrayPods(Classified(w.pods), state)
  {
    hide Planned, Permutes, Classified, RP.Relabelled, GrayPods, RP.Carried, Waterfall;
    hide Cells.All, Cells.Disjoint, Cells.Running;
    var (c, d) := (Classified(w.pods), Desired(n - g, 0, 0));
    var f :| && Planned(sort, d, c, f) && mid.pods == RP.Relabelled(w.pods, c, f)
             && mid.victims == RP.VictimsAfter(canSelect, f.deleted, w.victims);
    FinalPlan(sort, c, f, state, n, g);
    PlanIsWaterfall(sort, d, c, f);
    RP.RelabelledIsCarried(w.pods, c, f);
    GrayKeepsLabels(c, state, n, g);
  }

  lemma GrayKeepsLabels(c: Cells, state: PodState, n: int, g: int)
    requires c.Running() && (state == Cutoff || state == Standby) && Sizes(c) == Split(n, g, state)
    ensures RP.Carried(c, Cells(c.online, {}, {}, GrayPods(c, state))) == c
    ensures |GrayPods(c, state)| == g
  {
    if state == Cutoff {
      assert c.standby == {};
    } else {
      assert c.cutoff == {};
    }
  }

  // ----- The whole rollout

  /** The number of gray pods after the first i reconciles of the IHPA controller. */
  function GrayAfter(s: G.GrayStrategy, n: int, current: int, g0: G.GrayStatus, ts: seq<int>, i: nat): int
    requires i <= |ts|
  {
    if i == 0 then 0 else G.GrayCount(n - current, GrayRun.Ticks(s, g0, ts[..i]).percent)
  }

  /** One round or more with the same profile. */
  ghost predicate Rounds(spec: RP.Spec, w: RP.World, w': RP.World) {
    exists run :: Convergence.Run(spec, run) && |run| >= 2 && run[0] == w && run[|run| - 1] == w'
  }

  /** The IHPA reconcile at ts[i] and the rounds that carry out its data. */
  ghost predicate StepTaken(s: G.GrayStrategy, n: int, current: int, g0: G.GrayStatus,
                            ts: seq<int>, ws: seq<RP.World>, i: nat)
    requires i < |ts| && |ws| == |ts| + 1
  {
    var g := GrayRun.Ticks(s, g0, ts[..i]);
    && !GrayRun.Over(s, g, ts[i])
    && Rounds(Profile(GrayRun.DataAt(s, n, current, g, ts[i])), ws[i], ws[i + 1])
  }

  /** A scale-down from n to current in progress, not yet over at any time in ts;
      between two of its reconciles the ReplicaProfile controller has its rounds. */
  ghost predicate ScalingDown(s: G.GrayStrategy, n: int, current: int, g0: G.GrayStatus,
                              ts: seq<int>, ws: seq<RP.World>)
  {
    && GrayRun.Legal(s) && (s.grayState == Cutoff || s.grayState == Standby)
    && 0 <= current < n <= Convergence.MAX_INT32 && n - current <= GrayRun.MAX_DIFF
    && g0.percent == 0 && |ws| == |ts| + 1 && Holds(ws[0], s.grayState, n, 0)
    && forall i :: 0 <= i < |ts| ==> StepTaken(s, n, current, g0, ts, ws, i)
  }

  lemma ScalingStep(s: G.GrayStrategy, n: int, current: int, g0: G.GrayStatus, ts: seq<int>, i: nat)
    requires GrayRun.Legal(s) && (s.grayState == Cutoff || s.grayState == Standby)
    requires 0 <= current < n <= Convergence.MAX_INT32 && n - current <= GrayRun.MAX_DIFF
    requires g0.percent == 0 && i < |ts| && !GrayRun.Over(s, GrayRun.Ticks(s, g0, ts[..i]), ts[i])
    ensures 0 <= GrayAfter(s, n, current, g0, ts, i) <= GrayAfter(s, n, current, g0, ts, i + 1) <= n - current
    ensures Profile(GrayRun.DataAt(s, n, current, GrayRun.Ticks(s, g0, ts[..i]), ts[i]))
         == Sorted(n, GrayAfter(s, n, current, g0, ts, i + 1), s.grayState)
  {
    hide G.GrayCount, GrayRun.DataAt, GrayRun.Tick, GrayRun.Legal, GrayRun.Over;
    var g := GrayRun.Ticks(s, g0, ts[..i]);
    assert ts[..i + 1][..i] == ts[..i];
    assert GrayRun.Ticks(s, g0, ts[..i + 1]) == GrayRun.Tick(s, g, ts[i]);
    GrayRun.TicksGrow(s, g0, ts, i, i + 1);
    GrayRun.DataMeaning(s, n, current, g, ts[i]);
    GrayRun.CountGrows(n - current, g.percent, GrayRun.Tick(s, g, ts[i]).percent);
    GrayRun.CountIsExact(n - current, g.percent);
  }

  /** Through the whole rollout no pod is lost: online and gray pods add up to the
      previous replicas, all the pods of the start still run, a gray pod stays
      gray, and every step makes exactly the planned number of pods gray. */
  lemma {:induction false} NoPodIsLost(s: G.GrayStrategy, n: int, current: int, g0: G.GrayStatus,
                                       ts: seq<int>, ws: seq<RP.World>, i: nat)
    requires ScalingDown(s, n, current, g0, ts, ws) && i <= |ts|
    ensures Holds(ws[i], s.grayState, n, GrayAfter(s, n, current, g0, ts, i))
    ensures Classified(ws[i].pods).All() == Classified(ws[0].pods).All()
    ensures i > 0 ==>
      var before := GrayPods(Classified(ws[i - 1].pods), s.grayState);
      var after := GrayPods(Classified(ws[i].pods), s.grayState);
      && before <= after
      && |after - before| == GrayAfter(s, n, current, g0, ts, i) - GrayAfter(s, n, current, g0, ts, i - 1)
  {
    hide Holds, Rounds, GrayAfter, GrayRun.DataAt, GrayRun.Over, Classified, GrayPods;
    if i == 0 {
      NoneGrayAtFirst(s, n, current, g0, ts);
    } else {
      NoPodIsLost(s, n, current, g0, ts, ws, i - 1);
      assert StepTaken(s, n, current, g0, ts, ws, i - 1);
      ScalingStep(s, n, current, g0, ts, i - 1);
      hide StepTaken;
      StageIsTaken(ws[i - 1], ws[i], s.grayState, n,
                   GrayAfter(s, n, current, g0, ts, i - 1), GrayAfter(s, n, current, g0, ts, i));
    }
  }

  lemma StageIsTaken(w: RP.World, w': RP.World, state: PodState, n: int, g: int, g': int)
    requires Rounds(Sorted(n, g', state), w, w') && Holds(w, state, n, g) && g <= g' <= n
    ensures Holds(w', state, n, g') && Classified(w'.pods).All() == Classified(w.pods).All()
    ensures var (before, after) := (GrayPods(Classified(w.pods), state), GrayPods(Classified(w'.pods), state));
            before <= after && |after - before| == g' - g
  {
    hide Convergence.Run, Holds, Classified, GrayPods, Cells.All;
    var run :| Convergence.Run(Sorted(n, g', state), run) && |run| >= 2 && run[0] == w && run[|run| - 1] == w';
    StageRounds(run, state, n, g, g', |run| - 1);
  }

  lemma NoneGrayAtFirst(s: G.GrayStrategy, n: int, current: int, g0: G.GrayStatus, ts: seq<int>)
    ensures GrayAfter(s, n, current, g0, ts, 0) == 0
  {
  }

  /** When the rollout is over, the reconcile that follows marks exactly the gray
      pods for deletion and rescales the workload to the current replicas. */
  lemma GrayPodsAreDeleted(s: G.GrayStrategy, n: int, current: int, g0: G.GrayStatus,
                           ts: seq<int>, ws: seq<RP.World>, now: int, sort: Sorter, canSelect: bool, mid: RP.World)
    requires ScalingDown(s, n, current, g0, ts, ws) && Permutes(sort)
    requires GrayRun.Over(s, GrayRun.Ticks(s, g0, ts), now)
    requires RP.Reconciles(Profile(GrayRun.DataAt(s, n, current, GrayRun.Ticks(s, g0, ts), now)), sort, canSelect,
                           ws[|ts|], mid)
    ensures mid.scale == current && Classified(mid.pods) == Classified(ws[|ts|].pods)
    ensures |GrayPods(Classified(mid.pods), s.grayState)| == n - current
    ensures canSelect ==> mid.victims == GrayPods(Classified(mid.pods), s.grayState)
  {
    hide Convergence.Round, Classified, GrayPods, RP.Reconciles, Permutes, Holds, StepTaken, GrayAfter, GrayRun.Over;
    NoPodIsLost(s, n, current, g0, ts, ws, |ts|);
    AllGrayAtLast(s, n, current, g0, ts, now);
    DataAtLast(s, n, current, GrayRun.Ticks(s, g0, ts), now);
    FinalReconcile(sort, canSelect, ws[|ts|], mid, s.grayState, n, n - current);
    GrayIsAll(ws[|ts|], s.grayState, n, n - current);
  }

  lemma DataAtLast(s: G.GrayStrategy, n: int, current: int, g: G.GrayStatus, now: int)
    requires GrayRun.Over(s, g, now)
    ensures GrayRun.DataAt(s, n, current, g, now) == G.ReplicaData(current, 0, 0)
  {
  }

  lemma AllGrayAtLast(s: G.GrayStrategy, n: int, current: int, g0: G.GrayStatus, ts: seq<int>, now: int)
    requires g0.percent == 0 && 1 <= n - current <= GrayRun.MAX_DIFF && GrayRun.Over(s, GrayRun.Ticks(s, g0, ts), now)
    ensures GrayAfter(s, n, current, g0, ts, |ts|) == n - current
  {
    assert ts[..|ts|] == ts && ts != [];
    GrayRun.CountIsExact(n - current, 100);
    hide G.GrayCount;
  }

  lemma GrayIsAll(w: RP.World, state: PodState, n: int, g: int)
    requires Holds(w, state, n, g)
    ensures |GrayPods(Classified(w.pods), state)| == g
  {
    hide Classified;
  }
}
