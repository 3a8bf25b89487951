/** Runs under the directions Up, Neither and Down, where the target depends on the
    number of online pods. The pods that the environment creates for Cutoff or Standby
    come up online and can raise the target again: under Up and Neither without end,
    under Down up to the online replicas of the profile. */
module Runaway {
  import opened Common
  import opened Planner
  import opened PlannerTheorems
  import opened Pods
  import opened ReplicaProfile
  import opened Convergence

  predicate FollowsOnline(spec: Spec) {
    (spec.direction == Up || spec.direction == Neither) && spec.cutoff >= 0 && spec.standby >= 0
  }

  /** Cut-off or standby pods are wanted, and there are too few pods for them. */
  predicate Starved(spec: Spec, w: World) {
    Running(w) < Wish(spec, Seen(w)) && spec.cutoff + spec.standby > 0
  }

  lemma SumOfSeen(w: World)
    ensures var n := Seen(w);
            && n.online >= 0 && n.cutoff >= 0 && n.standby >= 0 && n.deleted == 0
            && Running(w) == n.online + n.cutoff + n.standby
  {
  }

  /** A starved workload is starved again after the round, at a larger scale. */
  lemma StarvedStays(spec: Spec, w: World, w': World)
    requires FollowsOnline(spec) && Round(spec, w, w') && Fits(spec, Seen(w))
    requires Level(w) && Starved(spec, w)
    ensures Acts(spec, w) && Level(w') && Starved(spec, w') && w'.scale > w.scale
  {
    hide Round, Seen, Running;
    SumOfSeen(w);
    SumOfSeen(w');
    RoundTally(spec, w, w');
  }

  /** A workload that is not starved settles, or loses pods and is not starved. */
  lemma FedStays(spec: Spec, w: World, w': World)
    requires FollowsOnline(spec) && Round(spec, w, w') && Fits(spec, Seen(w))
    requires Level(w) && !Starved(spec, w)
    ensures Level(w') && !Starved(spec, w') && Fits(spec, Seen(w'))
    ensures Settled(spec, w') || Running(w') < Running(w)
  {
    hide Round, Seen, Running;
    SumOfSeen(w);
    SumOfSeen(w');
    if Acts(spec, w) {
      RoundTally(spec, w, w');
    } else {
      IdleRound(spec, w, w');
    }
  }

  lemma {:induction false} StarvedForever(spec: Spec, ws: seq<World>, k: nat)
    requires FollowsOnline(spec) && Run(spec, ws) && k < |ws|
    requires forall i :: 0 <= i < |ws| ==> Fits(spec, Seen(ws[i]))
    requires Level(ws[0]) && Starved(spec, ws[0])
    ensures Level(ws[k]) && Starved(spec, ws[k]) && ws[k].scale >= ws[0].scale + k
    ensures k + 1 < |ws| ==> Acts(spec, ws[k])
  {
    hide Round, Starved;
    if k > 0 {
      StarvedForever(spec, ws, k - 1);
      StarvedStays(spec, ws[k - 1], ws[k]);
    }
    if k + 1 < |ws| {
      StarvedStays(spec, ws[k], ws[k + 1]);
    }
  }

  lemma {:induction false} FedSettles(spec: Spec, ws: seq<World>, k: nat)
    requires FollowsOnline(spec) && Run(spec, ws) && k < |ws|
    requires Fits(spec, Seen(ws[0])) && Level(ws[0]) && !Starved(spec, ws[0])
    ensures Level(ws[k]) && !Starved(spec, ws[k]) && Fits(spec, Seen(ws[k]))
    ensures k > 0 ==> Settled(spec, ws[k]) || Running(ws[k]) + k <= Running(ws[0])
  {
    hide Round, Starved, Settled, Fits, Running;
    if k > 0 {
      FedSettles(spec, ws, k - 1);
      FedStays(spec, ws[k - 1], ws[k]);
      if k > 1 && Settled(spec, ws[k - 1]) {
        SettledStays(spec, ws[k - 1], ws[k]);
      }
    }
  }

  /** The numbers of a settled workload: cutoff and standby pods as wanted, the online pods
      on the right side of the profile's number, and as many in all as the scale says. */
  predicate AsWanted(spec: Spec, w: World) {
    var n := Seen(w);
    && n.cutoff == spec.cutoff && n.standby == spec.standby && w.scale == n.online + spec.cutoff + spec.standby
    && (spec.direction == Up ==> n.online >= spec.online)
    && (spec.direction == Down ==> n.online <= spec.online)
    && (spec.direction == Both ==> n.online == spec.online)
  }

  lemma SettledIsAsWanted(spec: Spec, w: World)
    ensures Settled(spec, w) <==> AsWanted(spec, w)
  {
    SumOfSeen(w);
    hide Seen, Running;
  }

  /** From rest: a run of at least one round more than there are pods ends settled
      if and only if the workload was not starved at the start. */
  lemma SettlesFromRest(spec: Spec, ws: seq<World>, k: nat)
    requires FollowsOnline(spec) && Run(spec, ws) && k < |ws|
    requires forall i :: 0 <= i < |ws| ==> Fits(spec, Seen(ws[i]))
    requires Level(ws[0]) && Running(ws[0]) < k
    ensures Settled(spec, ws[k]) <==> !Starved(spec, ws[0])
    ensures Starved(spec, ws[0]) ==> ws[k].scale >= ws[0].scale + k
  {
    hide Round, Running, Seen;
    if Starved(spec, ws[0]) {
      StarvedForever(spec, ws, k);
      StarvedActs(spec, ws[k]);
    } else {
      FedSettles(spec, ws, k);
    }
  }

  lemma RoundsEndAtRest(spec: Spec, w: World, w': World)
    requires Round(spec, w, w')
    ensures Level(w')
  {
  }

  lemma RunFromSecond(spec: Spec, ws: seq<World>)
    requires Run(spec, ws) && |ws| >= 2
    ensures Run(spec, ws[1..]) && Level(ws[1])
  {
    RoundsEndAtRest(spec, ws[0], ws[1]);
    hide Round;
    assert forall i :: 0 <= i < |ws| - 1 ==> Round(spec, ws[i], ws[i + 1]);
  }

  /** When the loop settles, from any start: after the first round has brought the
      workload to rest, a long enough run ends settled if and only if the workload is
      not starved then; and a starved workload is rescaled upwards in every round. */
  lemma SettlesUnlessStarved(spec: Spec, ws: seq<World>, k: nat)
    requires FollowsOnline(spec) && Run(spec, ws) && 1 < k < |ws|
    requires forall i :: 0 <= i < |ws| ==> Fits(spec, Seen(ws[i]))
    requires Running(ws[1]) < k - 1
    ensures Settled(spec, ws[k]) <==> !Starved(spec, ws[1])
    ensures !Starved(spec, ws[1]) ==> AsWanted(spec, ws[k])
    ensures Starved(spec, ws[1]) ==> ws[k].scale >= ws[1].scale + k - 1
  {
    hide Round, Running, Seen, Starved, Settled, Fits;
    RunFromSecond(spec, ws);
    SettlesFromRest(spec, ws[1..], k - 1);
    SettledIsAsWanted(spec, ws[k]);
  }

  lemma StarvedActs(spec: Spec, w: World)
    requires FollowsOnline(spec) && Starved(spec, w)
    ensures Acts(spec, w)
  {
    SumOfSeen(w);
  }

  // ----- A run that never ends

  const UP_ONE_CUTOFF := Spec(1, 1, 0, Up)

  function PodNumber(i: nat): Name { seq(i, _ => 'p') }

  /** k pods, all of them online and running, and as many wanted. */
  function AllOnline(k: nat): World {
    World(map name | name in PodNumbers(k) :: PodRecord(map[], true), k, {})
  }

  function PodNumbers(k: nat): set<Name> {
    if k == 0 then {} else PodNumbers(k - 1) + {PodNumber(k - 1)}
  }

  lemma {:induction false} CardPodNumbers(k: nat)
    ensures |PodNumbers(k)| == k && forall name :: name in PodNumbers(k) ==> |name| < k
  {
    if k > 0 {
      CardPodNumbers(k - 1);
      assert |PodNumber(k - 1)| == k - 1;
    }
  }

  lemma OnlineIsClassified(k: nat)
    ensures Classified(AllOnline(k).pods) == Cells(PodNumbers(k), {}, {}, {})
    ensures Seen(AllOnline(k)) == Counts(k, 0, 0, 0) && Running(AllOnline(k)) == k
  {
    CardPodNumbers(k);
    assert forall name :: name in PodNumbers(k) ==> StateOf(AllOnline(k).pods[name].labels) == Online;
    assert InState(AllOnline(k).pods, Online) == PodNumbers(k);
    assert InState(AllOnline(k).pods, Cutoff) == {} && InState(AllOnline(k).pods, Standby) == {};
  }

  function Unsorted(l: seq<Name>): Result<seq<Name>> { Ok(l) }

  lemma UnsortedPermutes()
    ensures Permutes(Unsorted)
  {
  }

  lemma OneMoreLevels(k: nat)
    ensures Levels(AllOnline(k).(scale := k + 1), AllOnline(k + 1))
  {
    OnlineIsClassified(k);
    OnlineIsClassified(k + 1);
    hide Classified;
    assert PodNumbers(k) <= PodNumbers(k + 1);
  }

  /** With all pods online and one wanted cut off, no pod is moved and one is added. */
  lemma OneMoreOnline(k: nat)
    requires 1 <= k < MAX_INT32
    ensures Round(UP_ONE_CUTOFF, AllOnline(k), AllOnline(k + 1))
  {
    hide Levels, Permutes, Reconciles, AllOnline;
    UnsortedPermutes();
    OneMoreLevels(k);
    RescaledByOne(k);
  }

  lemma RescaledByOne(k: nat)
    requires 1 <= k < MAX_INT32
    ensures Reconciles(UP_ONE_CUTOFF, Unsorted, false, AllOnline(k), AllOnline(k).(scale := k + 1))
  {
    var (w, c) := (AllOnline(k), Cells(PodNumbers(k), {}, {}, {}));
    hide Classified, Planned, Relabelled, Wrap32, Total;
    OnlineIsClassified(k);
    NothingToMove(c, k);
    NothingToLabel(w.pods, c);
    WrapSum(k);
  }

  lemma NothingToLabel(pods: map<Name, PodRecord>, c: Cells)
    ensures Relabelled(pods, c, c) == pods
  {
  }

  lemma WrapSum(k: nat)
    requires k < MAX_INT32
    ensures Wrap32(Wrap32(k + 1) + 0) == k + 1
  {
  }

  lemma NothingToMove(c: Cells, k: nat)
    requires c.cutoff == c.standby == c.deleted == {} && |c.online| == k
    ensures Planned(Unsorted, Desired(k, 1, 0), c, c)
  {
    var (d, m) := (Desired(k, 1, 0), NO_MOVES);
    assert Step0(Unsorted, d, c, m) && Step1(Unsorted, d, c, m) && Step2(Unsorted, d, c, m);
    assert Final(c, m) == c;
  }

  lemma OnlineActs(k: nat)
    requires k >= 1
    ensures AllOnline(k).scale == k && Seen(AllOnline(k)) == Counts(k, 0, 0, 0) && Acts(UP_ONE_CUTOFF, AllOnline(k))
  {
    OnlineIsClassified(k);
    hide Seen;
  }

  /** From a single online pod, direction Up and one pod to be cut off, there are runs
      of any length in which every reconcile acts and the scale grows in every round. */
  lemma OnePodRunsAway(n: nat) returns (ws: seq<World>)
    requires n <= MAX_INT32
    ensures |ws| == n && Run(UP_ONE_CUTOFF, ws)
    ensures forall i :: 0 <= i < n ==> ws[i].scale == i + 1 && Seen(ws[i]) == Counts(i + 1, 0, 0, 0)
    ensures forall i :: 0 <= i < n ==> Acts(UP_ONE_CUTOFF, ws[i])
  {
    hide Seen, Round, Acts, AllOnline;
    ws := seq(n, i requires 0 <= i < n => AllOnline(i + 1));
    forall i | 0 <= i < n
      ensures ws[i].scale == i + 1 && Seen(ws[i]) == Counts(i + 1, 0, 0, 0) && Acts(UP_ONE_CUTOFF, ws[i])
    {
      OnlineActs(i + 1);
    }
    forall i | 0 <= i < n - 1 ensures Round(UP_ONE_CUTOFF, ws[i], ws[i + 1]) {
      OneMoreOnline(i + 1);
    }
  }

  // ----- Direction Down

  predicate OnlyDown(spec: Spec) {
    spec.direction == Down && spec.online >= 0 && spec.cutoff >= 0 && spec.standby >= 0
    && spec.online + spec.cutoff + spec.standby <= MAX_INT32
  }

  /** Bounds the rounds to come: a starved workload climbs to the profile's online
      replicas first, any other only loses pods. */
  function Height(spec: Spec, w: World): int {
    if Running(w) >= Wish(spec, Seen(w)) then Running(w)
    else spec.online + spec.cutoff + spec.standby + 1 + Max(0, spec.online + 1 - Seen(w).online)
  }

  lemma DownStep(spec: Spec, w: World, w': World)
    requires OnlyDown(spec) && Round(spec, w, w') && Level(w)
    ensures Level(w') && (Settled(spec, w') || Height(spec, w') < Height(spec, w))
  {
    hide Round, Seen, Running;
    SumOfSeen(w);
    SumOfSeen(w');
    if Acts(spec, w) {
      RoundTally(spec, w, w');
    } else {
      IdleRound(spec, w, w');
    }
  }

  lemma {:induction false} DownDescends(spec: Spec, ws: seq<World>, k: nat)
    requires 0 < k < |ws| && OnlyDown(spec) && Run(spec, ws) && Level(ws[0])
    ensures Level(ws[k]) && (Settled(spec, ws[k]) || Height(spec, ws[k]) + k <= Height(spec, ws[0]))
    decreases k
  {
    hide Round, Height, Settled;
    if k > 1 {
      DownDescends(spec, ws, k - 1);
      if Settled(spec, ws[k - 1]) {
        SettledStays(spec, ws[k - 1], ws[k]);
      }
    }
    DownStep(spec, ws[k - 1], ws[k]);
    LevelIfSettled(spec, ws[k]);
  }

  lemma LevelIfSettled(spec: Spec, w: World)
    ensures Settled(spec, w) ==> Level(w)
  {
  }

  lemma DownSettlesFromRest(spec: Spec, ws: seq<World>, k: nat)
    requires k < |ws| && OnlyDown(spec) && Run(spec, ws) && Level(ws[0]) && Height(spec, ws[0]) < k
    ensures Settled(spec, ws[k])
  {
    hide Round, Settled;
    SumOfSeen(ws[0]);
    SumOfSeen(ws[k]);
    DownDescends(spec, ws, k);
  }

  /** Under Down every run settles, whatever the start, with at most the wanted number of
      online pods, and exactly the wanted numbers of cutoff and standby pods. */
  lemma DownSettles(spec: Spec, ws: seq<World>, k: nat)
    requires OnlyDown(spec) && Run(spec, ws) && 1 < k < |ws| && Height(spec, ws[1]) < k - 1
    ensures Settled(spec, ws[k]) && AsWanted(spec, ws[k]) && Seen(ws[k]).online <= spec.online
  {
    hide Round, Settled, Height, Seen, Running;
    RunFromSecond(spec, ws);
    DownSettlesFromRest(spec, ws[1..], k - 1);
    SettledIsAsWanted(spec, ws[k]);
  }

  /** What makes a round end with more online pods: an idle or skipped one if pods are
      created, any other if more pods are created than leave Online. */
  predicate Grows(spec: Spec, w: World) {
    var n := Seen(w);
    if !Acts(spec, w) then Running(w) < w.scale
    else if NeedsStateChange(spec, n) && !Level(w) then Running(w) < Wish(spec, n)
    else Wish(spec, n) - Running(w) > n.online - DesiredOnline(spec, n.online)
  }

  /** But there can be more online pods after a round, although only scaling down is
      allowed; exactly when, for every start. */
  lemma OnlineGrowsIff(spec: Spec, w: World, w': World)
    requires OnlyDown(spec) && Round(spec, w, w')
    ensures Seen(w').online > Seen(w).online <==> Grows(spec, w)
  {
    hide Round, Seen, Running;
    SumOfSeen(w);
    SumOfSeen(w');
    if Acts(spec, w) {
      RoundTally(spec, w, w');
    } else {
      IdleRound(spec, w, w');
    }
  }

  /** From rest and up to the profile's number of online pods this is to be starved. */
  lemma OnlineGrowsIffStarved(spec: Spec, w: World, w': World)
    requires OnlyDown(spec) && Round(spec, w, w') && Level(w) && Seen(w).online <= spec.online
    ensures Seen(w').online > Seen(w).online <==> Starved(spec, w)
  {
    hide Round, Seen, Running;
    SumOfSeen(w);
    OnlineGrowsIff(spec, w, w');
  }

  lemma StarvedGainsWaterfall()
    ensures Waterfall(Desired(2, 10, 0), 3) == Counts(2, 1, 0, 0)
  {
  }

  /** Above that number a starved workload can gain online pods, */
  lemma StarvedGains(w: World, w': World)
    requires Level(w) && Seen(w) == Counts(3, 0, 0, 0) && Round(Spec(2, 10, 0, Down), w, w')
    ensures Starved(Spec(2, 10, 0, Down), w) && Seen(w').online == 11
  {
    hide Round, Seen, Running, Level, Waterfall;
    var spec := Spec(2, 10, 0, Down);
    SumOfSeen(w);
    assert Running(w) == 3 && Target(spec, Seen(w)) == Desired(2, spec.cutoff, 0) && Fits(spec, Seen(w));
    assert Wish(spec, Seen(w)) == 2 + spec.cutoff && Acts(spec, w) && NeedsStateChange(spec, Seen(w));
    StarvedGainsWaterfall();
    RoundTally(spec, w, w');
  }

  lemma StarvedLosesWaterfall()
    ensures Waterfall(Desired(2, 4, 0), 5) == Counts(2, 3, 0, 0)
  {
  }

  /** and it can lose them. */
  lemma StarvedLoses(w: World, w': World)
    requires Level(w) && Seen(w) == Counts(5, 0, 0, 0) && Round(Spec(2, 4, 0, Down), w, w')
    ensures Starved(Spec(2, 4, 0, Down), w) && Seen(w').online == 3
  {
    hide Round, Seen, Running, Level, Waterfall;
    var spec := Spec(2, 4, 0, Down);
    SumOfSeen(w);
    assert Running(w) == 5 && Target(spec, Seen(w)) == Desired(2, spec.cutoff, 0) && Fits(spec, Seen(w));
    assert Wish(spec, Seen(w)) == 2 + spec.cutoff && Acts(spec, w) && NeedsStateChange(spec, Seen(w));
    StarvedLosesWaterfall();
    RoundTally(spec, w, w');
  }
}
