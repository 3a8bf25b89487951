# Kapacity, modelled and proved in Dafny

Kapacity scales Kubernetes workloads. An autoscaler (IHPA) asks portrait providers
how many replicas a workload should have, walks there in gray steps, and writes a
replica profile; a second controller carries the profile out by moving pods between
the states Online, Cutoff, Standby and Deleted and by rescaling the workload. Around
them, a metric provider queries Prometheus, and an external algorithm predicts
replicas. This project models the logic of these parts and proves what they promise.

`dafny verify dfyconfig.toml` checks the whole project.

## Modules

| file | what it models |
|---|---|
| `Common` | options and results, int32 wrapping, finite sets |
| `Planner`, `PlannerTheorems`, `PlannerOrder`, `StatefulSet` | the pod state planner as a class with its in-place bookkeeping; what every plan is; what it is when pods are ordered by a key; the StatefulSet's sorter |
| `Pods`, `ReplicaProfile`, `Convergence`, `Runaway` | pod labels and classification; one reconcile of the replica profile; runs of reconciles against an environment, for all four scaling directions |
| `Gray`, `GrayRun`, `GrayScaleDown` | the gray step of the IHPA controller in int32; whole rollouts; a scale-down through both controllers |
| `Cron`, `Portrait`, `Wakeups` | cron rules, the evaluation of a portrait, timers and cron tasks, the choice among providers, and that no wake-up is missed |
| `Tracking` | which portraits exist and which are remembered |
| `RangeQuery`, `RangeMerge`, `Lister` | sharded range queries, their parallel fetch and merge, and the parallel listing as a state machine |
| `Predictive` | from a prediction through the ConfigMap to the looked-up replicas |

The methods follow the source's loops and updates; each is proved against functions or
relations on values (`Planned`, `Reconciles`, `Reconciled`, `Evaluate`, `Select`, `ShardAt`,
`Answers`, ...), and the theorems are about these. Whatever the source leaves open is
universally quantified: the order in which a set or a map is walked, the order in which
goroutines run, what a sorter prefers, which pods a workload deletes, when time passes,
and which requests fail.

## What the proofs brought to light

Where a promise does not hold, the exact condition under which it does is proved.

- With direction Both the replica loop always settles, after at most two actions. With Up
  and Neither it settles if and only if there are enough pods for the wanted cutoff and
  standby replicas; otherwise the workload is rescaled upwards in every round. With Down it
  always settles, but a round can end with more online pods than before: exactly if more
  pods are created, and these come up online, than the reconcile takes out of Online.
- A portrait value out of [min, max] is stored clamped, so the next reconcile takes it for
  a new value and jumps to the target without any gray step.
- The controller can read a gray status that was never stored: after a gray strategy is
  added late, or when clamping turns a value that makes no gray change into one that does,
  for instance after the maximum is lowered.
- At 100 percent the whole difference is gray if and only if it is at most 21474836.
- A gray step that fires asks for no later call; the rollout keeps itself going by changing
  the profile if and only if every step is worth at least one pod.
- A new portrait value in the middle of a rollout starts from the old target, not from where
  the rollout has come: the online pods jump by what the rollout had left to do and the first
  step of the new rollout, or all the way to the new value, even if only its expiry is new.
  They stay where they are exactly if the two happen to cancel.
- A portrait value is right until it expires if and only if no two cron rules overlap.
- An evaluation that fails, for instance because cron rules overlap, sets no timer for the
  expiry of its data; this is the only way in which a change of the value, or of the whole
  selection, comes without a trigger that announces it. The error is returned to the work
  queue, which tries again on its own. An empty series, an out-of-range access in the code,
  is refused by the API (apis/autoscaling/v1alpha1/horizontalportrait_types.go:304).
- A portrait identifier is decoded to its own portrait if and only if the portrait type has
  no slash and no dash. Removing a type with a dash leaves its portrait behind, removing one
  with a slash makes every call fail until it is configured again.
- Moving scale-ups ahead never leaves a predicted instant with too few replicas before the
  data expires, whatever the prediction is, if and only if they are moved by at most one
  bucket; the timestamps stay ascending if and only if they are moved by less. The data
  expires before the end of the prediction if and only if its last row is a moved scale-up.

## Model

| member | source | states |
|---|---|---|
| `Planner.SelectPodsToTransfer` | pkg/pod/state.go:222-242 | the selection is an end of what the sorter made of some listing of the candidates: the front to push, the back to pull; it fails only if the sorter does |
| `Planner.TakeFrom` | pkg/pod/state.go:230-240 | the loop that inserts until the count is reached takes exactly a prefix or a suffix of the sorted list |
| `Planner.PicksSubset` | pkg/pod/state.go:222-242 | a selection has exactly the wanted number of pods, as far as there are candidates, and only candidates |
| `Planner.MakePodListByNames` | pkg/pod/state.go:244-250 | in whatever order the set is walked, the list has each pod exactly once |
| `Planner.StateManager.constructor` | pkg/pod/state.go:115-131 | the bookkeeping starts with the running pods in their states and no candidates |
| `Planner.StateManager.PullFromLaterStates` | pkg/pod/state.go:170-187 | a state that is short gets pods from Cutoff first and from Standby only for what is still missing, and they leave the sets they came from |
| `Planner.StateManager.PushToNextState` | pkg/pod/state.go:188-202 | the surplus of a state goes to the next one, out of current and candidate pods alike |
| `Planner.StateManager.FillUp` | pkg/pod/state.go:170-187 | a state that is short is filled up by exactly the transfers its stage of the plan asks for |
| `Planner.StateManager.Drain` | pkg/pod/state.go:188-202 | a state with too many is drained by exactly the transfer its stage of the plan asks for |
| `Planner.StateManager.BalanceState` | pkg/pod/state.go:168-205 | one round of the loop keeps the invariant: the bookkeeping is that of the transfers of the states so far |
| `Planner.BookHoldsPool` | pkg/pod/state.go:168-205 | when its turn comes, a state holds its pool in current and candidate pods together, and no later state has a candidate |
| `Planner.StateManager.CalculateStateChange` | pkg/pod/state.go:167-220 | the in-place loop computes a plan: the change sets are, state by state, the pods that end in a state and did not start there |
| `PlannerTheorems.PlanIsWaterfall` | pkg/pod/state.go:167-203 | the final counts are N poured into the desired counts in order, the rest deleted, for all counts and sorters; each pod ends in exactly one place |
| `PlannerTheorems.PlanDiscipline` | pkg/pod/state.go:167-203 | nothing leaves a state that is short or enters one that has too many; a standby pod goes online only if every cutoff pod does; standby pods are cut off only if no pod leaves Cutoff downwards |
| `PlannerTheorems.PlanMovesExclude` | pkg/pod/state.go:171-204 | no state both pushes and pulls, and Standby is pulled for Online only after Cutoff is exhausted |
| `PlannerTheorems.PlanIsStable` | pkg/pod/state.go:167-203 | pods that already have the waterfall counts are left where they are |
| `PlannerTheorems.PlanIsIdempotent` | pkg/pod/state.go:167-220 | when a plan is carried out, the next one moves no pod, even with another sorter |
| `PlannerTheorems.PlanExists` | pkg/pod/state.go:167-220 | if the sorter does not fail there is a plan, for every classification and every wish |
| `PlannerOrder.PicksByKey` | pkg/pod/state.go:222-242 | with a sorter descending by key, a push takes the highest keys and a pull the lowest |
| `PlannerOrder.PlanStaysStratified` | pkg/pod/state.go:167-203 | with such a sorter, states that hold consecutive key ranges still do after the plan, and the deleted pods are above all others |
| `PlannerOrder.RankSplits` | pkg/pod/state.go:167-203 | of two layers, the lower one holds exactly the lowest ranks of the sorted whole |
| `PlannerOrder.PlanSlicesByKey` | pkg/pod/state.go:167-242 | the plan equals: sort all pods by key, keep the first online, cut off the next, put the next on standby, delete the rest |
| `StatefulSet.Sort` | pkg/workload/statefulset.go:32-37 | the in-place sort leaves the array in descending order of ordinals, with the same pods |
| `StatefulSet.SortSorts` | pkg/workload/statefulset.go:32-37 | that order is descending and a permutation of the pods |
| `StatefulSet.StatefulSetSorts` | pkg/workload/statefulset.go:32-37 | the StatefulSet's sorter is one the order theorems are about |
| `StatefulSet.OrdinalOfPodName` | pkg/workload/statefulset.go:47-50 | the ordinal parsed from the name a StatefulSet gives its pod is the pod's number, whatever dashes are in the name |
| `StatefulSet.OrdinalOfOtherName` | pkg/workload/statefulset.go:47-50 | a name with anything but digits after its last dash counts as number 0 |
| `StatefulSet.PlanSlicesByNumber` | pkg/pod/state.go:167-242 | of a StatefulSet the plan keeps the lowest numbers online, cuts off the next, puts the next on standby and deletes the rest: pod k is judged by how many pods have a lower number |
| `Pods.SetStateIsReadBack` | pkg/pod/state.go:37-60 | a running state that is set is read back, Deleted is read back as Online, and no other label changes |
| `Pods.StateOfMeaning` | pkg/pod/state.go:37-48 | only the exact names Cutoff and Standby under the state label are read as these states; everything else is Online |
| `Pods.Pod.SetState` | pkg/pod/state.go:51-60 | the in-place change of the label |
| `Pods.FilterAndClassify` | pkg/pod/state.go:77-92 | each running pod is in the set of its state and no other, and the total counts them |
| `ReplicaProfile.RelabelledIsCarried` | controllers/autoscaling/replicaprofile_controller.go:234-311 | classifying the pods again after the labels are written gives the planned states; pods to delete are still seen in their old one |
| `ReplicaProfile.EnsuredIffTargetMet` | controllers/autoscaling/replicaprofile_controller.go:519-543 | for every spec and counts, the profile is ensured iff the target is what is there; for the online pods, iff they are at least, at most, any or exactly the wanted number, as the direction says |
| `ReplicaProfile.PlanLeavesOnline` | controllers/autoscaling/replicaprofile_controller.go:532-543 | how many online pods a plan leaves in each direction: the wanted number, or those there are if the direction forbids to go there, as far as there are pods |
| `ReplicaProfile.OnlineOnlyIsScaled` | controllers/autoscaling/replicaprofile_controller.go:181-329 | with online pods only, wanted and there, a reconcile changes the scale alone |
| `ReplicaProfile.StatesChangeAtRest` | controllers/autoscaling/replicaprofile_controller.go:181-313 | otherwise pods change their states iff as many run as the scale says, and pods are selected for deletion only of a workload that can select |
| `ReplicaProfile.RelabelledKeepsRest` | pkg/pod/state.go:51-60 | writing the labels of a plan touches the state label of the moved pods and nothing else |
| `ReplicaProfile.TargetStays` | controllers/autoscaling/replicaprofile_controller.go:532-543 | the target that the controller computes after a plan is the one it had before, in all four directions |
| `ReplicaProfile.ReplanIsEmpty` | controllers/autoscaling/replicaprofile_controller.go:221-311 | label, drop the deleted pods, classify, compute the next target, plan again: nothing moves, in every direction |
| `ReplicaProfile.PlanRespectsDirection` | controllers/autoscaling/replicaprofile_controller.go:532-543 | under Up no pod leaves Online, under Down none enters it, under Neither Online is unchanged, for every spec and status |
| `ReplicaProfile.ScaleTarget.SetPodStates` | controllers/autoscaling/replicaprofile_controller.go:246-254 | the loop labels exactly the pods of a change set, or a part of them if a request fails |
| `ReplicaProfile.ScaleTarget.WriteChangeSet` | controllers/autoscaling/replicaprofile_controller.go:234-278 | the traffic controller is asked before any label is written |
| `ReplicaProfile.ScaleTarget.Rescale` | controllers/autoscaling/replicaprofile_controller.go:315-329 | the scale is the wanted one after a success, and never anything but that or the old one |
| `ReplicaProfile.ScaleTarget.Enforce` | controllers/autoscaling/replicaprofile_controller.go:181-343 | the part that acts: the plan, its labels, the pods to delete and the scale, in this order |
| `ReplicaProfile.ScaleTarget.ApplyStateChange` | controllers/autoscaling/replicaprofile_controller.go:234-309 | writing the change sets one after the other labels every pod by the plan, and hands exactly the pods to delete to a workload that can select them; wherever a request fails, each pod is as it was or as planned |
| `ReplicaProfile.ScaleTarget.Reconcile` | controllers/autoscaling/replicaprofile_controller.go:155-343 | one reconcile, with any request failing or taking effect unnoticed: idle only if the profile is ensured, skipped only if a state change is needed and the workload is not at rest; a success stores the plan's labels and the int32 total, a failure a part of them, and a new scale only after all the rest |
| `Convergence.RoundTally` | controllers/autoscaling/replicaprofile_controller.go:181-329 | what an acting reconcile followed by the workload controller does to the number of pods in each state, from rest or not; with a surplus, where the workload controller deletes what it likes, that there are no more online pods than before or wished |
| `Convergence.LevelsTally` | controllers/autoscaling/replicaprofile_controller.go:313-329 | what the environment that brings the pods to the scale does to these numbers |
| `Convergence.RestIsStill` | controllers/autoscaling/replicaprofile_controller.go:313-329 | at rest the environment leaves every pod in its state |
| `Convergence.SettledForever` | controllers/autoscaling/replicaprofile_controller.go:157-179 | a settled workload stays settled, with the same scale and the same pods in each state |
| `Convergence.ConvergesInThreeRounds` | controllers/autoscaling/replicaprofile_controller.go:155-329 | direction Both, any start: from the third round on the profile holds exactly, the scale is the desired total, and nothing changes |
| `Convergence.AtMostTwoActions` | controllers/autoscaling/replicaprofile_controller.go:155-329 | direction Both, any start: no run contains a third acting reconcile |
| `Runaway.StarvedStays` | controllers/autoscaling/replicaprofile_controller.go:315-329 | Up and Neither: a workload with too few pods for cutoff and standby has too few again after the round, at a larger scale |
| `Runaway.FedStays` | controllers/autoscaling/replicaprofile_controller.go:315-329 | Up and Neither: a workload that is not starved settles or loses pods, and is not starved after |
| `Runaway.SettledIsAsWanted` | controllers/autoscaling/replicaprofile_controller.go:519-530 | the numbers of a settled workload, direction by direction |
| `Runaway.SettlesFromRest` | controllers/autoscaling/replicaprofile_controller.go:532-543 | the same from a start at rest, with the condition on the start |
| `Runaway.SettlesUnlessStarved` | controllers/autoscaling/replicaprofile_controller.go:532-543 | Up and Neither, any start: once the first round has brought the workload to rest, a long enough run ends settled iff the workload is not starved then, and so with the wanted cutoff and standby pods and, under Up, at least the wanted online pods; a starved one is rescaled upwards in every round |
| `Runaway.OnePodRunsAway` | controllers/autoscaling/replicaprofile_controller.go:532-543 | from a single online pod with one to be cut off, direction Up: runs of any length in which every reconcile acts and the scale grows in every round |
| `Runaway.DownSettles` | controllers/autoscaling/replicaprofile_controller.go:532-543 | Down: every run from any start settles, with a bound on the rounds, at no more than the wanted online pods and exactly the wanted cutoff and standby pods |
| `Runaway.OnlineGrowsIff` | controllers/autoscaling/replicaprofile_controller.go:532-543 | Down, any start: a round ends with more online pods iff, in an idle or skipped round, pods are created, and in any other, more pods are created than leave Online |
| `Runaway.OnlineGrowsIffStarved` | controllers/autoscaling/replicaprofile_controller.go:532-543 | Down, from rest and up to the profile's number of online pods: that is to be starved |
| `Runaway.StarvedGains` | controllers/autoscaling/replicaprofile_controller.go:532-543 | above that number a starved workload can gain online pods: from 3 to 11 |
| `Runaway.StarvedLoses` | controllers/autoscaling/replicaprofile_controller.go:532-543 | and it can lose them: from 5 to 3 |
| `Gray.Ihpa.GenerateReplicaData` | controllers/autoscaling/intelligenthorizontalpodautoscaler_controller.go:435-501 | the gray step in int32, in place: new status, replica data, cap and remaining time |
| `Gray.Ihpa.Reconcile` | controllers/autoscaling/intelligenthorizontalpodautoscaler_controller.go:170-200 | a fetched value becomes the current one, starts a gray change if a strategy applies, and the step is made; in preview nothing is capped or made |
| `Gray.NewValueMeaning` | controllers/autoscaling/intelligenthorizontalpodautoscaler_controller.go:170-209 | for every new value, the very first one included: without a gray strategy for the way to it, it is shown at once, clamped; with one, the gray change starts with its first step from the old count |
| `Gray.StoredValueMeaning` | controllers/autoscaling/intelligenthorizontalpodautoscaler_controller.go:435-452 | a value already stored, with no gray strategy for the way to it, is shown again as it is |
| `Gray.PreviewMeaning` | controllers/autoscaling/intelligenthorizontalpodautoscaler_controller.go:170-177 | in preview every value is stored as it is, and nothing is shown |
| `Gray.RemainTimeMeaning` | controllers/autoscaling/intelligenthorizontalpodautoscaler_controller.go:519-536 | a percentage is kept for no time at 0, for the observation time at 100 and for an interval in between, counted from its last update, and the remaining time is what is left of that |
| `Gray.SoundIsKept` | controllers/autoscaling/intelligenthorizontalpodautoscaler_controller.go:170-182 | under a fixed spec every reconcile finds the gray status it reads, and stores values within [min, max] |
| `Gray.LateStrategyFindsNoGray` | controllers/autoscaling/intelligenthorizontalpodautoscaler_controller.go:453-454 | under a changed spec it need not: a gray strategy is added after the value changed |
| `Gray.LoweredMaximumFindsNoGray` | controllers/autoscaling/intelligenthorizontalpodautoscaler_controller.go:443-454 | the second way into it: the maximum is lowered below the old value while the value grows |
| `Gray.FindsNoGrayIff` | controllers/autoscaling/intelligenthorizontalpodautoscaler_controller.go:170-182 | exactly when the status is missing, for every spec, status and value: none was ever stored, and the capped value makes a gray change that the value as fetched, if it is new, does not make |
| `Gray.SameValueAgain` | controllers/autoscaling/intelligenthorizontalpodautoscaler_controller.go:435-446 | fetching the same value again keeps the gray change if the value is in range; if not, the second reconcile jumps to the clamped count |
| `GrayRun.CountIsExact` | pkg/util/math.go:20-41 | for a difference of 1 to 21474836 no operation overflows, and the gray count is between one and the difference, reached exactly at 100 percent or for a single pod |
| `GrayRun.FullCountIffSmall` | controllers/autoscaling/intelligenthorizontalpodautoscaler_controller.go:470-471 | at 100 percent the count is the whole difference iff it is at most 21474836 |
| `GrayRun.RolloutStep` | controllers/autoscaling/intelligenthorizontalpodautoscaler_controller.go:448-500 | with value and strategy fixed a reconcile changes nothing but the gray percentage and its time; one that does returns a remaining time of zero, which schedules nothing |
| `GrayRun.PercentAfter` | controllers/autoscaling/intelligenthorizontalpodautoscaler_controller.go:466-469 | after k firing steps the percentage is min(100, k * changePercent), over any times |
| `GrayRun.FiringsArePaced` | controllers/autoscaling/intelligenthorizontalpodautoscaler_controller.go:519-536 | k firings take at least k - 1 intervals |
| `GrayRun.EndIsPaced` | controllers/autoscaling/intelligenthorizontalpodautoscaler_controller.go:454-536 | a rollout that is over has fired exactly ceil(100 / changePercent) times and took all the intervals plus the observation |
| `GrayRun.PromptCallsEnd` | controllers/autoscaling/intelligenthorizontalpodautoscaler_controller.go:454-500 | called whenever the wait is over, the rollout reaches 100 percent with exactly the ceil(100 / changePercent)-th call |
| `GrayRun.DataMeaning` | controllers/autoscaling/intelligenthorizontalpodautoscaler_controller.go:470-500 | the online count is on the way from previous to current by the gray count, hits current exactly at 100 percent or for a single pod, and the gray pods are in the gray state until the end |
| `GrayRun.OnlineMovesMonotonically` | controllers/autoscaling/intelligenthorizontalpodautoscaler_controller.go:454-500 | over any run the online count moves monotonically from previous to current and never leaves that interval, hence neither [min, max] |
| `GrayRun.SelfDrivenIff` | controllers/autoscaling/intelligenthorizontalpodautoscaler_controller.go:466-500 | every firing after the first changes the replica data, and so triggers the next call, iff the difference times changePercent is at least 100 |
| `GrayRun.NewValueStartsFromTarget` | controllers/autoscaling/intelligenthorizontalpodautoscaler_controller.go:170-177 | a new value in the middle of a rollout restarts from the old target; if no gray strategy applies to it, as when only its expiry is new, it is taken at once |
| `GrayRun.JumpToNewRollout` | controllers/autoscaling/intelligenthorizontalpodautoscaler_controller.go:170-177 | if a gray strategy applies to the new value, the online pods jump by what the old rollout had left plus the first step of the new one; they stay iff the new value turns back and its first step is just that rest |
| `GrayRun.JumpToNewValue` | controllers/autoscaling/intelligenthorizontalpodautoscaler_controller.go:170-177 | if none applies, they jump to the new value; with the old target as value this is no jump iff the rollout was at 100 percent or about a single pod |
| `GrayScaleDown.StagePlan` | pkg/pod/state.go:167-203 | a gray step's plan moves exactly the additional pods from Online to the gray state, with Delete empty |
| `GrayScaleDown.StageRounds` | controllers/autoscaling/replicaprofile_controller.go:157-329 | after the round that makes a gray step, more rounds change nothing |
| `GrayScaleDown.NoPodIsLost` | controllers/autoscaling/intelligenthorizontalpodautoscaler_controller.go:464-500 | through a whole scale-down, any number of replica profile rounds from one up after each gray step: online and gray pods add up to the previous replicas, the same pods run, a gray pod stays gray, each step makes exactly its increment gray |
| `GrayScaleDown.GrayPodsAreDeleted` | controllers/autoscaling/replicaprofile_controller.go:221-329 | when the rollout is over, exactly the gray pods are selected for deletion and the scale drops to the current replicas |
| `Cron.ActiveUntilEnd` | pkg/util/time.go:28-42 | an active rule is active until exactly its next end, an inactive one is inactive until its next start |
| `Cron.ActiveIffEndComesFirst` | pkg/util/time.go:28-42 | a rule is active iff, of the instants to come, one of its end comes before any of its start |
| `Cron.OnlyActiveRule` | pkg/portrait/provider/common.go:121-150 | the only active rule is in effect, until its next end |
| `Cron.GetActiveReplicaCron` | pkg/portrait/provider/common.go:121-150 | the loop with its early errors computes the rule in effect |
| `Cron.ActiveCronMeaning` | pkg/portrait/provider/common.go:121-150 | an error iff a rule is malformed or two active rules overlap; otherwise the only active rule with its end, or nobody |
| `Portrait.FindLatest` | pkg/portrait/provider/dynamic.go:189-210 | the backward scan finds the last point in effect |
| `Portrait.TimerTriggerManager.StartTimerTrigger` | pkg/portrait/provider/common.go:168-199 | whatever entry was there, even of a timer that has fired, a timer for a future time is waiting afterwards |
| `Portrait.TimerTriggerManager.StopTimerTrigger` | pkg/portrait/provider/common.go:201-208 | no timer of the portrait waits any more |
| `Portrait.CronTaskTriggerManager.StartCronTaskTrigger` | pkg/portrait/provider/common.go:62-110 | the task runs with the given rules; it fails only for a malformed rule, and then no task runs |
| `Portrait.CronTaskTriggerManager.StopCronTaskTrigger` | pkg/portrait/provider/common.go:112-119 | no task of the portrait runs any more |
| `Portrait.DynamicHorizontal.BuildPortraitValue` | pkg/portrait/provider/dynamic.go:149-235 | the in-place evaluation returns the value of the time-indexed function, arms its timer and runs its cron task |
| `Portrait.ExpiredMeaning` | pkg/portrait/provider/dynamic.go:157-161 | from its expiry on, data has no value and its triggers are stopped |
| `Portrait.StaticMeaning` | pkg/portrait/provider/dynamic.go:169-170 | static data has its own replicas until its own expiry, for which a timer is armed |
| `Portrait.CronMeaning` | pkg/portrait/provider/dynamic.go:171-188 | cron data has the replicas of its only active rule, whichever that is, until the rule ends or the data expires; a timer is armed only if the data expires first |
| `Portrait.CronWithoutRule` | pkg/portrait/provider/dynamic.go:171-188 | no value while no rule is active; an error iff a rule is malformed or two are active |
| `Portrait.SeriesMeaning` | pkg/portrait/provider/dynamic.go:189-210 | a series has exactly the replicas of its last point at or before now, until the next point or its expiry, for which a timer is armed |
| `Portrait.SeriesNotBegun` | pkg/portrait/provider/dynamic.go:211-224 | before its first point a series has no value, and a timer is armed for that point or the expiry |
| `Wakeups.ArmedInFuture` | pkg/portrait/provider/dynamic.go:211-224 | every timer is armed for the future |
| `Wakeups.FailsIffUnusable` | pkg/portrait/provider/dynamic.go:149-235 | an evaluation fails iff its data has not expired and its series is empty or its rules are malformed or overlap |
| `Wakeups.QuietKeepsValue` | pkg/portrait/provider/dynamic.go:149-235 | if no trigger goes off in between, the value, its expiry or the error is unchanged, iff it is not the case that the data has expired since and was unusable before |
| `Wakeups.ValueUntilExpiry` | pkg/portrait/provider/dynamic.go:149-235 | a value is right at an instant before it expires iff no two cron rules overlap there |
| `Wakeups.OverlapBeforeExpiry` | pkg/portrait/provider/common.go:141-144 | two rules and a value that expires at 5 and is an error at 4 |
| `Wakeups.SelectPortraitValue` | controllers/autoscaling/intelligenthorizontalpodautoscaler_controller.go:375-413 | the loop with its candidate variables computes the choice, and stops at the first error |
| `Wakeups.StaticOffer` | pkg/portrait/provider/static.go:42-47 | a static provider offers its replicas without end |
| `Wakeups.CronOffer` | pkg/portrait/provider/cron.go:49-64 | a cron provider offers the replicas of an active rule until its end; an error iff a rule is malformed or two are active; nothing only if none is active |
| `Wakeups.DynamicOffer` | pkg/portrait/provider/dynamic.go:104-124 | a dynamic provider offers the value of its portrait, if that has data |
| `Wakeups.SelectIsGreatest` | controllers/autoscaling/intelligenthorizontalpodautoscaler_controller.go:397-412 | the choice is an unexpired value of the highest priority, and of these one with the most replicas; none iff there is none, an error iff a fetch fails |
| `Wakeups.SelectIgnoresOrder` | controllers/autoscaling/intelligenthorizontalpodautoscaler_controller.go:379-413 | the winning priority and replicas are the same for every order of the providers |
| `Wakeups.NoMissedWakeup` | controllers/autoscaling/intelligenthorizontalpodautoscaler_controller.go:379-413 | if no armed timer and no cron instant of any provider lies in between, the whole selection is the same, iff it is not the case that it failed for data that has expired since and no fetch fails now |
| `Wakeups.MissedWakeup` | pkg/portrait/provider/dynamic.go:171-179 | the exception at two overlapping rules: the selection fails at 3, the data expires at 4 without a trigger, and the selection is empty then |
| `Wakeups.EvaluateAndWait` | pkg/portrait/provider/dynamic.go:149-235 | the running system: after an evaluation the portrait's event is sent, an instant passes of cron rules whose task runs, the data of a failed evaluation expires, or the value is unchanged |
| `Tracking.RoundTripIff` | controllers/autoscaling/intelligenthorizontalpodautoscaler_controller.go:418-431 | an entry is decoded to its own provider and portrait type iff that type has no slash and no dash; a slash makes it undecodable, a dash alone a shorter type |
| `Tracking.KeysAreDistinct` | pkg/portrait/provider/dynamic.go:52-54 | different providers have different entries, whatever their portrait types |
| `Tracking.SplitFirst` | pkg/portrait/provider/dynamic.go:130 | splitting ends the first part at the first separator |
| `Tracking.PortraitNameMeaning` | pkg/portrait/provider/dynamic.go:237-239 | the name of a portrait is that of its autoscaler and its type, joined by a dash, both lower-cased |
| `Tracking.PortraitTracker.UpdatePortraitSpec` | pkg/portrait/provider/dynamic.go:56-102 | a success adds what the provider needs; a failure leaves a portrait created only if the request took effect, and the cron task stopped |
| `Tracking.PortraitTracker.FetchPortraitValue` | pkg/portrait/provider/dynamic.go:104-124 | a fetch turns the triggers of its own portrait on or off as its evaluation says, fails iff that does, and takes nothing that any provider needs |
| `Tracking.PortraitTracker.CleanupPortrait` | pkg/portrait/provider/dynamic.go:126-147 | a cleanup stops the triggers of its portrait even if it fails, and removes the portrait iff the request takes effect |
| `Tracking.PortraitTracker.CleanupRemoved` | controllers/autoscaling/intelligenthorizontalpodautoscaler_controller.go:416-433 | in any order of the entries, a success removes exactly what the providers they are decoded to own; it succeeds iff every entry can be decoded and no deletion fails |
| `Tracking.PortraitTracker.CurrentIdentifiers` | controllers/autoscaling/intelligenthorizontalpodautoscaler_controller.go:358-365 | the entries of exactly the configured providers, unless one is unknown |
| `Tracking.PortraitTracker.UpdateAndFetchAll` | controllers/autoscaling/intelligenthorizontalpodautoscaler_controller.go:380-393 | succeeds iff every update and every fetch of a configured provider does; then everything needed lives, and each trigger is as the last fetch that starts or stops it says |
| `Tracking.PortraitTracker.UpdateAndFetch` | controllers/autoscaling/intelligenthorizontalpodautoscaler_controller.go:357-393 | wherever a call fails, everything that lives still belongs to a remembered provider, iff the new entries have not stranded something; it succeeds iff all types are known, the removed entries can be cleaned up, and no update or fetch fails; then all that is configured lives and the triggers are as the fetches left them |
| `Tracking.CoveredAfterCleanup` | controllers/autoscaling/intelligenthorizontalpodautoscaler_controller.go:366-373 | after a cleanup everything that lives belongs to a provider that stays, iff nothing lives that was owned by removed unclean types only |
| `Tracking.CleanTypesStrandNothing` | pkg/portrait/provider/dynamic.go:126-147 | with types free of slash and dash nothing is ever stranded and every entry can be decoded |
| `Tracking.DashStrands` | pkg/portrait/provider/dynamic.go:126-147 | a removed type with a dash leaves its portrait alive and forgotten, unless a provider that stays has one of the same name |
| `Tracking.SlashBlocks` | controllers/autoscaling/intelligenthorizontalpodautoscaler_controller.go:416-427 | while a type with a slash is remembered and not configured, no call gets past the cleanup |
| `Tracking.Serve` | controllers/autoscaling/intelligenthorizontalpodautoscaler_controller.go:357-393 | over any sequence of calls from a fresh start, with types free of slash and dash and whatever fails: everything that lives is remembered; after a success it is what the last configuration names, every request of which was answered, with the triggers as its fetches left them |
| `Tracking.ExactlyConfigured` | controllers/autoscaling/intelligenthorizontalpodautoscaler_controller.go:357-433 | after a success the portraits are exactly those of the configured types, and the cron task runs iff cron is configured |
| `RangeQuery.InstantsMeaning` | pkg/metric/provider/prometheus/provider.go:214-233 | the instants of a range are the start plus multiples of the step up to the end, each once, ascending |
| `RangeQuery.PromQueryRangeSharding` | pkg/metric/provider/prometheus/provider.go:214-233 | the loop terminates and gives the shards in closed form, for every start and end |
| `RangeQuery.ShardSpan` | pkg/metric/provider/prometheus/provider.go:38-40 | a shard spans at most 11000 steps; all but the last hold 11001 instants |
| `RangeQuery.ShardsPartition` | pkg/metric/provider/prometheus/provider.go:214-233 | the instants of the shards, one after the other, are those of the whole range: none lost, none twice |
| `RangeMerge.FetchShards` | pkg/metric/provider/prometheus/provider.go:147-183 | in any order of the goroutines the channel gets exactly one result for each shard |
| `RangeMerge.OrderResults` | pkg/metric/provider/prometheus/provider.go:186-189 | every slot is filled with its own shard's result, whatever the order of arrival |
| `RangeMerge.CollectedAfter` | pkg/metric/provider/prometheus/provider.go:196-203 | when all series of a shard are merged, exactly the series of both stretches of instants are collected |
| `RangeMerge.MergeShard` | pkg/metric/provider/prometheus/provider.go:196-203 | merging one shard's answer into what is collected for earlier instants collects both, for every series |
| `RangeMerge.ListSeries` | pkg/metric/provider/prometheus/provider.go:206-211 | in whatever order the map is walked, the list names each collected series once |
| `RangeMerge.MergeOrdered` | pkg/metric/provider/prometheus/provider.go:190-204 | the merge by labels collects for each series exactly its points, and an error iff a shard failed |
| `RangeMerge.Query` | pkg/metric/provider/prometheus/provider.go:139-212 | an error and no data iff the server fails on a shard; otherwise an answer for the instants of the whole range |
| `RangeMerge.PointsConcat` | pkg/metric/provider/prometheus/provider.go:196-203 | the points of a series over two stretches of instants are those of the one and then of the other |
| `RangeMerge.PointsMeaning` | pkg/metric/provider/prometheus/provider.go:282-295 | a series has a point with a value exactly where the server has that value at an instant |
| `RangeMerge.ShardedEqualsDirect` | pkg/metric/provider/prometheus/provider.go:139-212 | the sharded answer is the direct one up to the order of the series, with strictly ascending points |
| `Lister.InvKept` | pkg/metric/provider/prometheus/runnable.go:103-165 | every step of every goroutine keeps the invariant that ties channels, counters, cache and goroutines |
| `Lister.AnswersAlways` | pkg/metric/provider/prometheus/runnable.go:114-138 | what a goroutine sends is, in every run, what its query was answered |
| `Lister.SendersHaveRoom` | pkg/metric/provider/prometheus/runnable.go:106-138 | whoever is about to send can send, and errs is still open |
| `Lister.NeverStuck` | pkg/metric/provider/prometheus/runnable.go:143-156 | while the main goroutine waits and no query runs, somebody can go on |
| `Lister.RunsAreBounded` | pkg/metric/provider/prometheus/runnable.go:103-165 | no run is longer than a measure that every step decreases |
| `Lister.ListingTerminates` | pkg/metric/provider/prometheus/runnable.go:93-166 | over every interleaving: at most 6n + 1 steps, a run that cannot go on has returned with no goroutine left, nobody blocks, nothing is sent on the closed channel |
| `Lister.ListingIsRight` | pkg/metric/provider/prometheus/runnable.go:93-166 | over every interleaving: each selector is queried once, an error iff a query was answered with one, otherwise each namer gets what the server answered for its selector; "no metrics retrieved" never comes |
| `Predictive.GreatestIsMaximum` | algorithm/kapacity/portrait/horizontal/predictive/main.py:167-169 | the aggregate of a bucket is its maximum, and is there iff the bucket has a point |
| `Predictive.SortSorts` | algorithm/kapacity/portrait/horizontal/predictive/main.py:177 | sorting by time loses and invents no point, and gives the order |
| `Predictive.ResampleMeaning` | algorithm/kapacity/portrait/horizontal/predictive/main.py:176-181 | in whatever order the points come: rows at the distance of the period, each the maximum of its bucket, and one for every predicted point |
| `Predictive.RowsAreAligned` | algorithm/kapacity/portrait/horizontal/predictive/main.py:176-181 | the buckets are counted from the origin |
| `Predictive.MoveScaleUps` | algorithm/kapacity/portrait/horizontal/predictive/main.py:170-172 | in place: exactly the rows with more replicas than their predecessor are moved, by exactly the given time, and no replicas change |
| `Predictive.AdjustedMeaning` | algorithm/kapacity/portrait/horizontal/predictive/main.py:170-172 | the same of the adjusted rows: a row with no more replicas than its predecessor is unchanged |
| `Predictive.RowsArrive` | algorithm/kapacity/portrait/horizontal/predictive/main.py:170-172 | moved by less than a bucket, every row is in the series, at its own time if it does not scale up |
| `Predictive.OthersComeOnTime` | algorithm/kapacity/portrait/horizontal/predictive/main.py:170-172 | a row that does not scale up is not shown before its own time |
| `Predictive.AdjustPredReplicas` | algorithm/kapacity/portrait/horizontal/predictive/main.py:166-173 | the adjusted rows, and an expiry at the end of the last bucket, or earlier by the move exactly if the last row has more replicas than the one before and scale-ups are moved |
| `Predictive.ContentMeaning` | algorithm/kapacity/portrait/horizontal/predictive/main.py:275-280 | the data keeps, for each timestamp, the last row that has it |
| `Predictive.FetchResult` | pkg/portrait/algorithm/externaljob/resultfetcher/configmap.go:105-121 | for every order of the map, the series is strictly ascending and has exactly the map's points |
| `Predictive.SortByTime` | pkg/portrait/algorithm/externaljob/resultfetcher/configmap.go:116-118 | the in-place sort leaves the same points, each as often as before, in order of time, strictly if their times are distinct |
| `Predictive.SortAscends` | pkg/portrait/algorithm/externaljob/resultfetcher/configmap.go:116-118 | sorting points with distinct timestamps gives a strictly ascending series of the same points |
| `Predictive.SeriesIsUnique` | pkg/portrait/algorithm/externaljob/resultfetcher/configmap.go:116-118 | there is just one such series |
| `Predictive.LookupRow` | pkg/portrait/provider/dynamic.go:189-210 | from a row's moved time to the end of its bucket the lookup shows that row, or the next one if that scales up and has been moved here |
| `Predictive.SafeIff` | algorithm/kapacity/portrait/horizontal/predictive/main.py:170-172 | before the data expires, no prediction is ever under-provisioned, iff scale-ups are moved by at most one bucket |
| `Predictive.AlwaysProvidedIff` | algorithm/kapacity/portrait/horizontal/predictive/main.py:275-280 | with a move of at most one bucket, every instant of every bucket, expired or not, has a value of at least its row, iff the last row does not have more replicas than the one before or nothing is moved |
| `Predictive.AscendingIff` | algorithm/kapacity/portrait/horizontal/predictive/main.py:170-172 | the adjusted rows of every prediction stay strictly ascending iff scale-ups are moved by less than one bucket |
| `Predictive.ScaleUpComesAhead` | algorithm/kapacity/portrait/horizontal/predictive/main.py:170-172 | the capacity of a scale-up is there exactly that much earlier |
| `Predictive.PredictionIsServed` | pkg/portrait/provider/dynamic.go:189-235 | from prediction to portrait value: before the data expires, the value at each predicted instant has at least the predicted replicas |

## Left out

- Kubernetes, Prometheus and gRPC calls, patches, finalizers, events, conditions and logging: only their outcome is modelled.
- Failing requests in runs of the replica profile controller: what a failed reconcile leaves behind is stated in `ReplicaProfile.ScaleTarget.Reconcile`, and the runs of `Convergence` and `Runaway`, whose reconciles do not fail, start from every such state.
- The pods' readiness conditions that traffic controllers write: only whether the request succeeds is modelled.
- Sorters other than functions, and those of ReplicaSet and Deployment: they rest on code that is not part of this model; the planner's theorems hold for every permuting sorter.
- Non-default pod sorters and traffic controllers: the source has none and returns an error, which is modelled.
- Traffic control of standby pods: the source does not do it yet.
- Several clock reads within one reconcile: a reconcile reads the clock once; times are whole seconds, and nanoseconds in range queries.
- The text form of times: a missing and a zero expire time are one and the same here, and times are not truncated when a status is stored.
- Cron parsing and time zones: a calendar gives the least instant after a time, or that an expression is malformed. A well-formed expression that never fires, for which the library returns the zero time, is excluded.
- The hash of cron rules: taken to be injective.
- Deletion of an autoscaler: the controller forgets its identifiers without cleaning up, and leaves the portraits to their owner references.
- Tracking.PortraitTracker.UpdateAndFetch: the choice of the value is modelled in `Wakeups.SelectPortraitValue`.
- Lower-casing of portrait names beyond ASCII.
- RangeQuery.PromQueryRangeSharding: requires a step of at most 2^63 / 11000 nanoseconds, because beyond it the source's product overflows.
- RangeMerge.Query: label sets stand for their own string forms, which are taken to be distinct for distinct sets, and the server is asked to name each series once in an answer.
- RangeMerge.MergeShard: points are appended to values, so that a series shared between two entries is not captured; the source shares none.
- Lister.Apply: the main goroutine and the queries are steps of a state machine on values, because a run interleaves them; the update in place of the cache is not captured.
- Filtering the found series by a namer: each namer's row of the listing is what the query of its selector found.
- Predictive.Resample: requires a point in every bucket, because an empty one becomes a NaN that the ConfigMap's reader rejects; timestamps are integers, and the text encoding of the ConfigMap is not modelled.
- Forecasting, model training and replica estimation.
- The reactive portrait generator and the webhooks.
