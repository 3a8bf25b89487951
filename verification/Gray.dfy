/** The gray rollout of the IHPA controller,
    controllers/autoscaling/intelligenthorizontalpodautoscaler_controller.go.

    Replica counts and percentages are Go int32 values: every sum and product is
    wrapped. Times are whole seconds; one reconcile reads the clock once. */
module Gray {
  import opened Common
  import opened Pods

  /** A portrait value; a missing or zero expire time is None. */
  datatype PortraitValue = PortraitValue(provider: string, replicas: int, expire: Option<int>)

  datatype GrayStrategy = GrayStrategy(grayState: PodState, interval: int, changePercent: int, observation: int)

  datatype GrayStatus = GrayStatus(percent: int, lastUpdate: int)

  datatype Status = Status(previous: Option<PortraitValue>, current: Option<PortraitValue>, gray: Option<GrayStatus>)

  datatype Spec = Spec(min: int, max: int, preview: bool, up: Option<GrayStrategy>, down: Option<GrayStrategy>)

  datatype ReplicaData = ReplicaData(online: int, cutoff: int, standby: int)

  datatype Cap = NoneCap | MinCap | MaxCap

  function AbsInt32(x: int): int { if x < 0 then Wrap32(-x) else x }

  predicate InRange(spec: Spec, replicas: int) { spec.min <= replicas <= spec.max }

  /** The two capping steps, one after the other. */
  function Capped(spec: Spec, replicas: int): int { Min(Max(replicas, spec.min), spec.max) }

  function CappedStatus(spec: Spec, st: Status): Status
    requires st.current.Some?
  {
    st.(current := Some(st.current.value.(replicas := Capped(spec, st.current.value.replicas))))
  }

  /** isIHPAGrayActive */
  predicate GrayActive(spec: Spec, st: Status) {
    && !spec.preview && st.previous.Some? && st.current.Some?
    && ((spec.up.Some? && st.current.value.replicas > st.previous.value.replicas)
        || (spec.down.Some? && st.current.value.replicas < st.previous.value.replicas))
  }

  /** getCurrentGrayStrategy */
  function Strategy(spec: Spec, st: Status): GrayStrategy
    requires GrayActive(spec, st)
  {
    if st.current.value.replicas > st.previous.value.replicas then spec.up.value else spec.down.value
  }

  /** How long a percentage is kept. */
  function Wait(s: GrayStrategy, percent: int): int {
    if percent == 0 then 0 else if percent == 100 then s.observation else s.interval
  }

  /** calIHPAGrayRemainTime */
  function RemainTime(s: GrayStrategy, gray: GrayStatus, now: int): int {
    Max(0, Wait(s, gray.percent) - (now - gray.lastUpdate))
  }

  /** How many pods of the difference are in the gray state. */
  function GrayCount(diff: int, percent: int): int { Max(1, TruncDiv(Wrap32(diff * percent), 100)) }

  /** The replica data at a percentage of the way from previous to current. */
  function GrayData(s: GrayStrategy, previous: int, current: int, percent: int): ReplicaData {
    var count := GrayCount(AbsInt32(Wrap32(current - previous)), percent);
    if current > previous then ReplicaData(Wrap32(previous + count), 0, 0)
    else ReplicaData(Wrap32(previous - count),
                     if s.grayState == Cutoff then count else 0,
                     if s.grayState == Standby then count else 0)
  }

  /** The gray status exists where the controller reads it. */
  predicate Ready(spec: Spec, st: Status) {
    st.current.Some? && (GrayActive(spec, CappedStatus(spec, st)) ==> st.gray.Some?)
  }

  predicate Ended(spec: Spec, st: Status, now: int)
    requires GrayActive(spec, st) && st.gray.Some?
  {
    st.gray.value.percent == 100 && RemainTime(Strategy(spec, st), st.gray.value, now) == 0
  }

  /** A gray step fires: the percentage is raised now. */
  predicate Fires(spec: Spec, st: Status, now: int)
    requires GrayActive(spec, st) && st.gray.Some?
  {
    st.gray.value.percent != 100 && RemainTime(Strategy(spec, st), st.gray.value, now) == 0
  }

  function NextPercent(s: GrayStrategy, percent: int): int { Min(100, Wrap32(percent + s.changePercent)) }

  function Generated(spec: Spec, st0: Status, now: int): (Status, ReplicaData, int)
    requires Ready(spec, st0)
  {
    var st := CappedStatus(spec, st0);
    if !GrayActive(spec, st) || Ended(spec, st, now) then (st, ReplicaData(st.current.value.replicas, 0, 0), 0)
    else
      var s := Strategy(spec, st);
      var percent := if Fires(spec, st, now) then NextPercent(s, st.gray.value.percent) else st.gray.value.percent;
      (if Fires(spec, st, now) then st.(gray := Some(GrayStatus(percent, now))) else st,
       GrayData(s, st.previous.value.replicas, st.current.value.replicas, percent),
       RemainTime(s, st.gray.value, now))
  }

  /** A fetched value becomes the current one; lines 170 to 177 of Reconcile. */
  function Updated(spec: Spec, st: Status, value: PortraitValue, now: int): Status {
    if st.current == Some(value) then st
    else
      var next := Status(if st.current.Some? then st.current else st.previous, Some(value), st.gray);
      if GrayActive(spec, next) then next.(gray := Some(GrayStatus(0, now))) else next
  }

  /** One reconcile: in mode Preview no replica data is made and nothing is capped. */
  function Reconciled(spec: Spec, st: Status, value: PortraitValue, now: int): (Status, Option<ReplicaData>, int)
    requires spec.preview || Ready(spec, Updated(spec, st, value, now))
  {
    var next := Updated(spec, st, value, now);
    if spec.preview then (next, None, 0)
    else
      var (after, data, remain) := Generated(spec, next, now);
      (after, Some(data), remain)
  }

  class Ihpa {
    const spec: Spec
    var status: Status

    constructor (spec: Spec)
      ensures this.spec == spec && status == Status(None, None, None)
    {
      this.spec := spec;
      status := Status(None, None, None);
    }

    method GenerateReplicaData(now: int) returns (data: ReplicaData, cap: Cap, remain: int)
      requires Ready(spec, status)
      modifies this`status
      ensures (status, data, remain) == Generated(spec, old(status), now)
      ensures var r := old(status.current.value.replicas);
              cap == if Max(r, spec.min) > spec.max then MaxCap else if r < spec.min then MinCap else NoneCap
    {
      hide Wrap32, TruncDiv, RemainTime;
      cap := NoneCap;
      var current := status.current.value;
      if current.replicas < spec.min {
        current := current.(replicas := spec.min);
        cap := MinCap;
      }
      if current.replicas > spec.max {
        current := current.(replicas := spec.max);
        cap := MaxCap;
      }
      status := status.(current := Some(current));
      if !GrayActive(spec, status) {
        return ReplicaData(current.replicas, 0, 0), cap, 0;
      }
      var strategy := Strategy(spec, status);
      remain := RemainTime(strategy, status.gray.value, now);
      var percent := status.gray.value.percent;
      if percent == 100 && remain == 0 {
        return ReplicaData(current.replicas, 0, 0), cap, 0;
      }
      var previous := status.previous.value;
      var newPercent := percent;
      if remain == 0 {
        newPercent := Min(100, Wrap32(percent + strategy.changePercent));
      }
      var diff := AbsInt32(Wrap32(current.replicas - previous.replicas));
      var count := Max(1, TruncDiv(Wrap32(diff * newPercent), 100));
      var online, cutoff, standby := 0, 0, 0;
      if current.replicas > previous.replicas {
        online := Wrap32(previous.replicas + count);
      } else {
        online := Wrap32(previous.replicas - count);
        match strategy.grayState
        case Cutoff => cutoff := count;
        case Standby => standby := count;
        case _ =>
      }
      if remain == 0 {
        status := status.(gray := Some(GrayStatus(newPercent, now)));
      }
      data := ReplicaData(online, cutoff, standby);
    }

    method Reconcile(value: PortraitValue, now: int) returns (data: Option<ReplicaData>, remain: int)
      requires spec.preview || Ready(spec, Updated(spec, status, value, now))
      modifies this`status
      ensures (status, data, remain) == Reconciled(spec, old(status), value, now)
    {
      if status.current != Some(value) {
        if status.current.Some? {
          status := status.(previous := status.current);
        }
        status := status.(current := Some(value));
        if GrayActive(spec, status) {
          status := status.(gray := Some(GrayStatus(0, now)));
        }
      }
      if spec.preview {
        return None, 0;
      }
      var replicaData, cap;
      replicaData, cap, remain := GenerateReplicaData(now);
      data := Some(replicaData);
    }
  }

  // ----- The gray status is there when it is read

  /** What every reconcile under a fixed spec leaves behind. */
  predicate Sound(spec: Spec, st: Status) {
    && (st.current.Some? ==> InRange(spec, st.current.value.replicas))
    && (st.previous.Some? ==> InRange(spec, st.previous.value.replicas))
    && (GrayActive(spec, st) ==> st.gray.Some?)
    && (st.current.None? ==> st.previous.None?)
  }

  lemma SoundIsKept(spec: Spec, st: Status, value: PortraitValue, now: int)
    requires spec.min <= spec.max && !spec.preview && Sound(spec, st)
    ensures Ready(spec, Updated(spec, st, value, now))
    ensures Sound(spec, Reconciled(spec, st, value, now).0)
  {
  }

  // ----- What a reconcile makes of a value

  /** A gray strategy applies to the way from one count to another. */
  predicate MeetsStrategy(spec: Spec, old_: int, new_: int) {
    (old_ < new_ && spec.up.Some?) || (new_ < old_ && spec.down.Some?)
  }

  /** The strategy that does. */
  function StrategyFor(spec: Spec, old_: int, new_: int): GrayStrategy
    requires MeetsStrategy(spec, old_, new_)
  {
    if old_ < new_ then spec.up.value else spec.down.value
  }

  /** The count within [min, max] that is closest to the value. */
  predicate Clamps(spec: Spec, replicas: int, r: int) {
    && spec.min <= r <= spec.max
    && (spec.min <= replicas <= spec.max ==> r == replicas)
    && (replicas < spec.min ==> r == spec.min)
    && (replicas > spec.max ==> r == spec.max)
  }

  /** Every new value, whatever was there before: the very first one, and one to which no
      gray strategy applies, is taken at once; one to which a strategy applies starts a
      gray change with its first step, from the old count. */
  lemma NewValueMeaning(spec: Spec, st: Status, value: PortraitValue, now: int)
    requires spec.min <= spec.max && !spec.preview && Sound(spec, st) && st.current != Some(value)
    ensures Ready(spec, Updated(spec, st, value, now))
    ensures var (after, data, remain) := Reconciled(spec, st, value, now);
            && after.current.Some? && Clamps(spec, value.replicas, after.current.value.replicas)
            && after.current.value == value.(replicas := after.current.value.replicas)
            && after.previous == st.current && remain == 0
            && var r := after.current.value.replicas;
               && (st.current.None? || !MeetsStrategy(spec, st.current.value.replicas, r) ==>
                     data == Some(ReplicaData(r, 0, 0)))
               && (st.current.Some? && MeetsStrategy(spec, st.current.value.replicas, r) ==>
                     var (old_, s) := (st.current.value.replicas, StrategyFor(spec, st.current.value.replicas, r));
                     1 <= s.changePercent <= 100 ==>
                       && data == Some(GrayData(s, old_, r, s.changePercent))
                       && after.gray == Some(GrayStatus(s.changePercent, now)))
  {
    hide GrayData;
  }

  /** A value that is already stored, without a gray strategy for the way to it, is shown
      again as it is; in preview nothing is shown and nothing clamped. */
  lemma StoredValueMeaning(spec: Spec, st: Status, value: PortraitValue, now: int)
    requires Sound(spec, st) && st.current == Some(value)
    ensures spec.preview ==> Reconciled(spec, st, value, now) == (st, None, 0)
    ensures !spec.preview && (st.previous.None? || !MeetsStrategy(spec, st.previous.value.replicas, value.replicas)) ==>
              && Ready(spec, Updated(spec, st, value, now))
              && Reconciled(spec, st, value, now) == (st, Some(ReplicaData(value.replicas, 0, 0)), 0)
  {
  }

  /** In preview every value is stored as it is. */
  lemma PreviewMeaning(spec: Spec, st: Status, value: PortraitValue, now: int)
    requires spec.preview && st.current != Some(value)
    ensures var previous := if st.current.Some? then st.current else st.previous;
            Reconciled(spec, st, value, now) == (Status(previous, Some(value), st.gray), None, 0)
  {
  }

  /** How long a gray percentage is kept: not at all at 0, the observation time at 100, and
      an interval in between, from its last update on. */
  lemma RemainTimeMeaning(s: GrayStrategy, g: GrayStatus, now: int)
    ensures var kept := if g.percent == 0 then 0 else if g.percent == 100 then s.observation else s.interval;
            var due := g.lastUpdate + kept;
            && (RemainTime(s, g, now) == 0 <==> now >= due)
            && (now < due ==> now + RemainTime(s, g, now) == due)
  {
  }

  /** Under a changed spec it need not be there: a gray strategy added after the
      value has changed finds no gray status. */
  lemma LateStrategyFindsNoGray(s: GrayStrategy)
    ensures var (before, after) := (Spec(0, 9, false, None, None), Spec(0, 9, false, Some(s), None));
            var st1 := Reconciled(before, Status(None, None, None), PortraitValue("p", 3, None), 0).0;
            var st2 := Reconciled(before, st1, PortraitValue("p", 5, None), 1).0;
            Sound(before, st2) && !Ready(after, Updated(after, st2, PortraitValue("p", 5, None), 2))
  {
  }

  /** The status with the fetched value put in, before a gray change is started. */
  function Replaced(st: Status, value: PortraitValue): Status {
    Status(if st.current.Some? then st.current else st.previous, Some(value), None)
  }

  /** Exactly when it is missing: no gray status was ever stored, and the capped value
      makes a gray change although the value itself, if it is new, makes none. */
  lemma FindsNoGrayIff(spec: Spec, st: Status, value: PortraitValue, now: int)
    ensures !Ready(spec, Updated(spec, st, value, now)) <==> st.gray.None? && StartsLate(spec, st, value)
  {
  }

  predicate StartsLate(spec: Spec, st: Status, value: PortraitValue) {
    if st.current == Some(value) then GrayActive(spec, CappedStatus(spec, st))
    else !GrayActive(spec, Replaced(st, value)) && GrayActive(spec, CappedStatus(spec, Replaced(st, value)))
  }

  /** Without a late strategy: the maximum is lowered from 20 to 10, and the value goes
      from 15 up to 20. That is no scale-down, but capped to 10 it is one. */
  lemma LoweredMaximumFindsNoGray(s: GrayStrategy)
    ensures var (before, after) := (Spec(0, 20, false, None, Some(s)), Spec(0, 10, false, None, Some(s)));
            var st := Reconciled(before, Status(None, None, None), PortraitValue("p", 15, None), 0).0;
            Sound(before, st) && !Ready(after, Updated(after, st, PortraitValue("p", 20, None), 1))
  {
  }

  // ----- Clamping and the next reconcile

  /** Reconciling the same value again keeps the way from previous to current if
      the value is in range. If it is not, the capped value stored by the first
      reconcile looks like a change to the second, which goes straight to the
      capped count: the gray change is skipped. */
  lemma SameValueAgain(spec: Spec, st: Status, value: PortraitValue, now: int, later: int)
    requires spec.min <= spec.max && Sound(spec, st)
    requires !spec.preview && st.current.Some? && st.current.value != value
    ensures var (once, _, _) := Reconciled(spec, st, value, now);
            && Sound(spec, once)
            && Ready(spec, Updated(spec, once, value, later))
            && once.previous == st.current
            && var (twice, data, _) := Reconciled(spec, once, value, later);
               && twice.current == once.current
               && (InRange(spec, value.replicas) ==> twice.previous == st.current)
               && (!InRange(spec, value.replicas) ==>
                     && twice.previous == twice.current
                     && data == Some(ReplicaData(Capped(spec, value.replicas), 0, 0)))
  {
  }
}
