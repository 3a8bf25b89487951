/** A whole gray rollout: the reconciles at ascending times while the fetched
    value and the strategy stay the same. */
module GrayRun {
  import opened Common
  import opened Pods
  import opened Gray

  /** The greatest difference for which int32 arithmetic is exact. */
  const MAX_DIFF := 21474836

  function Diff(st: Status): int
    requires st.previous.Some? && st.current.Some?
  {
    var d := st.current.value.replicas - st.previous.value.replicas;
    if d < 0 then -d else d
  }

  /** A rollout to value is under way. */
  ghost predicate Rollout(spec: Spec, st: Status, value: PortraitValue) {
    && !spec.preview && st.current == Some(value) && InRange(spec, value.replicas)
    && GrayActive(spec, st) && st.gray.Some?
    && 0 <= value.replicas <= 0x7fff_ffff && 0 <= st.previous.value.replicas <= 0x7fff_ffff
    && Diff(st) <= MAX_DIFF
    && 0 <= st.gray.value.percent <= 100 && Legal(Strategy(spec, st))
  }

  // ----- Machine arithmetic

  lemma MulMono(a: nat, b: int, c: int)
    requires b <= c
    ensures a * b <= a * c
  {
  }

  lemma WrapSmall(x: int)
    requires -0x8000_0000 <= x <= 0x7fff_ffff
    ensures Wrap32(x) == x
  {
  }

  lemma Scaled(diff: int, percent: int)
    requires 1 <= diff <= MAX_DIFF && 0 <= percent <= 100
    ensures 0 <= diff * percent <= 0x7fff_ffff
    ensures diff * percent / 100 <= diff
    ensures diff * percent / 100 == diff <==> percent == 100
  {
    MulMono(diff, 0, percent);
    MulMono(diff, percent, 100);
    if percent < 100 {
      MulMono(diff, percent, 99);
    }
  }

  /** No int32 operation of a gray step wraps; the number of gray pods is between
      one and the difference, and is the difference exactly at 100 percent, or
      when the difference is a single pod. */
  lemma CountIsExact(diff: int, percent: int)
    requires 1 <= diff <= MAX_DIFF && 0 <= percent <= 100
    ensures GrayCount(diff, percent) == Max(1, diff * percent / 100)
    ensures 1 <= GrayCount(diff, percent) <= diff
    ensures GrayCount(diff, percent) == diff <==> percent == 100 || diff == 1
  {
    Scaled(diff, percent);
    WrapSmall(diff * percent);
    hide Wrap32;
  }

  /** At 100 percent the whole difference is gray if and only if it is at most
      21474836: beyond, the int32 product wraps. */
  lemma FullCountIffSmall(diff: int)
    requires 1 <= diff <= 0x7fff_ffff
    ensures GrayCount(diff, 100) == diff <==> diff <= MAX_DIFF
  {
    if diff <= MAX_DIFF {
      CountIsExact(diff, 100);
    } else {
      assert TruncDiv(Wrap32(diff * 100), 100) <= 0x7fff_ffff / 100;
    }
  }

  lemma CountGrows(diff: int, percent: int, percent': int)
    requires 1 <= diff <= MAX_DIFF && 0 <= percent <= percent' <= 100
    ensures GrayCount(diff, percent) <= GrayCount(diff, percent')
  {
    CountIsExact(diff, percent);
    CountIsExact(diff, percent');
    hide GrayCount;
    MulMono(diff, percent, percent');
  }

  /** The replica data of a rollout, without int32 wrapping. */
  lemma DataIsExact(s: GrayStrategy, previous: int, current: int, percent: int)
    requires 0 <= previous <= 0x7fff_ffff && 0 <= current <= 0x7fff_ffff && previous != current
    requires Max(previous - current, current - previous) <= MAX_DIFF && 0 <= percent <= 100
    ensures var count := GrayCount(Max(previous - current, current - previous), percent);
            && (current > previous ==> GrayData(s, previous, current, percent) == ReplicaData(previous + count, 0, 0))
            && (current < previous ==>
                  GrayData(s, previous, current, percent)
                  == ReplicaData(previous - count, if s.grayState == Cutoff then count else 0,
                                 if s.grayState == Standby then count else 0))
  {
    var diff := Max(previous - current, current - previous);
    CountIsExact(diff, percent);
    WrapSmall(current - previous);
    WrapSmall(previous - current);
    WrapSmall(previous + if current > previous then GrayCount(diff, percent) else 0);
    WrapSmall(previous - if current < previous then GrayCount(diff, percent) else 0);
    hide Wrap32, GrayCount;
  }

  // ----- The gray status over a run

  /** The strategies the API accepts. */
  predicate Legal(s: GrayStrategy) { 1 <= s.changePercent <= 100 && s.interval >= 0 && s.observation >= 0 }

  predicate Due(s: GrayStrategy, g: GrayStatus, now: int) { g.percent != 100 && RemainTime(s, g, now) == 0 }

  predicate Over(s: GrayStrategy, g: GrayStatus, now: int) { g.percent == 100 && RemainTime(s, g, now) == 0 }

  /** What one reconcile makes of the gray status. */
  function Tick(s: GrayStrategy, g: GrayStatus, now: int): GrayStatus {
    if Due(s, g, now) then GrayStatus(Min(100, g.percent + s.changePercent), now) else g
  }

  /** The gray status after reconciles at the times ts. */
  function Ticks(s: GrayStrategy, g: GrayStatus, ts: seq<int>): GrayStatus {
    if ts == [] then g else Tick(s, Ticks(s, g, ts[..|ts| - 1]), ts[|ts| - 1])
  }

  /** How many of these reconciles raised the percentage. */
  function Firings(s: GrayStrategy, g: GrayStatus, ts: seq<int>): nat {
    if ts == [] then 0
    else Firings(s, g, ts[..|ts| - 1]) + if Due(s, Ticks(s, g, ts[..|ts| - 1]), ts[|ts| - 1]) then 1 else 0
  }

  /** ts ascends from t0. */
  predicate Ascending(t0: int, ts: seq<int>) {
    (forall i :: 0 <= i < |ts| ==> t0 <= ts[i]) && forall i, j :: 0 <= i < j < |ts| ==> ts[i] <= ts[j]
  }

  lemma PercentTick(k: nat, p: nat)
    requires p > 0
    ensures Min(100, Min(100, k * p) + p) == Min(100, (k + 1) * p)
    ensures k > 0 ==> k * p > 0
  {
    assert (k + 1) * p == k * p + p;
    if k > 0 {
      MulMono(p, 1, k);
    }
  }

  /** After k firings the percentage is min(100, k * changePercent). */
  lemma {:induction false} PercentAfter(s: GrayStrategy, g: GrayStatus, ts: seq<int>)
    requires Legal(s) && g.percent == 0
    ensures var k := Firings(s, g, ts);
            && Ticks(s, g, ts).percent == Min(100, k * s.changePercent)
            && (k > 0 ==> (k - 1) * s.changePercent < 100)
  {
    if ts != [] {
      var init := ts[..|ts| - 1];
      PercentAfter(s, g, init);
      PercentTick(Firings(s, g, init), s.changePercent);
      hide RemainTime;
    }
  }

  /** Two firings are at least an interval apart. */
  lemma {:induction false} FiringsArePaced(s: GrayStrategy, g: GrayStatus, ts: seq<int>)
    requires Legal(s) && g.percent == 0 && Ascending(g.lastUpdate, ts)
    ensures var (k, last) := (Firings(s, g, ts), Ticks(s, g, ts).lastUpdate);
            && g.lastUpdate <= last <= (if ts == [] then g.lastUpdate else ts[|ts| - 1])
            && (k > 0 ==> last >= g.lastUpdate + (k - 1) * s.interval)
  {
    if ts != [] {
      var (init, now) := (ts[..|ts| - 1], ts[|ts| - 1]);
      FiringsArePaced(s, g, init);
      PercentAfter(s, g, init);
      PacedTick(s, Ticks(s, g, init), g.lastUpdate, Firings(s, g, init), now);
    }
  }

  /** One more firing, after k firings since t0, comes an interval later. */
  lemma PacedTick(s: GrayStrategy, g: GrayStatus, t0: int, k: nat, now: int)
    requires Legal(s) && g.percent == Min(100, k * s.changePercent)
    requires k > 0 ==> g.lastUpdate >= t0 + (k - 1) * s.interval
    ensures k > 0 && Due(s, g, now) ==> now >= t0 + k * s.interval
  {
    PercentTick(k, s.changePercent);
    MulPred(k, s.interval);
  }

  lemma MulPred(k: int, step: int)
    ensures (k - 1) * step + step == k * step
  {
  }

  function CeilDiv(a: nat, b: nat): nat
    requires b > 0
  {
    (a + b - 1) / b
  }

  lemma CeilIsLeast(a: nat, b: nat, k: nat)
    requires b > 0 && k > 0 && k * b >= a && (k - 1) * b < a
    ensures k == CeilDiv(a, b)
  {
    var c := CeilDiv(a, b);
    assert c * b <= a + b - 1 < c * b + b;
    if k < c {
      MulMono(b, k, c - 1);
    }
    if k > c {
      MulMono(b, c, k - 1);
    }
  }

  /** A rollout that is over has fired exactly ceil(100 / changePercent) times,
      and has waited all the intervals between the firings and the observation. */
  lemma EndIsPaced(s: GrayStrategy, g: GrayStatus, ts: seq<int>, now: int)
    requires Legal(s) && g.percent == 0 && Ascending(g.lastUpdate, ts) && Over(s, Ticks(s, g, ts), now)
    ensures var steps := CeilDiv(100, s.changePercent);
            && Firings(s, g, ts) == steps
            && now >= g.lastUpdate + (steps - 1) * s.interval + s.observation
  {
    PercentAfter(s, g, ts);
    FiringsArePaced(s, g, ts);
    CeilIsLeast(100, s.changePercent, Firings(s, g, ts));
  }

  /** If the controller is called whenever a wait is over, ceil(100 / changePercent)
      calls and one more end the rollout. */
  lemma {:induction false} PromptCallsEnd(s: GrayStrategy, g: GrayStatus, ts: seq<int>)
    requires Legal(s) && g.percent == 0
    requires forall i :: 0 <= i < |ts| ==> RemainTime(s, Ticks(s, g, ts[..i]), ts[i]) == 0
    ensures Firings(s, g, ts) == Min(|ts|, CeilDiv(100, s.changePercent))
    ensures Ticks(s, g, ts).percent == 100 <==> |ts| >= CeilDiv(100, s.changePercent)
  {
    hide RemainTime, CeilDiv;
    PercentAfter(s, g, ts);
    ReachedIff(Firings(s, g, ts), s.changePercent);
    if ts != [] {
      var init := ts[..|ts| - 1];
      assert forall i :: 0 <= i < |init| ==> init[..i] == ts[..i];
      PromptCallsEnd(s, g, init);
    }
  }

  lemma ReachedIff(k: nat, p: nat)
    requires p > 0
    ensures k * p >= 100 <==> k >= CeilDiv(100, p)
  {
    var c := CeilDiv(100, p);
    assert c * p <= 100 + p - 1 < c * p + p;
    if k >= c {
      MulMono(p, c, k);
    } else {
      MulMono(p, k, c - 1);
    }
  }

  // ----- The reconciles of a rollout

  /** The replica data a reconcile of a rollout makes. */
  function DataAt(s: GrayStrategy, previous: int, current: int, g: GrayStatus, now: int): ReplicaData {
    if Over(s, g, now) then ReplicaData(current, 0, 0)
    else GrayData(s, previous, current, Tick(s, g, now).percent)
  }

  /** Each reconcile of a rollout only ticks, and makes the data of the tick. One that
      raises the percentage returns a remaining time of zero, which schedules nothing:
      it is the change of the replica profile that triggers the next reconcile. */
  lemma RolloutStep(spec: Spec, st: Status, value: PortraitValue, now: int)
    requires Rollout(spec, st, value)
    ensures Ready(spec, Updated(spec, st, value, now))
    ensures var (s, g, r) := (Strategy(spec, st), st.gray.value, Reconciled(spec, st, value, now));
            && r.0 == st.(gray := Some(Tick(s, g, now)))
            && r.1 == Some(DataAt(s, st.previous.value.replicas, value.replicas, g, now))
            && r.2 == (if Over(s, g, now) then 0 else RemainTime(s, g, now))
            && (r.0 != st ==> r.2 == 0)
  {
    var (s, g) := (Strategy(spec, st), st.gray.value);
    WrapSmall(g.percent + s.changePercent);
    assert Updated(spec, st, value, now) == st && CappedStatus(spec, st) == st;
    hide Wrap32, GrayData, RemainTime, Updated, CappedStatus;
  }

  /** The status after reconciles at the times ts, all fetching value. */
  ghost function After(spec: Spec, st: Status, value: PortraitValue, ts: seq<int>): (r: Status)
    requires Rollout(spec, st, value)
    ensures r == st.(gray := Some(Ticks(Strategy(spec, st), st.gray.value, ts)))
    ensures Rollout(spec, r, value)
    decreases |ts|
  {
    if ts == [] then st
    else
      var before := After(spec, st, value, ts[..|ts| - 1]);
      RolloutStep(spec, before, value, ts[|ts| - 1]);
      Reconciled(spec, before, value, ts[|ts| - 1]).0
  }

  function Distance(a: int, b: int): int { Max(a - b, b - a) }

  lemma TickGrows(s: GrayStrategy, g: GrayStatus, now: int)
    requires Legal(s) && 0 <= g.percent <= 100
    ensures g.percent <= Tick(s, g, now).percent <= 100
  {
  }

  lemma {:induction false} TicksGrow(s: GrayStrategy, g: GrayStatus, ts: seq<int>, i: nat, j: nat)
    requires Legal(s) && 0 <= g.percent <= 100 && i <= j <= |ts|
    ensures 0 <= g.percent <= Ticks(s, g, ts[..i]).percent <= Ticks(s, g, ts[..j]).percent <= 100
    decreases i + j
  {
    hide Tick, Legal;
    if 0 < i {
      TicksGrow(s, g, ts, i - 1, i - 1);
      assert ts[..i][..i - 1] == ts[..i - 1];
      TickGrows(s, Ticks(s, g, ts[..i - 1]), ts[i - 1]);
    }
    if i < j {
      TicksGrow(s, g, ts, i, j - 1);
      assert ts[..j][..j - 1] == ts[..j - 1];
      TickGrows(s, Ticks(s, g, ts[..j - 1]), ts[j - 1]);
    }
  }

  /** The data of one reconcile: the online replicas have moved from previous
      towards current by the gray count of the new percentage; on the way down
      the moved pods are in the gray state, if that is Cutoff or Standby, until
      the rollout is over. */
  lemma DataMeaning(s: GrayStrategy, previous: int, current: int, g: GrayStatus, now: int)
    requires Legal(s) && 0 <= g.percent <= 100 && previous != current
    requires 0 <= previous <= 0x7fff_ffff && 0 <= current <= 0x7fff_ffff && Distance(previous, current) <= MAX_DIFF
    ensures var (d, percent) := (DataAt(s, previous, current, g, now), Tick(s, g, now).percent);
            var count := GrayCount(Distance(previous, current), percent);
            && d.online == (if current > previous then previous + count else previous - count)
            && 1 <= Distance(previous, d.online) == count <= Distance(previous, current)
            && (d.online == current <==> percent == 100 || Distance(previous, current) == 1)
            && (current < previous && !Over(s, g, now) ==>
                  d.cutoff == (if s.grayState == Cutoff then count else 0)
                  && d.standby == (if s.grayState == Standby then count else 0))
            && (current > previous || Over(s, g, now) ==> d.cutoff == d.standby == 0)
  {
    var percent := Tick(s, g, now).percent;
    TickGrows(s, g, now);
    CountIsExact(Distance(previous, current), percent);
    DataIsExact(s, previous, current, percent);
    hide GrayCount, GrayData, RemainTime;
  }

  /** Through a rollout the online replicas move monotonically from the previous
      to the current count, by at least one pod, never past it. */
  lemma OnlineMovesMonotonically(s: GrayStrategy, previous: int, current: int, g: GrayStatus,
                                 ts: seq<int>, i: nat, j: nat)
    requires Legal(s) && 0 <= g.percent <= 100 && previous != current && i <= j < |ts|
    requires 0 <= previous <= 0x7fff_ffff && 0 <= current <= 0x7fff_ffff && Distance(previous, current) <= MAX_DIFF
    ensures var di := DataAt(s, previous, current, Ticks(s, g, ts[..i]), ts[i]);
            var dj := DataAt(s, previous, current, Ticks(s, g, ts[..j]), ts[j]);
            && 1 <= Distance(previous, di.online) <= Distance(previous, dj.online) <= Distance(previous, current)
            && (current > previous ==> previous < di.online <= dj.online <= current)
            && (current < previous ==> previous > di.online >= dj.online >= current)
  {
    var (gi, gj) := (Ticks(s, g, ts[..i]), Ticks(s, g, ts[..j]));
    TicksGrow(s, g, ts, i, j);
    TicksGrow(s, g, ts, i + 1, j + 1);
    assert ts[..i + 1][..i] == ts[..i] && ts[..j + 1][..j] == ts[..j];
    hide DataAt, Tick, GrayCount, Legal;
    DataMeaning(s, previous, current, gi, ts[i]);
    DataMeaning(s, previous, current, gj, ts[j]);
    CountGrows(Distance(previous, current), Tick(s, gi, ts[i]).percent, Tick(s, gj, ts[j]).percent);
  }

  // ----- Who calls the controller again

  /** Every firing after the first changes the replica data. */
  ghost predicate EveryFiringShows(s: GrayStrategy, previous: int, current: int) {
    forall k: nat :: k >= 1 && k * s.changePercent < 100 ==>
      GrayData(s, previous, current, k * s.changePercent)
      != GrayData(s, previous, current, Min(100, k * s.changePercent + s.changePercent))
  }

  predicate Exact(s: GrayStrategy, previous: int, current: int) {
    && Legal(s) && previous != current && Distance(previous, current) <= MAX_DIFF
    && 0 <= previous <= 0x7fff_ffff && 0 <= current <= 0x7fff_ffff
  }

  /** A rollout keeps triggering itself, by changing the replica profile in every
      firing, if and only if each firing is worth at least one pod. */
  lemma SelfDrivenIff(s: GrayStrategy, previous: int, current: int)
    requires Exact(s, previous, current)
    ensures EveryFiringShows(s, previous, current) <==> Distance(previous, current) * s.changePercent >= 100
  {
    hide GrayData, GrayCount;
    var (diff, p) := (Distance(previous, current), s.changePercent);
    if diff * p >= 100 {
      forall k: nat | k >= 1 && k * p < 100
        ensures GrayData(s, previous, current, k * p) != GrayData(s, previous, current, Min(100, k * p + p))
      {
        MulMono(p, 1, k);
        FiringShows(diff, p, k * p);
        DataShowsCount(s, previous, current, k * p, Min(100, k * p + p));
      }
    } else {
      SecondFiringIsHidden(diff, p);
      DataShowsCount(s, previous, current, p, Min(100, p + p));
      assert 1 * p == p;
    }
  }

  /** The replica data shows the gray count and nothing else of the percentage. */
  lemma DataShowsCount(s: GrayStrategy, previous: int, current: int, a: int, b: int)
    requires Exact(s, previous, current) && 0 <= a <= 100 && 0 <= b <= 100
    ensures var diff := Distance(previous, current);
            var same := GrayCount(diff, a) == GrayCount(diff, b);
            GrayData(s, previous, current, a) == GrayData(s, previous, current, b) <==> same
  {
    DataIsExact(s, previous, current, a);
    DataIsExact(s, previous, current, b);
    hide GrayData, GrayCount;
  }

  /** Less than two hundred hundredths count as one pod. */
  lemma HalfFull(x: int)
    requires x >= 0
    ensures x < 200 ==> Max(1, x / 100) == 1
  {
  }

  lemma FiringShows(diff: int, p: int, g: int)
    requires 1 <= diff <= MAX_DIFF && 1 <= p <= g < 100 && diff * p >= 100
    ensures GrayCount(diff, g) < GrayCount(diff, Min(100, g + p))
  {
    CountIsExact(diff, g);
    CountIsExact(diff, Min(100, g + p));
    hide GrayCount;
    MulMono(diff, p, g);
    MulPlus(diff, g, p);
    OneMore(diff * g, diff * p);
  }

  lemma MulPlus(a: int, b: int, c: int)
    ensures a * (b + c) == a * b + a * c
  {
  }

  /** A hundred hundredths more count as one pod more. */
  lemma OneMore(x: int, more: int)
    requires x >= 100 && more >= 100
    ensures 1 <= x / 100 < (x + more) / 100
  {
  }

  lemma SecondFiringIsHidden(diff: int, p: int)
    requires 1 <= diff <= MAX_DIFF && 1 <= p <= 100 && diff * p < 100
    ensures p < 100 && GrayCount(diff, p) == GrayCount(diff, Min(100, p + p))
  {
    CountIsExact(diff, p);
    CountIsExact(diff, Min(100, p + p));
    hide GrayCount;
    MulMono(p, 1, diff);
    MulMono(p, 2, Max(2, diff));
    MulPlus(diff, p, p);
    HalfFull(diff * p);
    HalfFull(diff * (p + p));
  }

  // ----- A new value in the middle of a rollout

  /** A new value restarts the rollout from the old target, not from where the rollout
      has come: the first step of the new rollout, or the new count itself if no gray
      strategy applies to it, for instance because only the expiry is new. */
  lemma NewValueStartsFromTarget(spec: Spec, st: Status, old_: PortraitValue, value: PortraitValue, now: int)
    requires Rollout(spec, st, old_) && value != old_ && InRange(spec, value.replicas)
    ensures Ready(spec, Updated(spec, st, value, now))
    ensures var (next, data) := (Updated(spec, st, value, now), Reconciled(spec, st, value, now).1);
            && next.previous == Some(old_)
            && (GrayActive(spec, next) && Legal(Strategy(spec, next)) ==>
                  var s := Strategy(spec, next);
                  data == Some(GrayData(s, old_.replicas, value.replicas, s.changePercent)))
            && (!GrayActive(spec, next) ==> data == Some(ReplicaData(value.replicas, 0, 0)))
  {
    assert Capped(spec, value.replicas) == value.replicas;
    var next := Updated(spec, st, value, now);
    assert CappedStatus(spec, next) == next;
    if GrayActive(spec, next) && Legal(Strategy(spec, next)) {
      WrapSmall(Strategy(spec, next).changePercent);
    }
    hide Wrap32, GrayData;
  }

  function Signed(up: bool, n: int): int { if up then n else -n }

  /** What a rollout shows online at a percentage: it has some pods left to its target. */
  lemma ShownOnline(s: GrayStrategy, previous: int, target: int, percent: int)
    requires Exact(s, previous, target) && 0 <= percent <= 100
    ensures var (diff, online) := (Distance(previous, target), GrayData(s, previous, target, percent).online);
            var rest := diff - GrayCount(diff, percent);
            && online == target - Signed(target > previous, rest)
            && 0 <= rest < diff
            && (rest == 0 <==> percent == 100 || diff == 1)
  {
    DataIsExact(s, previous, target, percent);
    CountIsExact(Distance(previous, target), percent);
    hide GrayData, GrayCount;
  }

  /** A new value during a rollout from previous to target: the replica profile goes from
      what the rollout shows to what the new value makes. rest is what the rollout had
      left, first is the first step of a new rollout. */
  ghost predicate Jumps(shown: int, online: int, previous: int, target: int, rest: int, value: int, first: int) {
    online - shown == Signed(target > previous, rest) + Signed(value > target, first)
  }

  /** The online pods jump by what the rollout had left, plus the first step from the old
      target if a gray strategy applies to the new value. Then they stay where they are
      if and only if the new value turns back and its first step is just the rest. */
  lemma JumpToNewRollout(spec: Spec, st: Status, old_: PortraitValue, value: PortraitValue, now: int)
    requires Rollout(spec, st, old_) && value != old_ && InRange(spec, value.replicas)
    requires var next := Updated(spec, st, value, now);
             GrayActive(spec, next) && Exact(Strategy(spec, next), old_.replicas, value.replicas)
    ensures var (previous, target, percent) := (st.previous.value.replicas, old_.replicas, st.gray.value.percent);
            var shown := GrayData(Strategy(spec, st), previous, target, percent).online;
            var online := GrayDataOf(spec, st, value, now).online;
            var rest := Distance(previous, target) - GrayCount(Distance(previous, target), percent);
            var changePercent := Strategy(spec, Updated(spec, st, value, now)).changePercent;
            var first := GrayCount(Distance(target, value.replicas), changePercent);
            && Jumps(shown, online, previous, target, rest, value.replicas, first)
            && (online == shown <==> rest == first && (target > previous <==> value.replicas < target))
  {
    var (s, s') := (Strategy(spec, st), Strategy(spec, Updated(spec, st, value, now)));
    var (previous, target) := (st.previous.value.replicas, old_.replicas);
    hide GrayData, GrayCount, Updated, Reconciled, Strategy, GrayActive, Signed, Jumps;
    NewValueStartsFromTarget(spec, st, old_, value, now);
    ShownOnline(s, previous, target, st.gray.value.percent);
    FirstStep(s', target, value.replicas);
    var rest := Distance(previous, target) - GrayCount(Distance(previous, target), st.gray.value.percent);
    var first := GrayCount(Distance(target, value.replicas), s'.changePercent);
    JumpsIff(GrayData(s, previous, target, st.gray.value.percent).online, GrayDataOf(spec, st, value, now).online,
             previous, target, rest, value.replicas, first);
  }

  lemma FirstStep(s: GrayStrategy, target: int, value: int)
    requires Exact(s, target, value)
    ensures var first := GrayCount(Distance(target, value), s.changePercent);
            GrayData(s, target, value, s.changePercent).online == target + Signed(value > target, first) && first >= 1
  {
    DataIsExact(s, target, value, s.changePercent);
    CountIsExact(Distance(target, value), s.changePercent);
    hide GrayData, GrayCount;
  }

  lemma JumpsIff(shown: int, online: int, previous: int, target: int, rest: int, value: int, first: int)
    requires previous != target && target != value && rest >= 0 && first >= 1
    requires shown == target - Signed(target > previous, rest) && online == target + Signed(value > target, first)
    ensures Jumps(shown, online, previous, target, rest, value, first)
    ensures online == shown <==> rest == first && (target > previous <==> value < target)
  {
  }

  function GrayDataOf(spec: Spec, st: Status, value: PortraitValue, now: int): ReplicaData
    requires !spec.preview && Ready(spec, Updated(spec, st, value, now))
  {
    Reconciled(spec, st, value, now).1.value
  }

  /** If no gray strategy applies to the new value, they jump to it, by what the rollout
      had left and the way from the old target. */
  lemma JumpToNewValue(spec: Spec, st: Status, old_: PortraitValue, value: PortraitValue, now: int)
    requires Rollout(spec, st, old_) && value != old_ && InRange(spec, value.replicas)
    requires !GrayActive(spec, Updated(spec, st, value, now))
    ensures var (previous, target, percent) := (st.previous.value.replicas, old_.replicas, st.gray.value.percent);
            var shown := GrayData(Strategy(spec, st), previous, target, percent).online;
            var online := GrayDataOf(spec, st, value, now).online;
            var rest := Distance(previous, target) - GrayCount(Distance(previous, target), percent);
            && Jumps(shown, online, previous, target, rest, value.replicas, Distance(target, value.replicas))
            && (online == shown <==> value.replicas == target - Signed(target > previous, rest))
            && (value.replicas == target ==> (online == shown <==> percent == 100 || Distance(previous, target) == 1))
  {
    NewValueStartsFromTarget(spec, st, old_, value, now);
    ShownOnline(Strategy(spec, st), st.previous.value.replicas, old_.replicas, st.gray.value.percent);
    hide GrayData, GrayCount, Updated, Reconciled, Strategy, GrayActive;
  }
}
