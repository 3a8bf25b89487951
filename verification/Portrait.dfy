/** The evaluation of a horizontal portrait, pkg/portrait/provider/dynamic.go, and
    the triggers that announce the next evaluation, pkg/portrait/provider/common.go.
    Times are whole seconds; one evaluation reads the clock once. */
module Portrait {
  import opened Common
  import opened Cron
  import opened Gray

  datatype Point = Point(time: int, replicas: int)

  datatype Body = StaticData(replicas: int) | CronData(crons: seq<ReplicaCron>) | SeriesData(points: seq<Point>)

  datatype Data = Data(expire: Option<int>, body: Body)

  /** Crashed stands for the out-of-range access of an empty series. */
  datatype Outcome = NoValue | HasValue(value: PortraitValue) | Error | Crashed

  /** What an evaluation does with the timer of its portrait. */
  datatype Arming = StopAll | Leave | Arm(time: int)

  predicate Sorted(points: seq<Point>) { forall i, j :: 0 <= i < j < |points| ==> points[i].time <= points[j].time }

  /** The last point that has taken effect, or -1. */
  function Latest(points: seq<Point>, now: int): (i: int)
    ensures -1 <= i < |points|
    ensures i >= 0 ==> points[i].time <= now
    ensures forall k :: i < k < |points| ==> points[k].time > now
  {
    if points == [] then -1
    else if points[|points| - 1].time <= now then |points| - 1
    else Latest(points[..|points| - 1], now)
  }

  function Sooner(a: Option<int>, b: int): int { if a.None? || b < a.value then b else a.value }

  predicate Expired(data: Data, now: int) { data.expire.Some? && now >= data.expire.value }

  function ValueOf(provider: string, replicas: int, expire: Option<int>): Outcome {
    if replicas > 0 then HasValue(PortraitValue(provider, replicas, expire)) else NoValue
  }

  function ArmAt(expire: Option<int>): Arming { if expire.Some? then Arm(expire.value) else Leave }

  /** The value of a portrait at a time, and the timer for its next evaluation. */
  function Evaluate(cal: Calendar, provider: string, data: Data, now: int): (Outcome, Arming) {
    if Expired(data, now) then (NoValue, StopAll)
    else match data.body
      case StaticData(replicas) => (ValueOf(provider, replicas, data.expire), ArmAt(data.expire))
      case CronData(crons) =>
        (match ActiveCron(cal, crons, now)
         case Failed => (Error, Leave)
         case Nobody => (NoValue, ArmAt(data.expire))
         case Active(rc, until) =>
           (ValueOf(provider, rc.replicas, Some(Sooner(data.expire, until))),
            if data.expire.None? || until < data.expire.value then Leave else ArmAt(data.expire)))
      case SeriesData(points) =>
        var i := Latest(points, now);
        if i < 0 then
          if points == [] then (Crashed, Leave) else (NoValue, Arm(Sooner(data.expire, points[0].time)))
        else
          var expire := if i < |points| - 1 then Some(Sooner(data.expire, points[i + 1].time)) else data.expire;
          (ValueOf(provider, points[i].replicas, expire), ArmAt(expire))
  }

  // ----- What a value is

  /** The value that an offer of replicas makes: none for no replicas. */
  predicate IsValue(o: Outcome, provider: string, replicas: int, expire: Option<int>) {
    && (replicas > 0 ==> o.HasValue? && o.value.provider == provider)
    && (replicas > 0 ==> o.value.replicas == replicas && o.value.expire == expire)
    && (replicas <= 0 ==> o == NoValue)
  }

  /** e is the sooner of two times, of which one may be missing. */
  predicate IsSooner(e: Option<int>, a: Option<int>, b: Option<int>) {
    && e in {a, b}
    && (e.None? ==> a.None? && b.None?)
    && (e.Some? ==> (a.Some? ==> e.value <= a.value) && (b.Some? ==> e.value <= b.value))
  }

  lemma ExpiredMeaning(cal: Calendar, provider: string, data: Data, now: int)
    requires data.expire.Some? && now >= data.expire.value
    ensures Evaluate(cal, provider, data, now) == (NoValue, StopAll)
  {
  }

  /** Static data has its own replicas until its own expiry, for which a timer is armed. */
  lemma StaticMeaning(cal: Calendar, provider: string, expire: Option<int>, replicas: int, now: int)
    requires expire.Some? ==> now < expire.value
    ensures var (o, arming) := Evaluate(cal, provider, Data(expire, StaticData(replicas)), now);
            && IsValue(o, provider, replicas, expire)
            && arming == if expire.Some? then Arm(expire.value) else Leave
  {
  }

  /** Cron data has the replicas of its only active rule, until the rule ends or the data
      expires; a timer is armed only if the data expires first. */
  lemma CronMeaning(cal: Calendar, provider: string, expire: Option<int>, crons: seq<ReplicaCron>, now: int, i: nat)
    requires (expire.Some? ==> now < expire.value) && i < |crons|
    requires forall j :: 0 <= j < |crons| ==> WellFormed(cal, crons[j], now)
    requires forall j :: 0 <= j < |crons| ==> (IsActive(cal, crons[j], now) <==> j == i)
    ensures var (o, arming) := Evaluate(cal, provider, Data(expire, CronData(crons)), now);
            var end := NextEnd(cal, crons[i], now);
            && (exists e :: IsSooner(e, Some(end), expire) && IsValue(o, provider, crons[i].replicas, e))
            && arming == if expire.Some? && expire.value <= end then Arm(expire.value) else Leave
  {
    OnlyActiveRule(cal, crons, now, i);
    hide ActiveCron, IsActive, WellFormed, NextEnd;
    assert IsSooner(Some(Sooner(expire, NextEnd(cal, crons[i], now))), Some(NextEnd(cal, crons[i], now)), expire);
  }

  /** It has no value while no rule is active, and is an error exactly if a rule is
      malformed or two are active. */
  lemma CronWithoutRule(cal: Calendar, provider: string, expire: Option<int>, crons: seq<ReplicaCron>, now: int)
    requires expire.Some? ==> now < expire.value
    ensures var (o, arming) := Evaluate(cal, provider, Data(expire, CronData(crons)), now);
            && (o == Error <==> HasMalformed(cal, crons, now) || HasOverlap(cal, crons, now))
            && (o == Error ==> arming == Leave)
            && (o != Error && (forall j :: 0 <= j < |crons| ==> !IsActive(cal, crons[j], now)) ==>
                  o == NoValue && arming == if expire.Some? then Arm(expire.value) else Leave)
  {
    ActiveCronMeaning(cal, crons, now);
    hide ActiveCron, IsActive, WellFormed, NextEnd, HasMalformed, HasOverlap;
  }

  /** A series has exactly the replicas of its last point at or before now, until its next
      point or its expiry, for which a timer is armed. */
  lemma SeriesMeaning(cal: Calendar, provider: string, expire: Option<int>, points: seq<Point>, now: int, i: nat)
    requires (expire.Some? ==> now < expire.value) && i < |points| && points[i].time <= now
    requires forall k :: i < k < |points| ==> points[k].time > now
    ensures var (o, arming) := Evaluate(cal, provider, Data(expire, SeriesData(points)), now);
            var next := if i + 1 < |points| then Some(points[i + 1].time) else None;
            exists e :: && IsSooner(e, next, expire) && IsValue(o, provider, points[i].replicas, e)
                        && arming == if e.Some? then Arm(e.value) else Leave
  {
    assert Latest(points, now) == i;
    hide Latest;
    var next := if i + 1 < |points| then Some(points[i + 1].time) else None;
    var e := if next.Some? then Some(Sooner(expire, next.value)) else expire;
    assert IsSooner(e, next, expire);
  }

  /** Before its first point a series has no value, and a timer is armed for that point or
      the expiry. */
  lemma SeriesNotBegun(cal: Calendar, provider: string, expire: Option<int>, points: seq<Point>, now: int)
    requires (expire.Some? ==> now < expire.value) && points != []
    requires forall k :: 0 <= k < |points| ==> points[k].time > now
    ensures var (o, arming) := Evaluate(cal, provider, Data(expire, SeriesData(points)), now);
            o == NoValue && arming.Arm? && IsSooner(Some(arming.time), Some(points[0].time), expire)
  {
    assert Latest(points, now) == -1;
    hide Latest;
  }

  // ----- The triggers

  /** The timers of the portraits. An entry stays when its timer has fired;
      waiting holds the timers that will still fire. */
  class TimerTriggerManager {
    var timers: map<string, int>
    ghost var waiting: map<string, int>

    /** Every entry in the future has a timer waiting, and no other timer waits. */
    ghost predicate Valid(now: int)
      reads this
    {
      && (forall k :: k in timers && timers[k] > now ==> k in waiting)
      && (forall k :: k in waiting ==> k in timers && waiting[k] == timers[k] > now)
    }

    constructor ()
      ensures forall now :: Valid(now)
      ensures timers == map[]
    {
      timers := map[];
      waiting := map[];
    }

    /** Whatever the entry was, a timer for a future time is waiting afterwards. */
    method StartTimerTrigger(key: string, t: int, now: int)
      requires Valid(now)
      modifies this
      ensures Valid(now) && timers == old(timers)[key := t]
      ensures waiting == if t > now then old(waiting)[key := t] else old(waiting) - {key}
    {
      if key in timers {
        if timers[key] == t {
          return;
        }
        timers := timers - {key};
        waiting := waiting - {key};
      }
      timers := timers[key := t];
      if t > now {
        waiting := waiting[key := t];
      }
    }

    method StopTimerTrigger(key: string, ghost now: int)
      requires Valid(now)
      modifies this
      ensures Valid(now) && timers == old(timers) - {key} && waiting == old(waiting) - {key}
    {
      if key in timers {
        timers := timers - {key};
        waiting := waiting - {key};
      }
    }

    /** Time passes: exactly the timers that are due send their event. */
    ghost method Pass(now: int, later: int) returns (events: set<string>)
      requires Valid(now) && now <= later
      modifies this`waiting
      ensures Valid(later)
      ensures events == set k | k in old(waiting) && old(waiting)[k] <= later
      ensures waiting == old(waiting) - events
    {
      events := set k | k in waiting && waiting[k] <= later;
      waiting := waiting - events;
    }
  }

  /** The cron tasks of the portraits; the hash that the source compares is taken
      to be injective, so the rules themselves are compared. */
  class CronTaskTriggerManager {
    var tasks: map<string, seq<ReplicaCron>>

    constructor ()
      ensures tasks == map[]
    {
      tasks := map[];
    }

    method StartCronTaskTrigger(cal: Calendar, key: string, crons: seq<ReplicaCron>, now: int) returns (ok: bool)
      modifies this
      ensures ok ==> tasks == old(tasks)[key := crons]
      ensures ok && !old(key in tasks && tasks[key] == crons) ==> !HasMalformed(cal, crons, now)
      ensures !ok ==> tasks == old(tasks) - {key} && exists i :: 0 <= i < |crons| && !WellFormed(cal, crons[i], now)
    {
      if key in tasks {
        if tasks[key] == crons {
          return true;
        }
        tasks := tasks - {key};
      }
      for i := 0 to |crons|
        invariant forall k :: 0 <= k < i ==> WellFormed(cal, crons[k], now)
      {
        if cal(crons[i].zone, crons[i].start, now).None? || cal(crons[i].zone, crons[i].end, now).None? {
          return false;
        }
      }
      tasks := tasks[key := crons];
      return true;
    }

    method StopCronTaskTrigger(key: string)
      modifies this
      ensures tasks == old(tasks) - {key}
    {
      tasks := tasks - {key};
    }
  }

  lemma MalformedFails(cal: Calendar, crons: seq<ReplicaCron>, now: int)
    requires HasMalformed(cal, crons, now)
    ensures ActiveCron(cal, crons, now).Failed?
  {
    ActiveCronMeaning(cal, crons, now);
  }

  /** The backward scan of a series. */
  method FindLatest(points: seq<Point>, now: int) returns (i: int)
    ensures i == Latest(points, now)
  {
    i := |points| - 1;
    while i >= 0 && points[i].time > now
      invariant -1 <= i < |points|
      invariant Latest(points, now) == Latest(points[..i + 1], now)
    {
      assert points[..i + 1][..i] == points[..i];
      i := i - 1;
    }
    assert i >= 0 ==> points[..i + 1][i] == points[i];
  }

  class DynamicHorizontal {
    const crons: CronTaskTriggerManager
    const timers: TimerTriggerManager

    constructor ()
      ensures fresh(crons) && fresh(timers) && crons.tasks == map[] && timers.timers == map[]
      ensures forall now :: timers.Valid(now)
    {
      crons := new CronTaskTriggerManager();
      timers := new TimerTriggerManager();
    }

    /** buildPortraitValue: the value of Evaluate, with its timer armed, and the cron
        task of the data running unless a rule is malformed. */
    method BuildPortraitValue(cal: Calendar, key: string, provider: string, data: Data, now: int)
      returns (outcome: Outcome)
      requires timers.Valid(now)
      modifies crons, timers
      ensures timers.Valid(now)
      ensures outcome == Evaluate(cal, provider, data, now).0
      ensures match Evaluate(cal, provider, data, now).1
              case StopAll => timers.timers == old(timers.timers) - {key} && crons.tasks == old(crons.tasks) - {key}
              case Leave => timers.timers == old(timers.timers)
              case Arm(t) => timers.timers == old(timers.timers)[key := t]
      ensures !data.body.CronData? && !Expired(data, now) ==> crons.tasks == old(crons.tasks)
      ensures data.body.CronData? && !Expired(data, now) ==>
                || crons.tasks == old(crons.tasks)[key := data.body.crons]
                || (outcome == Error && crons.tasks == old(crons.tasks) - {key}
                    && HasMalformed(cal, data.body.crons, now))
    {
      hide ActiveCron, WellFormed, Latest;
      if data.expire.Some? && now >= data.expire.value {
        crons.StopCronTaskTrigger(key);
        timers.StopTimerTrigger(key, now);
        return NoValue;
      }
      var replicas := 0;
      var expire := data.expire;
      var needTimer := true;
      var triggerTime: Option<int> := None;
      match data.body {
        case StaticData(n) =>
          replicas := n;
        case CronData(rules) =>
          var ok := crons.StartCronTaskTrigger(cal, key, rules, now);
          if !ok {
            MalformedFails(cal, rules, now);
            return Error;
          }
          var active := GetActiveReplicaCron(cal, rules, now);
          if active.Failed? {
            return Error;
          }
          if active.Active? {
            replicas := active.cron.replicas;
            if expire.None? || active.until < expire.value {
              expire := Some(active.until);
              needTimer := false;
            }
          }
        case SeriesData(points) =>
          var i := FindLatest(points, now);
          if i >= 0 {
            replicas := points[i].replicas;
            if i < |points| - 1 && (expire.None? || points[i + 1].time < expire.value) {
              expire := Some(points[i + 1].time);
            }
          } else if points == [] {
            return Crashed;
          } else {
            triggerTime := Some(points[0].time);
          }
      }
      if expire.Some? && (triggerTime.None? || expire.value < triggerTime.value) {
        triggerTime := expire;
      }
      if needTimer && triggerTime.Some? {
        timers.StartTimerTrigger(key, triggerTime.value, now);
      }
      if replicas > 0 {
        return HasValue(PortraitValue(provider, replicas, expire));
      }
      return NoValue;
    }
  }
}
