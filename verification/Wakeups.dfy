/** No wake-up is missed: between two triggers the selected portrait value stays
    what it was. The selection is updateAndFetchPortraitValue's loop over the
    providers, controllers/autoscaling/intelligenthorizontalpodautoscaler_controller.go. */
module Wakeups {
  import opened Common
  import opened Cron
  import opened Gray
  import opened Portrait

  /** The data promises an ascending series. */
  predicate Usable(data: Data) { data.body.SeriesData? ==> Sorted(data.body.points) }

  /** No trigger set up by the evaluation at t goes off in (t, u]. */
  predicate Quiet(cal: Calendar, data: Data, t: int, u: int) {
    && (var arming := Evaluate(cal, "", data, t).1; arming.Arm? ==> arming.time > u)
    && (data.body.CronData? && !Expired(data, t) ==>
          forall i :: 0 <= i < |data.body.crons| ==> NoInstant(cal, data.body.crons[i], t, u))
  }

  lemma {:induction false} LatestIs(points: seq<Point>, now: int, i: int)
    requires Sorted(points) && -1 <= i < |points|
    requires i >= 0 ==> points[i].time <= now
    requires i < |points| - 1 ==> points[i + 1].time > now
    ensures Latest(points, now) == i
  {
  }

  /** A timer is only armed for the future. */
  lemma ArmedInFuture(cal: Calendar, provider: string, data: Data, t: int)
    requires IsCalendar(cal)
    ensures var arming := Evaluate(cal, provider, data, t).1; arming.Arm? ==> arming.time > t
  {
    hide IsCalendar, ActiveCron;
  }

  predicate Fails(o: Outcome) { o.Error? || o.Crashed? }

  /** The series is empty, or the rules are malformed or overlap. */
  ghost predicate Unusable(cal: Calendar, data: Data, t: int) {
    match data.body
    case StaticData(_) => false
    case CronData(crons) => HasMalformed(cal, crons, t) || HasOverlap(cal, crons, t)
    case SeriesData(points) => points == []
  }

  lemma FailsIffUnusable(cal: Calendar, provider: string, data: Data, t: int)
    ensures Fails(Evaluate(cal, provider, data, t).0) <==> !Expired(data, t) && Unusable(cal, data, t)
  {
    hide ActiveCron, HasMalformed, HasOverlap;
    if data.body.CronData? {
      ActiveCronMeaning(cal, data.body.crons, t);
    }
  }

  /** The evaluation that the triggers leave unattended: one that fails sets up no
      timer for the expiry of the data. */
  ghost predicate Unattended(cal: Calendar, data: Data, t: int, u: int) {
    !Expired(data, t) && Expired(data, u) && Unusable(cal, data, t)
  }

  /** Without a trigger the evaluation at u is the one at t, unless the evaluation
      at t failed and the data has expired since. */
  lemma QuietKeepsValue(cal: Calendar, provider: string, data: Data, t: int, u: int)
    requires IsCalendar(cal) && Usable(data) && t <= u && Quiet(cal, data, t, u)
    ensures Evaluate(cal, provider, data, u).0 == Evaluate(cal, provider, data, t).0 <==> !Unattended(cal, data, t, u)
  {
    hide IsCalendar, ActiveCron, NoInstant, Unusable;
    FailsIffUnusable(cal, provider, data, t);
    if !Expired(data, t) {
      match data.body {
        case StaticData(_) =>
        case CronData(crons) =>
          SameCron(cal, crons, t, u);
          CronEndsLater(cal, crons, t, u);
        case SeriesData(points) =>
          LatestIs(points, u, Latest(points, t));
      }
    }
  }

  lemma {:induction false} CronEndsLater(cal: Calendar, crons: seq<ReplicaCron>, t: int, u: int)
    requires IsCalendar(cal) && t <= u && forall i :: 0 <= i < |crons| ==> NoInstant(cal, crons[i], t, u)
    ensures ActiveCron(cal, crons, t).Active? ==> ActiveCron(cal, crons, t).until > u
  {
    hide IsCalendar;
    if crons != [] {
      CronEndsLater(cal, crons[..|crons| - 1], t, u);
    }
  }

  lemma UntilExpiryOrFailure(cal: Calendar, provider: string, data: Data, t: int, u: int)
    requires IsCalendar(cal) && Usable(data) && t <= u
    requires Evaluate(cal, provider, data, t).0.HasValue?
    requires var e := Evaluate(cal, provider, data, t).0.value.expire; e.Some? ==> u < e.value
    ensures var e := Evaluate(cal, provider, data, t).0.value.expire; e.Some? ==> t < e.value
    ensures var later := Evaluate(cal, provider, data, u).0;
            later == Evaluate(cal, provider, data, t).0
            || (later.Error? && data.body.CronData? && ActiveCron(cal, data.body.crons, u).Failed?)
  {
    hide IsCalendar, ActiveCron;
    match data.body {
      case StaticData(_) =>
      case CronData(crons) =>
        EndIsLater(cal, crons, t);
        ActiveStays(cal, crons, t, u);
      case SeriesData(points) =>
        LatestIs(points, u, Latest(points, t));
    }
  }

  lemma StillWellFormed(cal: Calendar, crons: seq<ReplicaCron>, t: int, u: int)
    requires IsCalendar(cal)
    ensures HasMalformed(cal, crons, u) <==> HasMalformed(cal, crons, t)
  {
    assert forall rc :: WellFormed(cal, rc, u) <==> WellFormed(cal, rc, t);
    hide IsCalendar, WellFormed;
  }

  /** A value is right until it expires: at an instant before, the evaluation gives the
      same value if and only if no two cron rules overlap there. */
  lemma ValueUntilExpiry(cal: Calendar, provider: string, data: Data, t: int, u: int)
    requires IsCalendar(cal) && Usable(data) && t <= u
    requires Evaluate(cal, provider, data, t).0.HasValue?
    requires var e := Evaluate(cal, provider, data, t).0.value.expire; e.Some? ==> u < e.value
    ensures var e := Evaluate(cal, provider, data, t).0.value.expire; e.Some? ==> t < e.value
    ensures Evaluate(cal, provider, data, u).0 == Evaluate(cal, provider, data, t).0
       <==> !(data.body.CronData? && HasOverlap(cal, data.body.crons, u))
  {
    hide IsCalendar, ActiveCron, HasMalformed, HasOverlap;
    UntilExpiryOrFailure(cal, provider, data, t, u);
    if data.body.CronData? {
      ActiveCronMeaning(cal, data.body.crons, t);
      ActiveCronMeaning(cal, data.body.crons, u);
      StillWellFormed(cal, data.body.crons, t, u);
    }
  }

  /** A calendar on which an expression of n letters fires at n, n + 10, n + 20, ... */
  function EveryTen(zone: string, expr: string, t: int): Option<int> { Some(t + 1 + (|expr| - t - 1) % 10) }

  /** One rule is active from 0 to 5, the other from 3 to 8. */
  function OverlappingRules(): seq<ReplicaCron> {
    [ReplicaCron("a", "", "", "12345", 2), ReplicaCron("b", "", "123", "12345678", 3)]
  }

  /** A value that expires at 5 is not right at 4, because a second rule starts at 3. */
  lemma OverlapBeforeExpiry()
    ensures var rules := OverlappingRules();
            var (data, value) := (Data(None, CronData(rules)), PortraitValue("p", 2, Some(5)));
            && IsCalendar(EveryTen)
            && Evaluate(EveryTen, "p", data, 1).0 == HasValue(value)
            && Evaluate(EveryTen, "p", data, 4).0 == Error
  {
    var rules := OverlappingRules();
    EveryTenIsCalendar();
    hide IsCalendar;
    var first := rules[..1];
    assert first == [rules[0]] && first[..0] == [];
    assert ActiveCron(EveryTen, first, 1) == ActiveCron(EveryTen, first, 4) == Active(rules[0], 5);
    assert !IsActive(EveryTen, rules[1], 1) && IsActive(EveryTen, rules[1], 4);
  }

  lemma EveryTenIsCalendar()
    ensures IsCalendar(EveryTen)
  {
  }

  // ----- Choosing among the providers

  datatype Source =
    | StaticSource(replicas: int)
    | CronSource(crons: seq<ReplicaCron>)
    | DynamicSource(data: Option<Data>)

  datatype Provider = Provider(name: string, priority: int, source: Source)

  /** FetchPortraitValue of the three kinds of providers. */
  function Fetch(cal: Calendar, p: Provider, now: int): Outcome {
    match p.source
    case StaticSource(replicas) => HasValue(PortraitValue(p.name, replicas, None))
    case CronSource(crons) =>
      (match ActiveCron(cal, crons, now)
       case Failed => Error
       case Nobody => NoValue
       case Active(rc, until) => HasValue(PortraitValue(p.name, rc.replicas, Some(until))))
    case DynamicSource(None) => NoValue
    case DynamicSource(Some(data)) => Evaluate(cal, p.name, data, now).0
  }

  datatype Candidate = Candidate(priority: int, value: PortraitValue)

  predicate Unexpired(v: PortraitValue, now: int) { v.expire.None? || now < v.expire.value }

  predicate Beats(a: Candidate, b: Candidate) {
    a.priority > b.priority || (a.priority == b.priority && a.value.replicas > b.value.replicas)
  }

  datatype Selection = Selected(best: Option<Candidate>) | FetchFailed

  /** The loop over the providers: the first error ends it. */
  function Select(cal: Calendar, ps: seq<Provider>, now: int): Selection {
    if ps == [] then Selected(None)
    else
      var (before, p) := (Select(cal, ps[..|ps| - 1], now), ps[|ps| - 1]);
      if before.FetchFailed? then before
      else match Fetch(cal, p, now)
        case NoValue => before
        case HasValue(v) =>
          var c := Candidate(p.priority, v);
          if Unexpired(v, now) && (before.best.None? || Beats(c, before.best.value)) then Selected(Some(c)) else before
        case _ => FetchFailed
  }

  lemma {:induction false} FailureStays(cal: Calendar, ps: seq<Provider>, now: int, i: nat)
    requires i <= |ps| && Select(cal, ps[..i], now).FetchFailed?
    ensures Select(cal, ps, now).FetchFailed?
    decreases |ps|
  {
    hide Fetch;
    if i < |ps| {
      assert ps[..|ps| - 1][..i] == ps[..i];
      FailureStays(cal, ps[..|ps| - 1], now, i);
    } else {
      assert ps[..i] == ps;
    }
  }

  method SelectPortraitValue(cal: Calendar, ps: seq<Provider>, now: int) returns (r: Selection)
    ensures r == Select(cal, ps, now)
  {
    hide Fetch;
    var candidate: Option<PortraitValue> := None;
    var priority := 0;
    for i := 0 to |ps|
      invariant Select(cal, ps[..i], now)
             == Selected(if candidate.None? then None else Some(Candidate(priority, candidate.value)))
    {
      assert ps[..i + 1][..i] == ps[..i];
      var fetched := Fetch(cal, ps[i], now);
      match fetched {
        case NoValue =>
        case HasValue(v) =>
          if (v.expire.None? || now < v.expire.value)
             && (candidate.None? || ps[i].priority > priority
                 || (ps[i].priority == priority && v.replicas > candidate.value.replicas)) {
            candidate := Some(v);
            priority := ps[i].priority;
          }
        case _ =>
          FailureStays(cal, ps, now, i + 1);
          return FetchFailed;
      }
    }
    assert ps[..|ps|] == ps;
    return Selected(if candidate.None? then None else Some(Candidate(priority, candidate.value)));
  }

  /** The unexpired value that provider i offers. */
  predicate Offers(cal: Calendar, p: Provider, now: int, c: Candidate) {
    Fetch(cal, p, now) == HasValue(c.value) && c.priority == p.priority && Unexpired(c.value, now)
  }

  ghost predicate FailsSome(cal: Calendar, ps: seq<Provider>, now: int) {
    exists i :: 0 <= i < |ps| && Fails(Fetch(cal, ps[i], now))
  }

  ghost predicate OfferedBy(cal: Calendar, ps: seq<Provider>, now: int, c: Candidate) {
    exists i :: 0 <= i < |ps| && Offers(cal, ps[i], now, c)
  }

  /** What the other kinds of providers offer: a static one its replicas without end, ... */
  lemma StaticOffer(cal: Calendar, p: Provider, now: int)
    requires p.source.StaticSource?
    ensures var o := Fetch(cal, p, now);
            && o.HasValue? && o.value.provider == p.name
            && o.value.replicas == p.source.replicas && o.value.expire == None
  {
  }

  /** ... a cron one the replicas of its only active rule until the rule ends, an error
      exactly if a rule is malformed or two are active, and else nothing, ... */
  lemma CronOffer(cal: Calendar, p: Provider, now: int)
    requires p.source.CronSource?
    ensures var (o, crons) := (Fetch(cal, p, now), p.source.crons);
            && (o == Error <==> HasMalformed(cal, crons, now) || HasOverlap(cal, crons, now))
            && (o.HasValue? ==> exists i :: && 0 <= i < |crons| && IsActive(cal, crons[i], now)
                                            && o.value.provider == p.name && o.value.replicas == crons[i].replicas
                                            && o.value.expire == Some(NextEnd(cal, crons[i], now)))
            && (o == NoValue ==> forall i :: 0 <= i < |crons| ==> !IsActive(cal, crons[i], now))
            && !o.Crashed?
  {
    ActiveCronMeaning(cal, p.source.crons, now);
    hide ActiveCron, IsActive, WellFormed, NextEnd, HasMalformed, HasOverlap;
  }

  /** ... and a dynamic one the value of its portrait, if that has data. */
  lemma DynamicOffer(cal: Calendar, p: Provider, now: int)
    requires p.source.DynamicSource?
    ensures p.source.data.None? ==> Fetch(cal, p, now) == NoValue
    ensures p.source.data.Some? ==> Fetch(cal, p, now) == Evaluate(cal, p.name, p.source.data.value, now).0
  {
  }

  /** Provider i has this value, and it has not expired. */
  ghost predicate HasOffer(cal: Calendar, ps: seq<Provider>, now: int, i: int, v: PortraitValue) {
    && 0 <= i < |ps| && Fetch(cal, ps[i], now) == HasValue(v)
    && (v.expire.Some? ==> now < v.expire.value)
  }

  lemma OfferedIffHasOffer(cal: Calendar, ps: seq<Provider>, now: int)
    ensures forall i, v :: HasOffer(cal, ps, now, i, v) ==> OfferedBy(cal, ps, now, Candidate(ps[i].priority, v))
    ensures forall c :: OfferedBy(cal, ps, now, c) ==>
                          exists i :: HasOffer(cal, ps, now, i, c.value) && ps[i].priority == c.priority
  {
    hide Fetch;
    forall i, v | HasOffer(cal, ps, now, i, v) ensures OfferedBy(cal, ps, now, Candidate(ps[i].priority, v)) {
      assert Offers(cal, ps[i], now, Candidate(ps[i].priority, v));
    }
    forall c | OfferedBy(cal, ps, now, c)
      ensures exists i :: HasOffer(cal, ps, now, i, c.value) && ps[i].priority == c.priority
    {
      var i :| 0 <= i < |ps| && Offers(cal, ps[i], now, c);
      assert HasOffer(cal, ps, now, i, c.value);
    }
  }

  /** The selection fails exactly if a fetch fails; otherwise it is an unexpired value of
      the highest priority, and of these one with the most replicas, or nothing if no
      provider has an unexpired value. */
  lemma SelectIsGreatest(cal: Calendar, ps: seq<Provider>, now: int)
    ensures Select(cal, ps, now).FetchFailed? <==> exists i :: 0 <= i < |ps| && Fails(Fetch(cal, ps[i], now))
    ensures var r := Select(cal, ps, now);
            r.Selected? ==>
              && (r.best.None? ==> forall i, v :: !HasOffer(cal, ps, now, i, v))
              && (r.best.Some? ==>
                    && (exists i :: && HasOffer(cal, ps, now, i, r.best.value.value)
                                    && ps[i].priority == r.best.value.priority)
                    && (forall i, v :: HasOffer(cal, ps, now, i, v) ==>
                                         || ps[i].priority < r.best.value.priority
                                         || (ps[i].priority == r.best.value.priority
                                             && v.replicas <= r.best.value.value.replicas)))
  {
    GreatestOffer(cal, ps, now);
    OfferedIffHasOffer(cal, ps, now);
    hide Fetch, Select, OfferedBy, HasOffer;
  }

  lemma {:induction false} GreatestOffer(cal: Calendar, ps: seq<Provider>, now: int)
    ensures Select(cal, ps, now).FetchFailed? <==> FailsSome(cal, ps, now)
    ensures var r := Select(cal, ps, now);
            r.Selected? ==>
              && (r.best.None? ==> forall c :: !OfferedBy(cal, ps, now, c))
              && (r.best.Some? ==> OfferedBy(cal, ps, now, r.best.value)
                                   && forall c :: OfferedBy(cal, ps, now, c) ==> !Beats(c, r.best.value))
  {
    hide Fetch;
    if ps != [] {
      var (init, last) := (ps[..|ps| - 1], |ps| - 1);
      GreatestOffer(cal, init, now);
      assert forall i :: 0 <= i < last ==> ps[i] == init[i];
      forall c ensures OfferedBy(cal, ps, now, c) <==> OfferedBy(cal, init, now, c) || Offers(cal, ps[last], now, c) {
        if OfferedBy(cal, init, now, c) {
          var i :| 0 <= i < |init| && Offers(cal, init[i], now, c);
          assert Offers(cal, ps[i], now, c);
        }
      }
    }
  }

  /** The winning priority and replicas do not depend on the order of the providers. */
  lemma SelectIgnoresOrder(cal: Calendar, ps: seq<Provider>, qs: seq<Provider>, now: int)
    requires multiset(ps) == multiset(qs)
    ensures var (a, b) := (Select(cal, ps, now), Select(cal, qs, now));
            && (a.FetchFailed? <==> b.FetchFailed?)
            && (a.Selected? ==>
                  && (a.best.None? <==> b.best.None?)
                  && (a.best.Some? ==> a.best.value.priority == b.best.value.priority
                                       && a.best.value.value.replicas == b.best.value.value.replicas))
  {
    hide Fetch, Select;
    GreatestOffer(cal, ps, now);
    GreatestOffer(cal, qs, now);
    SameOffers(cal, ps, qs, now);
    SameOffers(cal, qs, ps, now);
  }

  lemma SameOffers(cal: Calendar, ps: seq<Provider>, qs: seq<Provider>, now: int)
    requires multiset(ps) == multiset(qs)
    ensures forall c :: OfferedBy(cal, ps, now, c) ==> OfferedBy(cal, qs, now, c)
    ensures FailsSome(cal, ps, now) ==> FailsSome(cal, qs, now)
  {
    hide Fetch, Offers;
    forall i | 0 <= i < |ps| ensures ps[i] in qs {
      assert ps[i] in multiset(ps);
    }
  }

  // ----- The selection over time

  ghost predicate QuietProvider(cal: Calendar, p: Provider, t: int, u: int) {
    match p.source
    case StaticSource(_) => true
    case CronSource(crons) => forall i :: 0 <= i < |crons| ==> NoInstant(cal, crons[i], t, u)
    case DynamicSource(None) => true
    case DynamicSource(Some(data)) => Usable(data) && Quiet(cal, data, t, u)
  }

  /** The provider's data has failed to be evaluated and has expired since. */
  ghost predicate UnattendedProvider(cal: Calendar, p: Provider, t: int, u: int) {
    p.source.DynamicSource? && p.source.data.Some? && Unattended(cal, p.source.data.value, t, u)
  }

  lemma QuietFetch(cal: Calendar, p: Provider, t: int, u: int)
    requires IsCalendar(cal) && t <= u && QuietProvider(cal, p, t, u) && !UnattendedProvider(cal, p, t, u)
    ensures Fetch(cal, p, u) == Fetch(cal, p, t)
    ensures Fetch(cal, p, u).HasValue? ==> Unexpired(Fetch(cal, p, u).value, t) && Unexpired(Fetch(cal, p, u).value, u)
  {
    hide IsCalendar, ActiveCron, Evaluate, Quiet, Unattended;
    match p.source {
      case StaticSource(_) =>
      case CronSource(crons) =>
        SameCron(cal, crons, t, u);
        CronEndsLater(cal, crons, t, u);
      case DynamicSource(None) =>
      case DynamicSource(Some(data)) =>
        QuietKeepsValue(cal, p.name, data, t, u);
        FreshWhenEvaluated(cal, p.name, data, t);
        FreshWhenEvaluated(cal, p.name, data, u);
    }
  }

  lemma FreshWhenEvaluated(cal: Calendar, provider: string, data: Data, t: int)
    requires IsCalendar(cal)
    ensures var r := Evaluate(cal, provider, data, t).0; r.HasValue? ==> Unexpired(r.value, t)
  {
    hide IsCalendar, ActiveCron;
    if data.body.CronData? && ActiveCron(cal, data.body.crons, t).Active? {
      EndIsLater(cal, data.body.crons, t);
    }
  }

  lemma {:induction false} QuietSelect(cal: Calendar, ps: seq<Provider>, t: int, u: int)
    requires IsCalendar(cal) && t <= u && forall i :: 0 <= i < |ps| ==> QuietProvider(cal, ps[i], t, u)
    requires forall i :: 0 <= i < |ps| ==> !UnattendedProvider(cal, ps[i], t, u)
    ensures Select(cal, ps, u) == Select(cal, ps, t)
  {
    hide IsCalendar, Fetch, QuietProvider, UnattendedProvider, Unexpired;
    if ps != [] {
      QuietSelect(cal, ps[..|ps| - 1], t, u);
      QuietFetch(cal, ps[|ps| - 1], t, u);
    }
  }

  ghost predicate SomeUnattended(cal: Calendar, ps: seq<Provider>, t: int, u: int) {
    exists i :: 0 <= i < |ps| && UnattendedProvider(cal, ps[i], t, u)
  }

  lemma UnattendedFails(cal: Calendar, ps: seq<Provider>, t: int, u: int)
    requires SomeUnattended(cal, ps, t, u)
    ensures FailsSome(cal, ps, t)
  {
    hide Unusable, Evaluate;
    var i :| 0 <= i < |ps| && UnattendedProvider(cal, ps[i], t, u);
    FailsIffUnusable(cal, ps[i].name, ps[i].source.data.value, t);
    assert Fails(Fetch(cal, ps[i], t));
  }

  /** Without a trigger the whole selection stays the same, unless it failed for data
      that has expired since and nothing else fails now. */
  lemma NoMissedWakeup(cal: Calendar, ps: seq<Provider>, t: int, u: int)
    requires IsCalendar(cal) && t <= u && forall i :: 0 <= i < |ps| ==> QuietProvider(cal, ps[i], t, u)
    ensures Select(cal, ps, u) == Select(cal, ps, t) <==> !SomeUnattended(cal, ps, t, u) || FailsSome(cal, ps, u)
  {
    hide IsCalendar, Fetch, Select, QuietProvider, UnattendedProvider, FailsSome;
    GreatestOffer(cal, ps, t);
    GreatestOffer(cal, ps, u);
    if SomeUnattended(cal, ps, t, u) {
      UnattendedFails(cal, ps, t, u);
    } else {
      QuietSelect(cal, ps, t, u);
    }
  }

  /** The case of the exception: two rules overlap at 3, their data expires at 4, and no
      trigger goes off in between, but the selection fails at 3 and is empty at 4. */
  lemma MissedWakeup()
    ensures var rules := OverlappingRules();
            var p := Provider("p", 1, DynamicSource(Some(Data(Some(4), CronData(rules)))));
            && IsCalendar(EveryTen) && QuietProvider(EveryTen, p, 3, 4)
            && Select(EveryTen, [p], 3) == FetchFailed
            && Select(EveryTen, [p], 4) == Selected(None)
  {
    var rules := OverlappingRules();
    var p := Provider("p", 1, DynamicSource(Some(Data(Some(4), CronData(rules)))));
    EveryTenIsCalendar();
    hide IsCalendar;
    assert IsActive(EveryTen, rules[0], 3) && IsActive(EveryTen, rules[1], 3);
    assert HasOverlap(EveryTen, rules, 3);
    ActiveCronMeaning(EveryTen, rules, 3);
    hide ActiveCron, HasOverlap;
    assert forall i :: 0 <= i < |rules| ==> NoInstant(EveryTen, rules[i], 3, 4);
    assert [p][..0] == [];
  }

  /** An instant of the data's cron rules lies in (t, u]. */
  ghost predicate HasInstant(cal: Calendar, data: Data, t: int, u: int) {
    data.body.CronData? && exists i :: 0 <= i < |data.body.crons| && !NoInstant(cal, data.body.crons[i], t, u)
  }

  /** Malformed rules, for which no task runs, stay an error until their data expires. */
  lemma MalformedStays(cal: Calendar, provider: string, data: Data, t: int, u: int)
    requires IsCalendar(cal) && t <= u
    ensures data.body.CronData? && !Expired(data, t) && HasMalformed(cal, data.body.crons, t) ==>
              Unattended(cal, data, t, u) || Evaluate(cal, provider, data, u).0 == Evaluate(cal, provider, data, t).0
  {
    hide IsCalendar, ActiveCron, HasMalformed, HasOverlap;
    if data.body.CronData? {
      StillWellFormed(cal, data.body.crons, t, u);
      ActiveCronMeaning(cal, data.body.crons, t);
      ActiveCronMeaning(cal, data.body.crons, u);
    }
  }

  /** The same for the running system: an evaluation is followed by its event, by
      an instant of its cron rules, whose task runs, or by no change of the value. */
  method EvaluateAndWait(d: DynamicHorizontal, cal: Calendar, key: string, provider: string, data: Data,
                         now: int, ghost later: int)
    returns (outcome: Outcome, ghost events: set<string>)
    requires d.timers.Valid(now) && IsCalendar(cal) && Usable(data) && now <= later
    modifies d.crons, d.timers
    ensures d.timers.Valid(later) && outcome == Evaluate(cal, provider, data, now).0
    ensures || key in events
            || (HasInstant(cal, data, now, later) && key in d.crons.tasks && d.crons.tasks[key] == data.body.crons)
            || Unattended(cal, data, now, later)
            || Evaluate(cal, provider, data, later).0 == outcome
  {
    hide IsCalendar, ActiveCron, HasMalformed, HasOverlap, NoInstant, Usable, Unusable;
    outcome := d.BuildPortraitValue(cal, key, provider, data, now);
    ArmedInFuture(cal, provider, data, now);
    events := d.timers.Pass(now, later);
    if key !in events {
      if Quiet(cal, data, now, later) {
        QuietKeepsValue(cal, provider, data, now, later);
      } else {
        MalformedStays(cal, provider, data, now, later);
      }
    }
  }
}
