/** Cron rules, pkg/util/time.go and pkg/portrait/provider/common.go. Parsing and
    time zones are behind a calendar: the least instant after t at which an
    expression fires in a time zone, or None if one of them is malformed. */
module Cron {
  import opened Common

  type Calendar = (string, string, int) -> Option<int>

  /** What is known of a calendar: the next instant is later than t, and stays the
      next one until it comes; and being malformed does not depend on the time. */
  ghost predicate IsCalendar(cal: Calendar) {
    && (forall zone, expr, t :: cal(zone, expr, t).Some? ==> cal(zone, expr, t).value > t)
    && (forall zone, expr, t, u :: cal(zone, expr, t).Some? <==> cal(zone, expr, u).Some?)
    && (forall zone, expr, t, u ::
          cal(zone, expr, t).Some? && t <= u < cal(zone, expr, t).value ==> cal(zone, expr, u) == cal(zone, expr, t))
  }

  datatype ReplicaCron = ReplicaCron(name: string, zone: string, start: string, end: string, replicas: int)

  predicate WellFormed(cal: Calendar, rc: ReplicaCron, t: int) {
    cal(rc.zone, rc.start, t).Some? && cal(rc.zone, rc.end, t).Some?
  }

  function NextStart(cal: Calendar, rc: ReplicaCron, t: int): int
    requires WellFormed(cal, rc, t)
  {
    cal(rc.zone, rc.start, t).value
  }

  function NextEnd(cal: Calendar, rc: ReplicaCron, t: int): int
    requires WellFormed(cal, rc, t)
  {
    cal(rc.zone, rc.end, t).value
  }

  /** IsCronActive: of the coming instants of the rule, the end comes first. */
  predicate IsActive(cal: Calendar, rc: ReplicaCron, t: int) {
    WellFormed(cal, rc, t) && NextStart(cal, rc, t) > NextEnd(cal, rc, t)
  }

  /** The expression has an instant at u. */
  predicate FiresAt(cal: Calendar, zone: string, expr: string, u: int) { cal(zone, expr, u - 1) == Some(u) }

  /** A rule is active if and only if, of the instants to come, it has one of its end
      before or without any of its start: it has been started and not ended. */
  lemma ActiveIffEndComesFirst(cal: Calendar, rc: ReplicaCron, t: int)
    requires IsCalendar(cal) && WellFormed(cal, rc, t)
    ensures IsActive(cal, rc, t) <==>
              exists u :: u > t && FiresAt(cal, rc.zone, rc.end, u)
                          && forall v :: t < v <= u ==> !FiresAt(cal, rc.zone, rc.start, v)
  {
    var (start, end) := (NextStart(cal, rc, t), NextEnd(cal, rc, t));
    NextIsFirst(cal, rc.zone, rc.start, t);
    NextIsFirst(cal, rc.zone, rc.end, t);
    hide IsCalendar;
    assert FiresAt(cal, rc.zone, rc.end, end) && FiresAt(cal, rc.zone, rc.start, start);
  }

  /** What the calendar gives is the first instant after t. */
  lemma NextIsFirst(cal: Calendar, zone: string, expr: string, t: int)
    requires IsCalendar(cal) && cal(zone, expr, t).Some?
    ensures cal(zone, expr, t).value > t && FiresAt(cal, zone, expr, cal(zone, expr, t).value)
    ensures forall v :: t < v < cal(zone, expr, t).value ==> !FiresAt(cal, zone, expr, v)
  {
    var next := cal(zone, expr, t).value;
    assert cal(zone, expr, next - 1) == Some(next);
    forall v | t < v < next ensures !FiresAt(cal, zone, expr, v) {
      assert cal(zone, expr, v - 1) == Some(next);
    }
  }

  /** No instant of the rule lies in (t, u]. */
  predicate NoInstant(cal: Calendar, rc: ReplicaCron, t: int, u: int) {
    WellFormed(cal, rc, t) ==> NextStart(cal, rc, t) > u && NextEnd(cal, rc, t) > u
  }

  /** An active rule is active until exactly its next end, an inactive one is
      inactive until its next start. */
  lemma ActiveUntilEnd(cal: Calendar, rc: ReplicaCron, t: int, u: int)
    requires IsCalendar(cal) && WellFormed(cal, rc, t) && t <= u
    ensures WellFormed(cal, rc, u)
    ensures IsActive(cal, rc, t) && u < NextEnd(cal, rc, t) ==>
              IsActive(cal, rc, u) && NextEnd(cal, rc, u) == NextEnd(cal, rc, t)
    ensures !IsActive(cal, rc, t) && u < NextStart(cal, rc, t) ==> !IsActive(cal, rc, u)
  {
  }

  lemma SameWithoutInstant(cal: Calendar, rc: ReplicaCron, t: int, u: int)
    requires IsCalendar(cal) && t <= u && NoInstant(cal, rc, t, u)
    ensures WellFormed(cal, rc, u) == WellFormed(cal, rc, t) && IsActive(cal, rc, u) == IsActive(cal, rc, t)
    ensures WellFormed(cal, rc, t) ==> NextEnd(cal, rc, u) == NextEnd(cal, rc, t)
  {
  }

  /** The rule in effect, with the time it ends. */
  datatype Choice = Nobody | Active(cron: ReplicaCron, until: int) | Failed

  /** The rules up to the last one: a malformed or a second active rule is an error. */
  function ActiveCron(cal: Calendar, crons: seq<ReplicaCron>, t: int): Choice {
    if crons == [] then Nobody
    else
      var (before, rc) := (ActiveCron(cal, crons[..|crons| - 1], t), crons[|crons| - 1]);
      if before.Failed? || !WellFormed(cal, rc, t) then Failed
      else if !IsActive(cal, rc, t) then before
      else if before.Active? then Failed
      else Active(rc, NextEnd(cal, rc, t))
  }

  lemma {:induction false} FailedStays(cal: Calendar, crons: seq<ReplicaCron>, t: int, i: nat)
    requires i <= |crons| && ActiveCron(cal, crons[..i], t).Failed?
    ensures ActiveCron(cal, crons, t).Failed?
    decreases |crons|
  {
    if i < |crons| {
      var init := crons[..|crons| - 1];
      assert init[..i] == crons[..i];
      FailedStays(cal, init, t, i);
    } else {
      assert crons[..i] == crons;
    }
  }

  /** getActiveReplicaCron */
  method GetActiveReplicaCron(cal: Calendar, crons: seq<ReplicaCron>, now: int) returns (r: Choice)
    ensures r == ActiveCron(cal, crons, now)
  {
    r := Nobody;
    for i := 0 to |crons|
      invariant r == ActiveCron(cal, crons[..i], now) && !r.Failed?
    {
      var rc := crons[i];
      assert crons[..i + 1][..i] == crons[..i];
      var nextStart, nextEnd := cal(rc.zone, rc.start, now), cal(rc.zone, rc.end, now);
      if nextStart.None? || nextEnd.None? {
        FailedStays(cal, crons, now, i + 1);
        return Failed;
      }
      if nextStart.value > nextEnd.value {
        if r.Active? {
          FailedStays(cal, crons, now, i + 1);
          return Failed;
        }
        r := Active(rc, nextEnd.value);
      }
    }
    assert crons[..|crons|] == crons;
  }

  ghost predicate HasMalformed(cal: Calendar, crons: seq<ReplicaCron>, t: int) {
    exists i :: 0 <= i < |crons| && !WellFormed(cal, crons[i], t)
  }

  ghost predicate HasOverlap(cal: Calendar, crons: seq<ReplicaCron>, t: int) {
    exists i, j :: 0 <= i < j < |crons| && IsActive(cal, crons[i], t) && IsActive(cal, crons[j], t)
  }

  /** What the scan finds: nobody if no rule is active; the active rule with its
      end if there is just one; an error if and only if a rule is malformed or two
      rules overlap. */
  lemma {:induction false} ActiveCronMeaning(cal: Calendar, crons: seq<ReplicaCron>, t: int)
    ensures var r := ActiveCron(cal, crons, t);
            && (r.Failed? <==> HasMalformed(cal, crons, t) || HasOverlap(cal, crons, t))
            && (r.Nobody? ==> forall i :: 0 <= i < |crons| ==> !IsActive(cal, crons[i], t))
            && (r.Active? ==> exists i :: && 0 <= i < |crons| && r.cron == crons[i] && IsActive(cal, crons[i], t)
                                          && r.until == NextEnd(cal, crons[i], t)
                                          && forall j :: 0 <= j < |crons| && j != i ==> !IsActive(cal, crons[j], t))
  {
    hide WellFormed, IsActive, NextEnd;
    if crons != [] {
      var (init, last) := (crons[..|crons| - 1], |crons| - 1);
      ActiveCronMeaning(cal, init, t);
      assert forall i :: 0 <= i < last ==> crons[i] == init[i];
    }
  }

  /** The only active rule is in effect, until its next end. */
  lemma OnlyActiveRule(cal: Calendar, crons: seq<ReplicaCron>, t: int, i: nat)
    requires i < |crons| && forall j :: 0 <= j < |crons| ==> WellFormed(cal, crons[j], t)
    requires forall j :: 0 <= j < |crons| ==> (IsActive(cal, crons[j], t) <==> j == i)
    ensures ActiveCron(cal, crons, t) == Active(crons[i], NextEnd(cal, crons[i], t))
  {
    ActiveCronMeaning(cal, crons, t);
    hide IsActive, WellFormed, NextEnd, ActiveCron;
  }

  /** While no rule has an instant, the same rule is in effect. */
  lemma {:induction false} SameCron(cal: Calendar, crons: seq<ReplicaCron>, t: int, u: int)
    requires IsCalendar(cal) && t <= u && forall i :: 0 <= i < |crons| ==> NoInstant(cal, crons[i], t, u)
    ensures ActiveCron(cal, crons, u) == ActiveCron(cal, crons, t)
  {
    hide IsCalendar, IsActive, WellFormed, NoInstant, NextEnd;
    if crons != [] {
      SameCron(cal, crons[..|crons| - 1], t, u);
      SameWithoutInstant(cal, crons[|crons| - 1], t, u);
    }
  }

  lemma {:induction false} EndIsLater(cal: Calendar, crons: seq<ReplicaCron>, t: int)
    requires IsCalendar(cal) && ActiveCron(cal, crons, t).Active?
    ensures ActiveCron(cal, crons, t).until > t
  {
    if ActiveCron(cal, crons[..|crons| - 1], t).Active? {
      EndIsLater(cal, crons[..|crons| - 1], t);
    }
  }

  /** Until its end an active rule stays in effect, unless another rule overlaps it. */
  lemma {:induction false} ActiveStays(cal: Calendar, crons: seq<ReplicaCron>, t: int, u: int)
    requires IsCalendar(cal) && t <= u && ActiveCron(cal, crons, t).Active? && u < ActiveCron(cal, crons, t).until
    ensures ActiveCron(cal, crons, u) == ActiveCron(cal, crons, t) || ActiveCron(cal, crons, u).Failed?
  {
    var rc := crons[|crons| - 1];
    var init := crons[..|crons| - 1];
    ActiveUntilEnd(cal, rc, t, u);
    hide IsCalendar;
    if ActiveCron(cal, init, t).Active? {
      ActiveStays(cal, init, t, u);
    }
  }
}
