/** The decision part of the ReplicaProfile controller,
    controllers/autoscaling/replicaprofile_controller.go: it labels pods
    according to a plan and rescales the workload. */
module ReplicaProfile {
  import opened Common
  import opened Planner
  import opened PlannerTheorems
  import opened Pods

  datatype Direction = Both | Up | Down | Neither

  datatype Spec = Spec(online: int, cutoff: int, standby: int, direction: Direction)

  /** What the API server holds about one scale target. */
  datatype World = World(pods: map<Name, PodRecord>, scale: int, victims: set<Name>)

  function OnlineEnsured(spec: Spec, online: int): bool {
    match spec.direction
    case Up => online >= spec.online
    case Down => online <= spec.online
    case Neither => true
    case Both => online == spec.online
  }

  function DesiredOnline(spec: Spec, online: int): int {
    match spec.direction
    case Up => Max(spec.online, online)
    case Down => Min(spec.online, online)
    case Neither => online
    case Both => spec.online
  }

  function Target(spec: Spec, n: Counts): Desired {
    Desired(DesiredOnline(spec, n.online), spec.cutoff, spec.standby)
  }

  predicate Ensured(spec: Spec, n: Counts) {
    OnlineEnsured(spec, n.online) && n.cutoff == spec.cutoff && n.standby == spec.standby
  }

  predicate NeedsStateChange(spec: Spec, n: Counts) {
    spec.cutoff > 0 || spec.standby > 0 || n.cutoff > 0 || n.standby > 0
  }

  /** There is nothing to do exactly if the target is what is there, and for the online
      pods exactly if they are on the right side of the profile's number. */
  lemma EnsuredIffTargetMet(spec: Spec, n: Counts)
    ensures Ensured(spec, n) <==> Target(spec, n) == Desired(n.online, n.cutoff, n.standby)
    ensures OnlineEnsured(spec, n.online) <==> DesiredOnline(spec, n.online) == n.online
    ensures Ensured(spec, n) ==> OnRightSide(spec, n.online) && n.cutoff == spec.cutoff && n.standby == spec.standby
    ensures !Ensured(spec, n) ==> !OnRightSide(spec, n.online) || n.cutoff != spec.cutoff || n.standby != spec.standby
  {
  }

  /** What a direction allows: at least, at most, any or exactly the wanted number. */
  predicate OnRightSide(spec: Spec, online: int) {
    && (spec.direction in {Up, Both} ==> spec.online <= online)
    && (spec.direction in {Down, Both} ==> online <= spec.online)
  }

  function Seen(w: World): Counts { Sizes(Classified(w.pods)) }

  function Running(w: World): nat { Total(Classified(w.pods)) }

  /** The int32 sum written to the workload's scale. */
  function DesiredTotal(spec: Spec, n: Counts): int {
    Wrap32(Wrap32(DesiredOnline(spec, n.online) + spec.cutoff) + spec.standby)
  }

  /** The pods after the change sets of a plan from c to f are written as labels;
      pods to delete keep the label they have. */
  function Relabelled(pods: map<Name, PodRecord>, c: Cells, f: Cells): map<Name, PodRecord> {
    map name | name in pods ::
      if name in f.online - c.online then pods[name].(labels := WithState(pods[name].labels, Online))
      else if name in f.cutoff - c.cutoff then pods[name].(labels := WithState(pods[name].labels, Cutoff))
      else if name in f.standby - c.standby then pods[name].(labels := WithState(pods[name].labels, Standby))
      else pods[name]
  }

  function VictimsAfter(canSelect: bool, deleted: set<Name>, before: set<Name>): set<Name> {
    if canSelect && deleted != {} then deleted else before
  }

  /** One reconcile that meets no API error takes w to w'. */
  ghost predicate Reconciles(spec: Spec, sort: Sorter, canSelect: bool, w: World, w': World) {
    var n := Seen(w);
    if Ensured(spec, n) then w' == w
    else
      && w'.scale == DesiredTotal(spec, n)
      && if NeedsStateChange(spec, n) && Running(w) == w.scale
         then exists f :: && Planned(sort, Target(spec, n), Classified(w.pods), f)
                          && w'.pods == Relabelled(w.pods, Classified(w.pods), f)
                          && w'.victims == VictimsAfter(canSelect, f.deleted, w.victims)
         else w'.pods == w.pods && w'.victims == w.victims
  }

  /** What the controller sees of a carried out plan: the pods to delete are
      still there, under their old labels. */
  function Carried(c: Cells, f: Cells): Cells {
    Cells(f.online + f.deleted * c.online, f.cutoff + f.deleted * c.cutoff, f.standby + f.deleted * c.standby, {})
  }

  lemma RelabelledOne(pods: map<Name, PodRecord>, c: Cells, f: Cells, name: Name)
    requires c == Classified(pods) && f.Disjoint() && f.All() == c.All() && name in pods && pods[name].running
    ensures var (r, next) := (Relabelled(pods, c, f)[name], Carried(c, f));
            && r.running
            && (StateOf(r.labels) == Online <==> name in next.online)
            && (StateOf(r.labels) == Cutoff <==> name in next.cutoff)
            && (StateOf(r.labels) == Standby <==> name in next.standby)
  {
    var labels := pods[name].labels;
    SetStateIsReadBack(labels, Online);
    SetStateIsReadBack(labels, Cutoff);
    SetStateIsReadBack(labels, Standby);
    assert StateOf(labels) != Deleted;
    hide StateOf, WithState;
    assert name in c.All();
  }

  lemma RelabelledAny(pods: map<Name, PodRecord>, c: Cells, f: Cells, name: Name)
    requires c == Classified(pods) && f.Disjoint() && f.All() == c.All()
    ensures var (after, next) := (Relabelled(pods, c, f), Carried(c, f));
            && (name in InState(after, Online) <==> name in next.online)
            && (name in InState(after, Cutoff) <==> name in next.cutoff)
            && (name in InState(after, Standby) <==> name in next.standby)
  {
    if name in pods && pods[name].running {
      RelabelledOne(pods, c, f, name);
    } else {
      hide StateOf, WithState;
      assert name !in c.All();
    }
  }

  /** Reading the labels back gives the planned states. */
  lemma RelabelledIsCarried(pods: map<Name, PodRecord>, c: Cells, f: Cells)
    requires c == Classified(pods) && f.Disjoint() && f.All() == c.All()
    ensures Classified(Relabelled(pods, c, f)) == Carried(c, f)
  {
    hide InState;
    var (after, next) := (Relabelled(pods, c, f), Carried(c, f));
    forall name
      ensures name in InState(after, Online) <==> name in next.online
      ensures name in InState(after, Cutoff) <==> name in next.cutoff
      ensures name in InState(after, Standby) <==> name in next.standby
    {
      RelabelledAny(pods, c, f, name);
    }
  }

  /** The plan of a reconcile respects the direction the profile allows. */
  lemma PlanRespectsDirection(spec: Spec, sort: Sorter, c: Cells, f: Cells)
    requires Permutes(sort) && c.Running() && Planned(sort, Target(spec, Sizes(c)), c, f)
    ensures spec.direction == Up ==> c.online <= f.online
    ensures spec.direction == Down ==> f.online <= c.online
    ensures spec.direction == Neither ==> f.online == c.online
  {
    hide Planned, Permutes, Cells.Running;
    PlanDiscipline(sort, Target(spec, Sizes(c)), c, f);
  }

  /** How many online pods a plan leaves: the profile's number, or those there are if the
      direction forbids to go there, as far as there are pods. */
  lemma PlanLeavesOnline(spec: Spec, sort: Sorter, c: Cells, f: Cells)
    requires Permutes(sort) && c.Running() && spec.online >= 0
    requires Planned(sort, Target(spec, Sizes(c)), c, f)
    ensures spec.direction == Both ==> |f.online| == Min(spec.online, Total(c))
    ensures spec.direction == Up ==> |f.online| == Min(Max(spec.online, |c.online|), Total(c))
    ensures spec.direction == Down ==> |f.online| == Min(spec.online, |c.online|)
    ensures spec.direction == Neither ==> |f.online| == |c.online|
  {
    hide Planned, Permutes, Cells.Running, Cells.Disjoint, Cells.All;
    PlanIsWaterfall(sort, Target(spec, Sizes(c)), c, f);
  }

  /** A profile that wants online pods only, of a workload that has online pods only, is
      enforced by the scale alone: no label is written and no pod is selected. */
  lemma OnlineOnlyIsScaled(spec: Spec, sort: Sorter, canSelect: bool, w: World, w': World)
    requires Reconciles(spec, sort, canSelect, w, w')
    requires spec.cutoff == spec.standby == 0 && Seen(w).cutoff == Seen(w).standby == 0
    ensures w'.pods == w.pods && w'.victims == w.victims
    ensures spec.direction == Both && 0 <= spec.online <= 0x7fff_ffff && Seen(w).online != spec.online ==>
              w'.scale == spec.online
  {
    hide Classified;
  }

  /** Otherwise pods change their states exactly if as many run as the scale says. */
  lemma StatesChangeAtRest(spec: Spec, sort: Sorter, canSelect: bool, w: World, w': World)
    requires Permutes(sort) && Reconciles(spec, sort, canSelect, w, w') && !Ensured(spec, Seen(w))
    requires spec.cutoff > 0 || spec.standby > 0 || Seen(w).cutoff > 0 || Seen(w).standby > 0
    ensures Running(w) != w.scale ==> w'.pods == w.pods && w'.victims == w.victims
    ensures Running(w) == w.scale ==>
              exists f :: && Planned(sort, Target(spec, Seen(w)), Classified(w.pods), f)
                          && Classified(w'.pods) == Carried(Classified(w.pods), f)
                          && w'.victims == if canSelect && f.deleted != {} then f.deleted else w.victims
  {
    hide Planned, Permutes, Classified, Relabelled, Carried, Waterfall, Cells.Running, Cells.All, Cells.Disjoint;
    if Running(w) == w.scale {
      var f :| Planned(sort, Target(spec, Seen(w)), Classified(w.pods), f)
               && w'.pods == Relabelled(w.pods, Classified(w.pods), f)
               && w'.victims == VictimsAfter(canSelect, f.deleted, w.victims);
      PlanIsWaterfall(sort, Target(spec, Seen(w)), Classified(w.pods), f);
      RelabelledIsCarried(w.pods, Classified(w.pods), f);
    }
  }

  /** Writing the labels of a plan touches the state label of moved pods and nothing else. */
  lemma RelabelledKeepsRest(pods: map<Name, PodRecord>, c: Cells, f: Cells)
    ensures var after := Relabelled(pods, c, f);
            && after.Keys == pods.Keys
            && (forall name :: name in pods ==> after[name].running == pods[name].running)
            && (forall name :: name in pods ==>
                                 after[name].labels - {LABEL_STATE} == pods[name].labels - {LABEL_STATE})
            && var moved := (f.online - c.online) + (f.cutoff - c.cutoff) + (f.standby - c.standby);
               forall name :: name in pods && name !in moved ==> after[name] == pods[name]
  {
    forall labels: Labels, state ensures WithState(labels, state) - {LABEL_STATE} == labels - {LABEL_STATE} {
      SetStateIsReadBack(labels, state);
    }
    hide WithState;
  }

  /** What the controller computes its target from afterwards gives the same target
      again, in every direction. */
  lemma TargetStays(spec: Spec, sort: Sorter, c: Cells, f: Cells)
    requires Permutes(sort) && c.Running() && Planned(sort, Target(spec, Sizes(c)), c, f)
    ensures Target(spec, Sizes(Survivors(f))) == Target(spec, Sizes(c))
  {
    hide Planned, Permutes, Cells.Running, Cells.Disjoint, Cells.All;
    PlanIsWaterfall(sort, Target(spec, Sizes(c)), c, f);
  }

  /** When the labels of a plan are written and its pods to delete are gone, the
      controller's next plan moves nothing, whatever its sorter and the direction. */
  lemma ReplanIsEmpty(spec: Spec, sort: Sorter, sort': Sorter, pods: map<Name, PodRecord>, f: Cells, g: Cells)
    requires Permutes(sort) && Permutes(sort')
    requires Planned(sort, Target(spec, Sizes(Classified(pods))), Classified(pods), f)
    requires var next := Classified(Relabelled(pods, Classified(pods), f) - f.deleted);
             Planned(sort', Target(spec, Sizes(next)), next, g)
    ensures g == Classified(Relabelled(pods, Classified(pods), f) - f.deleted) && g.deleted == {}
  {
    hide Planned, Permutes, Relabelled, Classified, Cells.Running, Cells.Disjoint, Cells.All, Target;
    var (c, d) := (Classified(pods), Target(spec, Sizes(Classified(pods))));
    PlanIsWaterfall(sort, d, c, f);
    SurvivorsRemain(pods, c, f);
    TargetStays(spec, sort, c, f);
    PlanIsIdempotent(sort, sort', d, c, f, g);
  }

  lemma SurvivorsRemain(pods: map<Name, PodRecord>, c: Cells, f: Cells)
    requires c == Classified(pods) && f.Disjoint() && f.All() == c.All()
    ensures Classified(Relabelled(pods, c, f) - f.deleted) == Survivors(f)
  {
    hide InState, Relabelled;
    RelabelledIsCarried(pods, c, f);
    WithoutDeleted(Relabelled(pods, c, f), f.deleted);
    CarriedWithoutDeleted(c, f);
  }

  lemma CarriedWithoutDeleted(c: Cells, f: Cells)
    requires f.Disjoint()
    ensures var next := Carried(c, f);
            && next.online - f.deleted == f.online && next.cutoff - f.deleted == f.cutoff
            && next.standby - f.deleted == f.standby
  {
  }

  lemma WithoutDeleted(pods: map<Name, PodRecord>, gone: set<Name>)
    ensures forall s :: InState(pods - gone, s) == InState(pods, s) - gone
  {
    hide StateOf;
    forall s ensures InState(pods - gone, s) == InState(pods, s) - gone {
    }
  }

  /** The pods with the label of those in names set to state. */
  function LabelAll(pods: map<Name, PodRecord>, names: set<Name>, state: PodState): map<Name, PodRecord> {
    map name | name in pods ::
      if name in names then pods[name].(labels := WithState(pods[name].labels, state)) else pods[name]
  }

  lemma LabelledInTurn(pods: map<Name, PodRecord>, c: Cells, f: Cells)
    requires f.Disjoint()
    ensures LabelAll(LabelAll(LabelAll(pods, f.online - c.online, Online), f.cutoff - c.cutoff, Cutoff),
                     f.standby - c.standby, Standby)
         == Relabelled(pods, c, f)
  {
    hide WithState;
  }

  /** How a reconcile ends: with nothing to do, with the profile applied, with the
      state change skipped because the workload is not at rest, or in error. */
  datatype Outcome = Idle | Applied | Skipped | Broken

  /** Each pod is as it was or as it is planned to be. */
  ghost predicate Partly(before: map<Name, PodRecord>, after: map<Name, PodRecord>, planned: map<Name, PodRecord>) {
    && after.Keys == before.Keys == planned.Keys
    && forall name :: name in before ==> after[name] == before[name] || after[name] == planned[name]
  }

  /** What a reconcile in which a request fails may leave behind: a part of the labels,
      with or without the pods selected for deletion, and the new scale only if all the
      rest is done. */
  ghost predicate Breaks(spec: Spec, sort: Sorter, canSelect: bool, w: World, w': World) {
    && w'.scale in {w.scale, DesiredTotal(spec, Seen(w))}
    && (|| (w'.pods == w.pods && w'.victims == w.victims)
        || (&& !Ensured(spec, Seen(w)) && NeedsStateChange(spec, Seen(w)) && Running(w) == w.scale
            && PartlyPlanned(Target(spec, Seen(w)), sort, canSelect, w, w'.pods, w'.victims)))
    && (Ensured(spec, Seen(w)) ==> w' == w)
    && (w'.scale != w.scale ==> Reconciles(spec, sort, canSelect, w, w'))
  }

  ghost predicate PartlyPlanned(d: Desired, sort: Sorter, canSelect: bool, w: World,
                                pods: map<Name, PodRecord>, victims: set<Name>)
  {
    exists f :: && Planned(sort, d, Classified(w.pods), f)
                && Partly(w.pods, pods, Relabelled(w.pods, Classified(w.pods), f))
                && victims in {w.victims, VictimsAfter(canSelect, f.deleted, w.victims)}
  }

  /** The labels written before a request failed: done0, done1 and done2 are the pods
      of the three change sets that have been labelled. */
  lemma PartIsPartly(pods: map<Name, PodRecord>, c: Cells, f: Cells,
                     done0: set<Name>, done1: set<Name>, done2: set<Name>)
    requires f.Disjoint() && done0 <= f.online - c.online
    requires done1 <= f.cutoff - c.cutoff && done2 <= f.standby - c.standby
    ensures Partly(pods, LabelAll(LabelAll(LabelAll(pods, done0, Online), done1, Cutoff), done2, Standby),
                   Relabelled(pods, c, f))
  {
    hide WithState;
  }

  class ScaleTarget {
    var pods: map<Name, PodRecord>
    var scale: int
    var victims: set<Name>
    // the observed status
    var onlineReplicas: int
    var cutoffReplicas: int
    var standbyReplicas: int

    function Stored(): World
      reads this
    {
      World(pods, scale, victims)
    }

    method SetPodState(name: Name, state: PodState, reply: Reply) returns (ok: bool)
      requires name in pods
      modifies this`pods
      ensures pods == if reply == Rejected then old(pods) else LabelAll(old(pods), {name}, state)
      ensures ok <==> reply == Done
    {
      var pod := new Pod(name, pods[name]);
      pod.SetState(state);
      if reply != Rejected {
        pods := pods[name := pods[name].(labels := pod.labels)];
      }
      ok := reply == Done;
    }

    /** The first request that fails ends the loop. */
    method SetPodStates(names: seq<Name>, state: PodState, api: nat -> Reply, sent: nat)
      returns (ok: bool, sent': nat, ghost done: set<Name>)
      requires Elems(names) <= pods.Keys
      requires forall i, j :: 0 <= i < j < |names| ==> names[i] != names[j]
      modifies this`pods
      ensures pods == LabelAll(old(pods), done, state) && done <= Elems(names)
      ensures ok ==> done == Elems(names)
      ensures !ok ==> exists i :: api(i) != Done
    {
      assert pods == LabelAll(pods, {}, state);
      done, sent' := {}, sent;
      for i := 0 to |names|
        invariant done == Elems(names[..i]) && pods == LabelAll(old(pods), done, state)
      {
        assert names[i] in Elems(names) && names[i] !in done;
        LabelOneMore(old(pods), done, names[i], state);
        ok := SetPodState(names[i], state, api(sent'));
        assert Elems(names[..i + 1]) == Elems(names[..i]) + {names[i]};
        if !ok {
          done := if api(sent') == Rejected then done else done + {names[i]};
          return;
        }
        sent', done := sent' + 1, done + {names[i]};
      }
      assert names[..|names|] == names;
      ok := true;
    }

    /** One change set: the traffic controller is asked first, unless there is none for
        the state or nothing to change, and then the labels are written. */
    method WriteChangeSet(names: seq<Name>, state: PodState, api: nat -> Reply, sent: nat)
      returns (ok: bool, sent': nat, ghost done: set<Name>)
      requires Elems(names) <= pods.Keys
      requires forall i, j :: 0 <= i < j < |names| ==> names[i] != names[j]
      modifies this`pods
      ensures pods == LabelAll(old(pods), done, state) && done <= Elems(names) && pods.Keys == old(pods.Keys)
      ensures ok ==> done == Elems(names)
      ensures !ok ==> exists i :: api(i) != Done
    {
      LabelNobody(pods);
      sent', done := sent, {};
      if |names| > 0 && state != Standby {
        if api(sent') != Done {
          return false, sent', done;
        }
        sent' := sent' + 1;
      }
      ok, sent', done := SetPodStates(names, state, api, sent');
    }

    /** The change sets are written one after the other, and then the pods to delete are
        handed to a workload that can select them. */
    method ApplyStateChange(change: StateChange, canSelect: bool, api: nat -> Reply, sent: nat,
                            ghost c: Cells, ghost f: Cells)
      returns (ok: bool, sent': nat)
      requires c == Classified(pods) && f.Disjoint() && f.All() == c.All()
      requires Lists(change.online, f.online - c.online) && Lists(change.cutoff, f.cutoff - c.cutoff)
      requires Lists(change.standby, f.standby - c.standby) && Lists(change.delete, f.deleted)
      modifies this`pods, this`victims
      ensures ok ==> pods == Relabelled(old(pods), c, f) && victims == VictimsAfter(canSelect, f.deleted, old(victims))
      ensures Partly(old(pods), pods, Relabelled(old(pods), c, f))
      ensures victims in {old(victims), VictimsAfter(canSelect, f.deleted, old(victims))}
      ensures !ok ==> exists i :: api(i) != Done
    {
      hide Classified, LabelAll, Relabelled, Partly, Lists, Elems, Cells.All, Cells.Disjoint;
      ChangeSetsAreDistinct(change, pods, c, f);
      ghost var done0: set<Name>, done1: set<Name>, done2: set<Name> := {}, {}, {};
      ghost var before := pods;
      LabelNobody(pods);
      ok, sent', done0 := WriteChangeSet(change.online, Online, api, sent);
      if ok {
        LabelNobody(pods);
        ok, sent', done1 := WriteChangeSet(change.cutoff, Cutoff, api, sent');
      }
      LabelNobody(LabelAll(before, done0, Online));
      if ok {
        ok, sent', done2 := WriteChangeSet(change.standby, Standby, api, sent');
      }
      LabelNobody(LabelAll(LabelAll(before, done0, Online), done1, Cutoff));
      PartIsPartly(before, c, f, done0, done1, done2);
      if ok {
        LabelledInTurn(before, c, f);
        if |change.delete| > 0 && canSelect {
          if api(sent') != Rejected {
            victims := Elems(change.delete);
          }
          ok := api(sent') == Done;
        }
      }
    }

    /** Plans with a state manager and applies the plan. */
    method ChangeStates(desired: Desired, sort: Sorter, canSelect: bool, api: nat -> Reply, sent: nat, c: Cells)
      returns (ok: bool, sent': nat)
      requires Permutes(sort) && c == Classified(pods)
      modifies this`pods, this`victims
      ensures ok ==> exists f :: && Planned(sort, desired, c, f) && pods == Relabelled(old(pods), c, f)
                                 && victims == VictimsAfter(canSelect, f.deleted, old(victims))
      ensures || (pods == old(pods) && victims == old(victims))
              || PartlyPlanned(desired, sort, canSelect, old(Stored()), pods, victims)
      ensures !ok ==> (exists l :: sort(l).Err?) || exists i :: api(i) != Done
    {
      hide Picks, Planned, Relabelled, InState, Book, Partly;
      sent' := sent;
      var sm := new StateManager(desired, 0, c, sort);
      var change; ghost var f;
      change, f := sm.CalculateStateChange(desired, 0, c);
      if change.Err? {
        return false, sent';
      }
      PlanIsWaterfall(sort, desired, c, f);
      ok, sent' := ApplyStateChange(change.value, canSelect, api, sent', c, f);
    }

    /** The update of the scale, if it differs, and of the status. */
    method Rescale(desiredReplicas: int, api: nat -> Reply, sent: nat) returns (ok: bool)
      modifies this`scale
      ensures scale in {old(scale), desiredReplicas} && (ok ==> scale == desiredReplicas)
      ensures !ok ==> exists i :: api(i) != Done
    {
      if desiredReplicas != scale {
        if api(sent) != Rejected {
          scale := desiredReplicas;
        }
        if api(sent) != Done {
          return false;
        }
      }
      ok := api(sent + 1) == Done;
    }

    /** The part of Reconcile that acts, when the status is updated and not ensured. */
    method Enforce(spec: Spec, sort: Sorter, canSelect: bool, defaultSorter: bool, readinessGate: bool,
                   api: nat -> Reply, c: Cells, total: nat)
      returns (outcome: Outcome)
      requires Permutes(sort) && c == Classified(pods) && total == Total(c) && !Ensured(spec, Sizes(c))
      modifies this`pods, this`victims, this`scale
      ensures outcome != Idle
      ensures outcome == Skipped ==> NeedsStateChange(spec, Sizes(c)) && Total(c) != old(scale)
      ensures outcome == Applied && NeedsStateChange(spec, Sizes(c)) ==> Total(c) == old(scale)
      ensures outcome != Broken ==> Reconciles(spec, sort, canSelect, old(Stored()), Stored())
      ensures outcome == Broken ==> Breaks(spec, sort, canSelect, old(Stored()), Stored())
      ensures outcome == Broken && defaultSorter && readinessGate ==>
                (exists l :: sort(l).Err?) || exists i :: api(i) != Done
    {
      hide Picks, Planned, Classified, Relabelled, Permutes, Total, Wrap32, Ensured, NeedsStateChange;
      hide DesiredOnline, Partly, PartlyPlanned, VictimsAfter;
      var needStateChange := NeedsStateChange(spec, Sizes(c));
      var canDoStateChange := total == scale;
      var desired := DesiredOnline(spec, |c.online|);
      var sent: nat := 1;
      if needStateChange && canDoStateChange {
        if !defaultSorter || !readinessGate {
          return Broken;
        }
        var ok;
        ok, sent := ChangeStates(Desired(desired, spec.cutoff, spec.standby), sort, canSelect, api, sent, c);
        if !ok {
          return Broken;
        }
      }
      var desiredReplicas := Wrap32(Wrap32(desired + spec.cutoff) + spec.standby);
      var rescaled := Rescale(desiredReplicas, api, sent);
      if !rescaled {
        return Broken;
      }
      return if !needStateChange || canDoStateChange then Applied else Skipped;
    }

    /** Reconcile. Any of its requests may fail: the status updates, those that change
        states, and the one that rescales. */
    method Reconcile(spec: Spec, listing: seq<Name>, sort: Sorter, canSelect: bool,
                     defaultSorter: bool, readinessGate: bool, api: nat -> Reply)
      returns (outcome: Outcome)
      requires Permutes(sort) && Lists(listing, pods.Keys)
      modifies this
      ensures outcome == Idle ==> Ensured(spec, Seen(old(Stored())))
      ensures outcome == Skipped ==> !Ensured(spec, Seen(old(Stored()))) && NeedsStateChange(spec, Seen(old(Stored())))
      ensures outcome == Skipped ==> Running(old(Stored())) != old(scale)
      ensures outcome == Applied ==> !Ensured(spec, Seen(old(Stored())))
      ensures outcome == Applied && NeedsStateChange(spec, Seen(old(Stored()))) ==> Running(old(Stored())) == old(scale)
      ensures outcome != Broken ==> Reconciles(spec, sort, canSelect, old(Stored()), Stored())
      ensures outcome == Broken ==> Breaks(spec, sort, canSelect, old(Stored()), Stored())
      ensures outcome == Broken && defaultSorter && readinessGate ==>
                (exists l :: sort(l).Err?) || exists i :: api(i) != Done
      ensures var n := Sizes(Classified(old(pods)));
              onlineReplicas == n.online && cutoffReplicas == n.cutoff && standbyReplicas == n.standby
    {
      hide Picks, Planned, Classified, Relabelled, Permutes, Lists, Cells.Running, Cells.All, Total, Wrap32;
      hide OnlineEnsured, DesiredOnline, NeedsStateChange, Partly, PartlyPlanned, VictimsAfter;
      var c, total := FilterAndClassify(listing, pods);
      TotalIsAll(c);
      onlineReplicas, cutoffReplicas, standbyReplicas := |c.online|, |c.cutoff|, |c.standby|;
      if api(0) != Done {
        return Broken;
      }
      if OnlineEnsured(spec, onlineReplicas) && cutoffReplicas == spec.cutoff && standbyReplicas == spec.standby {
        return Idle;
      }
      outcome := Enforce(spec, sort, canSelect, defaultSorter, readinessGate, api, c, total);
    }
  }

  /** The change sets of a plan, as lists. */
  lemma ChangeSetsAreDistinct(change: StateChange, pods: map<Name, PodRecord>, c: Cells, f: Cells)
    requires c == Classified(pods) && f.All() == c.All()
    requires Lists(change.online, f.online - c.online) && Lists(change.cutoff, f.cutoff - c.cutoff)
    requires Lists(change.standby, f.standby - c.standby) && Lists(change.delete, f.deleted)
    ensures Elems(change.online) == f.online - c.online && f.online - c.online <= pods.Keys
    ensures Elems(change.cutoff) == f.cutoff - c.cutoff && f.cutoff - c.cutoff <= pods.Keys
    ensures Elems(change.standby) == f.standby - c.standby && f.standby - c.standby <= pods.Keys
    ensures Elems(change.delete) == f.deleted && |change.delete| == |f.deleted|
    ensures forall i, j :: 0 <= i < j < |change.online| ==> change.online[i] != change.online[j]
    ensures forall i, j :: 0 <= i < j < |change.cutoff| ==> change.cutoff[i] != change.cutoff[j]
    ensures forall i, j :: 0 <= i < j < |change.standby| ==> change.standby[i] != change.standby[j]
  {
    hide Lists, Elems, Classified;
    DistinctElems(change.online, f.online - c.online);
    DistinctElems(change.cutoff, f.cutoff - c.cutoff);
    DistinctElems(change.standby, f.standby - c.standby);
    DistinctElems(change.delete, f.deleted);
    ClassifiedAreStored(pods);
  }

  lemma LabelNobody(pods: map<Name, PodRecord>)
    ensures forall state :: LabelAll(pods, {}, state) == pods
  {
  }

  lemma LabelOneMore(pods: map<Name, PodRecord>, names: set<Name>, name: Name, state: PodState)
    requires name in pods && name !in names
    ensures LabelAll(LabelAll(pods, names, state), {name}, state) == LabelAll(pods, names + {name}, state)
  {
    hide WithState;
  }

  lemma ClassifiedAreStored(pods: map<Name, PodRecord>)
    ensures Classified(pods).All() <= pods.Keys
  {
    hide StateOf;
  }
}
