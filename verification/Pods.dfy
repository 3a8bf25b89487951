/** Pods as pkg/pod/state.go sees them: a name, labels, and whether they run. */
module Pods {
  import opened Common
  import opened Planner

  datatype PodState = Online | Cutoff | Standby | Deleted

  type Labels = map<string, string>

  const LABEL_STATE := "kapacitystack.io/pod-state"

  function StateName(state: PodState): string {
    match state
    case Online => "Online"
    case Cutoff => "Cutoff"
    case Standby => "Standby"
    case Deleted => "Deleted"
  }

  /** GetState: a missing, empty or unknown label means Online. */
  function StateOf(labels: Labels): PodState {
    if LABEL_STATE !in labels then Online
    else if labels[LABEL_STATE] == StateName(Cutoff) then Cutoff
    else if labels[LABEL_STATE] == StateName(Standby) then Standby
    else Online
  }

  /** Only the two exact names are read as a state of their own. */
  lemma StateOfMeaning(labels: Labels)
    ensures var key := "kapacitystack.io/pod-state";
            && (StateOf(labels) == Cutoff <==> key in labels && labels[key] == "Cutoff")
            && (StateOf(labels) == Standby <==> key in labels && labels[key] == "Standby")
    ensures StateOf(labels) in {Online, Cutoff, Standby}
  {
  }

  function WithState(labels: Labels, state: PodState): Labels {
    if state == Online then labels - {LABEL_STATE} else labels[LABEL_STATE := StateName(state)]
  }

  /** A running state that is set is read back; Deleted is read back as Online;
      and no other label changes. */
  lemma SetStateIsReadBack(labels: Labels, state: PodState)
    ensures StateOf(WithState(labels, state)) == if state == Deleted then Online else state
    ensures WithState(labels, state) - {LABEL_STATE} == labels - {LABEL_STATE}
  {
  }

  /** A pod as the API server stores it; running means phase Running and not
      being deleted. */
  datatype PodRecord = PodRecord(labels: Labels, running: bool)

  /** A local copy of a pod, which SetState mutates. */
  class Pod {
    const name: Name
    const running: bool
    var labels: Labels

    constructor (name: Name, record: PodRecord)
      ensures this.name == name && running == record.running && labels == record.labels
    {
      this.name := name;
      running := record.running;
      labels := record.labels;
    }

    method SetState(state: PodState)
      modifies this`labels
      ensures labels == WithState(old(labels), state)
    {
      if state == Online {
        labels := labels - {LABEL_STATE};
        return;
      }
      labels := labels[LABEL_STATE := StateName(state)];
    }
  }

  /** The running pods in state s. */
  function InState(pods: map<Name, PodRecord>, s: PodState): set<Name> {
    set name | name in pods && pods[name].running && StateOf(pods[name].labels) == s
  }

  function Classified(pods: map<Name, PodRecord>): (c: Cells)
    ensures c.Running()
  {
    Cells(InState(pods, Online), InState(pods, Cutoff), InState(pods, Standby), {})
  }

  function AddTo(c: Cells, s: PodState, name: Name): Cells {
    match s
    case Online => c.(online := c.online + {name})
    case Cutoff => c.(cutoff := c.cutoff + {name})
    case Standby => c.(standby := c.standby + {name})
    case Deleted => c.(deleted := c.deleted + {name})
  }

  lemma OneMoreInState(seen: map<Name, PodRecord>, name: Name, r: PodRecord, s: PodState)
    requires name !in seen
    ensures name !in InState(seen, s)
    ensures InState(seen[name := r], s)
         == if r.running && s == StateOf(r.labels) then InState(seen, s) + {name} else InState(seen, s)
  {
    hide StateOf;
  }

  lemma ClassifyOneMore(seen: map<Name, PodRecord>, name: Name, r: PodRecord)
    requires name !in seen
    ensures name !in Classified(seen).All()
    ensures Classified(seen[name := r])
         == if r.running then AddTo(Classified(seen), StateOf(r.labels), name) else Classified(seen)
  {
    hide InState;
    OneMoreInState(seen, name, r, Online);
    OneMoreInState(seen, name, r, Cutoff);
    OneMoreInState(seen, name, r, Standby);
  }

  lemma AddsOne(c: Cells, s: PodState, name: Name)
    requires name !in c.All()
    ensures |AddTo(c, s, name).All()| == |c.All()| + 1
  {
    assert AddTo(c, s, name).All() == c.All() + {name};
  }

  function Listed(pods: map<Name, PodRecord>, l: seq<Name>): map<Name, PodRecord> {
    map name | name in l && name in pods :: pods[name]
  }

  lemma ListedOneMore(pods: map<Name, PodRecord>, l: seq<Name>, i: nat)
    requires i < |l| && l[i] in pods && forall a, b :: 0 <= a < b < |l| ==> l[a] != l[b]
    ensures l[i] !in Listed(pods, l[..i])
    ensures Listed(pods, l[..i + 1]) == Listed(pods, l[..i])[l[i] := pods[l[i]]]
  {
    assert l[..i + 1] == l[..i] + [l[i]];
  }

  lemma ListedAll(pods: map<Name, PodRecord>, l: seq<Name>)
    requires Lists(l, pods.Keys)
    ensures Listed(pods, l[..|l|]) == pods && forall i :: 0 <= i < |l| ==> l[i] in pods
  {
    DistinctElems(l, pods.Keys);
    assert l[..|l|] == l;
    assert forall name :: name in l <==> name in Elems(l);
  }

  /** FilterAndClassifyByRunningState over a listing of the pods. */
  method FilterAndClassify(list: seq<Name>, pods: map<Name, PodRecord>) returns (c: Cells, total: nat)
    requires Lists(list, pods.Keys)
    ensures c == Classified(pods) && total == |c.All()|
  {
    hide Classified, StateOf, AddTo, Cells.All, Listed, Lists, Elems;
    c := Cells({}, {}, {}, {});
    total := 0;
    DistinctElems(list, pods.Keys);
    ListedAll(pods, list);
    NothingToClassify(pods);
    for i := 0 to |list|
      invariant c == Classified(Listed(pods, list[..i])) && total == |c.All()|
    {
      var name := list[i];
      ListedOneMore(pods, list, i);
      ClassifyOneMore(Listed(pods, list[..i]), name, pods[name]);
      if pods[name].running {
        AddsOne(c, StateOf(pods[name].labels), name);
        c := AddTo(c, StateOf(pods[name].labels), name);
        total := total + 1;
      }
    }
  }

  lemma NothingToClassify(pods: map<Name, PodRecord>)
    ensures Classified(Listed(pods, [])) == Cells({}, {}, {}, {}) && |Cells({}, {}, {}, {}).All()| == 0
  {
  }
}
