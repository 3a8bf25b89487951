/** The pod state planner of pkg/pod/state.go.

    Pods are identified by their names, which are unique in a namespace. The
    order in which Go walks a set is arbitrary, so every listing of a set is a
    nondeterministic choice; the sorter is any function that returns a
    permutation of its input or an error. */
module Planner {
  import opened Common

  type Name = string

  type Sorter = seq<Name> -> Result<seq<Name>>

  /** What is known of a sorter: it loses and invents no pod. */
  ghost predicate Permutes(sort: Sorter) {
    forall l :: sort(l).Ok? ==> multiset(sort(l).value) == multiset(l)
  }

  datatype StateInfo = StateInfo(desired: int, current: set<Name>, candidate: set<Name>)

  /** One set of pods per state, in the order Online, Cutoff, Standby, Deleted. */
  datatype Cells = Cells(online: set<Name>, cutoff: set<Name>, standby: set<Name>, deleted: set<Name>) {
    function All(): set<Name> { online + cutoff + standby + deleted }

    ghost predicate Disjoint() {
      online !! cutoff && online !! standby && online !! deleted
      && cutoff !! standby && cutoff !! deleted && standby !! deleted
    }

    /** A classification of running pods: nobody is deleted yet. */
    ghost predicate Running() { Disjoint() && deleted == {} }
  }

  datatype Desired = Desired(online: int, cutoff: int, standby: int)

  datatype StateChange = StateChange(online: seq<Name>, cutoff: seq<Name>, standby: seq<Name>, delete: seq<Name>)

  /** The end of the sorted list that a transfer takes: the front when pods leave
      for a later state, the back when they are pulled to an earlier one. */
  function Slice(l: seq<Name>, n: int, scaleUp: bool): seq<Name> {
    var k := Max(0, Min(n, |l|));
    if scaleUp then l[|l| - k..] else l[..k]
  }

  /** picked may be the outcome of selecting n pods out of names. */
  ghost predicate Picks(sort: Sorter, names: set<Name>, n: int, scaleUp: bool, picked: set<Name>) {
    if n <= 0 || names == {} then picked == {}
    else exists l :: Lists(l, names) && sort(l).Ok? && picked == Elems(Slice(sort(l).value, n, scaleUp))
  }

  /** Every transfer the planner can make: upIJ pulls pods of state J to the
      earlier state I, downI pushes pods of state I to the next one. */
  datatype Moves = Moves(down0: set<Name>, up01: set<Name>, up02: set<Name>,
                         down1: set<Name>, up12: set<Name>, down2: set<Name>)

  const NO_MOVES := Moves({}, {}, {}, {}, {}, {})

  /** What the cutoff and the standby state hold when their turn comes. */
  function Pool1(c: Cells, m: Moves): set<Name> { (c.cutoff - m.up01) + m.down0 }

  function Pool2(c: Cells, m: Moves): set<Name> { (c.standby - m.up02 - m.up12) + m.down1 }

  ghost predicate Step0(sort: Sorter, d: Desired, c: Cells, m: Moves) {
    var short := d.online - |c.online|;
    && Picks(sort, c.online, -short, false, m.down0)
    && Picks(sort, c.cutoff, short, true, m.up01)
    && Picks(sort, c.standby, short - |m.up01|, true, m.up02)
  }

  ghost predicate Step1(sort: Sorter, d: Desired, c: Cells, m: Moves) {
    var short := d.cutoff - |Pool1(c, m)|;
    && Picks(sort, Pool1(c, m), -short, false, m.down1)
    && Picks(sort, c.standby - m.up02, short, true, m.up12)
  }

  ghost predicate Step2(sort: Sorter, d: Desired, c: Cells, m: Moves) {
    Picks(sort, Pool2(c, m), |Pool2(c, m)| - d.standby, false, m.down2)
  }

  /** Where every pod ends. */
  function Final(c: Cells, m: Moves): Cells {
    Cells((c.online - m.down0) + m.up01 + m.up02,
          (Pool1(c, m) - m.down1) + m.up12,
          Pool2(c, m) - m.down2,
          m.down2)
  }

  /** f may be the partition the planner aims at, starting from c. */
  ghost predicate Planned(sort: Sorter, d: Desired, c: Cells, f: Cells) {
    exists m :: f == Final(c, m) && Step0(sort, d, c, m) && Step1(sort, d, c, m) && Step2(sort, d, c, m)
  }

  /** The bookkeeping of the planner after the transfers m. */
  function Book(d: Desired, d3: int, c: Cells, m: Moves): seq<StateInfo> {
    [StateInfo(d.online, c.online - m.down0, m.up01 + m.up02),
     StateInfo(d.cutoff, c.cutoff - m.up01 - m.down1, (m.down0 - m.down1) + m.up12),
     StateInfo(d.standby, c.standby - m.up02 - m.up12 - m.down2, m.down1 - m.down2),
     StateInfo(d3, c.deleted, m.down2)]
  }

  lemma PicksSubset(sort: Sorter, names: set<Name>, n: int, scaleUp: bool, picked: set<Name>)
    requires Permutes(sort) && Picks(sort, names, n, scaleUp, picked)
    ensures picked <= names && |picked| == Max(0, Min(n, |names|))
  {
    if n > 0 && names != {} {
      var l :| Lists(l, names) && sort(l).Ok? && picked == Elems(Slice(sort(l).value, n, scaleUp));
      DistinctElems(sort(l).value, names);
      CardElems(Slice(sort(l).value, n, scaleUp));
    }
  }

  /** The moves of the stages before stage i are made, the others are not. */
  ghost predicate MadeUpTo(sort: Sorter, d: Desired, c: Cells, m: Moves, i: nat) {
    && (if i == 0 then m == NO_MOVES else Step0(sort, d, c, m))
    && (if i <= 1 then m.down1 == m.up12 == {} else Step1(sort, d, c, m))
    && (if i <= 2 then m.down2 == {} else Step2(sort, d, c, m))
  }

  /** Nothing is selected where nothing is needed. */
  lemma PicksNothing(sort: Sorter)
    ensures forall names, n, scaleUp | n <= 0 :: Picks(sort, names, n, scaleUp, {})
  {
  }

  /** The moves m after stage i pulled p1 and p2 and pushed pods. */
  function Record(m: Moves, i: nat, p1: set<Name>, p2: set<Name>, pods: set<Name>): Moves {
    match i
    case 0 => m.(down0 := pods, up01 := p1, up02 := p2)
    case 1 => m.(down1 := pods, up12 := p2)
    case 2 => m.(down2 := pods)
    case _ => m
  }

  /** What state i holds when its turn comes, and how many it wants. */
  function Pool(c: Cells, m: Moves, i: nat): set<Name>
    requires i < 3
  {
    match i
    case 0 => c.online
    case 1 => Pool1(c, m)
    case 2 => Pool2(c, m)
  }

  function Wanted(d: Desired, i: nat): int
    requires i < 3
  {
    match i
    case 0 => d.online
    case 1 => d.cutoff
    case 2 => d.standby
  }

  /** Later transfers do not change what an earlier state was judged by. */
  lemma PoolsAreKept(c: Cells, m: Moves, i: nat, p1: set<Name>, p2: set<Name>, pods: set<Name>)
    requires i == 0 ==> m == NO_MOVES
    ensures i == 0 ==> c.standby - m.up02 == c.standby
    ensures i >= 1 ==> Pool1(c, Record(m, i, p1, p2, pods)) == Pool1(c, m)
    ensures i == 2 ==> Pool2(c, Record(m, i, p1, p2, pods)) == Pool2(c, m)
  {
  }

  lemma StageIsMade(sort: Sorter, d: Desired, c: Cells, m: Moves, i: nat,
                    p1: set<Name>, p2: set<Name>, pods: set<Name>)
    requires i < 3 && MadeUpTo(sort, d, c, m, i)
    requires Picks(sort, Pool(c, m, i), |Pool(c, m, i)| - Wanted(d, i), false, pods)
    requires if i == 0 then Picks(sort, c.cutoff, d.online - |c.online|, true, p1) else p1 == {}
    requires i <= 1 ==> Picks(sort, c.standby - m.up02, Wanted(d, i) - |Pool(c, m, i)| - |p1|, true, p2)
    requires i > 1 ==> p2 == {}
    ensures MadeUpTo(sort, d, c, Record(m, i, p1, p2, pods), i + 1)
  {
    hide Picks, Pool1, Pool2;
    PoolsAreKept(c, m, i, p1, p2, pods);
  }

  lemma FillUpIsMade(sort: Sorter, d: Desired, d3: int, c: Cells, m: Moves, i: nat, need: int,
                     p1: set<Name>, p2: set<Name>)
    requires Permutes(sort) && c.Running() && i < 4 && need > 0 && MadeUpTo(sort, d, c, m, i)
    requires i < 3 ==> need == Wanted(d, i) - |Pool(c, m, i)|
    requires |Book(d, d3, c, m)| == 4
    requires if i == 0 then Picks(sort, Book(d, d3, c, m)[1].current, need, true, p1) else p1 == {}
    requires if i <= 1 then Picks(sort, Book(d, d3, c, m)[2].current, need - |p1|, true, p2) else p2 == {}
    ensures Pulled(Book(d, d3, c, m), i, p1, p2) == Book(d, d3, c, Record(m, i, p1, p2, {}))
    ensures MadeUpTo(sort, d, c, Record(m, i, p1, p2, {}), i + 1)
  {
    hide Picks, Permutes, Pool1, Pool2, Pulled, Book, Step0, Step1, Step2, Cells.Running;
    PicksNothing(sort);
    PulledIsBooked(sort, d, d3, c, m, i, p1, p2);
    if i < 3 {
      BookHoldsPool(sort, d, d3, c, m, i);
      StageIsMade(sort, d, c, m, i, p1, p2, {});
    }
  }

  /** A state that has what it wants is made without moving a pod. */
  lemma StageIsMadeAsItIs(sort: Sorter, d: Desired, c: Cells, m: Moves, i: nat)
    requires i < 3 && MadeUpTo(sort, d, c, m, i) && |Pool(c, m, i)| == Wanted(d, i)
    ensures MadeUpTo(sort, d, c, m, i + 1)
  {
    hide Picks, Pool1, Pool2;
    PicksNothing(sort);
    StageIsMade(sort, d, c, m, i, {}, {}, {});
    assert Record(m, i, {}, {}, {}) == m;
  }

  /** Every transfer takes pods that are there to be taken. */
  ghost predicate Sane(c: Cells, m: Moves) {
    && m.down0 <= c.online && m.up01 <= c.cutoff && m.up02 <= c.standby
    && m.down1 <= Pool1(c, m) && m.up12 <= c.standby - m.up02 && m.down2 <= Pool2(c, m)
  }

  lemma SaneStep0(sort: Sorter, d: Desired, c: Cells, m: Moves)
    requires Permutes(sort) && Step0(sort, d, c, m)
    ensures m.down0 <= c.online && m.up01 <= c.cutoff && m.up02 <= c.standby
  {
    hide Picks, Permutes;
    PicksSubset(sort, c.online, |c.online| - d.online, false, m.down0);
    PicksSubset(sort, c.cutoff, d.online - |c.online|, true, m.up01);
    PicksSubset(sort, c.standby, d.online - |c.online| - |m.up01|, true, m.up02);
  }

  lemma SaneStep1(sort: Sorter, d: Desired, c: Cells, m: Moves)
    requires Permutes(sort) && Step1(sort, d, c, m)
    ensures m.down1 <= Pool1(c, m) && m.up12 <= c.standby - m.up02
  {
    hide Picks, Permutes, Pool1;
    PicksSubset(sort, Pool1(c, m), |Pool1(c, m)| - d.cutoff, false, m.down1);
    PicksSubset(sort, c.standby - m.up02, d.cutoff - |Pool1(c, m)|, true, m.up12);
  }

  lemma MadeIsSane(sort: Sorter, d: Desired, c: Cells, m: Moves, i: nat)
    requires Permutes(sort) && MadeUpTo(sort, d, c, m, i)
    ensures Sane(c, m)
  {
    hide Picks, Permutes, Step0, Step1, Pool1, Pool2;
    if i >= 1 { SaneStep0(sort, d, c, m); }
    if i >= 2 { SaneStep1(sort, d, c, m); }
    if i >= 3 { PicksSubset(sort, Pool2(c, m), |Pool2(c, m)| - d.standby, false, m.down2); }
  }

  /** When the turn of state i comes, its bookkeeping holds exactly its pool, and no
      later state has a candidate. */
  lemma BookHoldsPool(sort: Sorter, d: Desired, d3: int, c: Cells, m: Moves, i: nat)
    requires Permutes(sort) && c.Running() && i < 3 && MadeUpTo(sort, d, c, m, i)
    ensures |Book(d, d3, c, m)| == 4
    ensures var b := Book(d, d3, c, m)[i];
            && b.current !! b.candidate && b.desired == Wanted(d, i)
            && b.current + b.candidate == Pool(c, m, i)
    ensures i == 0 ==> Book(d, d3, c, m)[1].current == c.cutoff
    ensures i <= 1 ==> Book(d, d3, c, m)[2].current == c.standby - m.up02
    ensures forall k :: i < k < 4 ==> Book(d, d3, c, m)[k].candidate == {}
  {
    hide Picks, Permutes, Step0, Step1;
    MadeIsSane(sort, d, c, m, i);
  }

  /** The bookkeeping s after p1 and p2 are pulled to state i from Cutoff and Standby. */
  function Pulled(s: seq<StateInfo>, i: nat, p1: set<Name>, p2: set<Name>): seq<StateInfo>
    requires |s| == 4
  {
    [StateInfo(s[0].desired, s[0].current, if i == 0 then s[0].candidate + p1 + p2 else s[0].candidate),
     StateInfo(s[1].desired, s[1].current - p1, if i == 1 then s[1].candidate + p2 else s[1].candidate),
     StateInfo(s[2].desired, s[2].current - p2, s[2].candidate),
     s[3]]
  }

  /** The bookkeeping s after pods are pushed from state i to the next one. */
  function Pushed(s: seq<StateInfo>, i: nat, pods: set<Name>): seq<StateInfo>
    requires |s| == 4 && i < 3
  {
    s[i := StateInfo(s[i].desired, s[i].current - pods, s[i].candidate - pods)]
     [i + 1 := StateInfo(s[i + 1].desired, s[i + 1].current, s[i + 1].candidate + pods)]
  }

  lemma SameBook(a: seq<StateInfo>, b: seq<StateInfo>)
    requires |a| == |b| == 4
    requires forall k :: 0 <= k < 4 ==> a[k].desired == b[k].desired
    requires forall k :: 0 <= k < 4 ==> a[k].current == b[k].current && a[k].candidate == b[k].candidate
    ensures a == b
  {
  }

  lemma PulledNothing(s: seq<StateInfo>, i: nat)
    requires |s| == 4
    ensures Pulled(s, i, {}, {}) == s
  {
    SameBook(Pulled(s, i, {}, {}), s);
  }

  /** One more state is pulled from: state j gives pods to state i. */
  lemma PulledFromNext(s: seq<StateInfo>, i: nat, j: nat, p1: set<Name>, p2: set<Name>, pods: set<Name>)
    requires |s| == 4 && i < j < 3 && p2 == {} && (j == 1 ==> p1 == {})
    ensures var t := Pulled(s, i, p1, p2);
            && |t| == 4 && t[j].current == s[j].current
            && t[i := t[i].(candidate := t[i].candidate + pods)][j := t[j].(current := t[j].current - pods)]
            == if j == 1 then Pulled(s, i, pods, p2) else Pulled(s, i, p1, pods)
  {
    var t := Pulled(s, i, p1, p2);
    SameBook(t[i := t[i].(candidate := t[i].candidate + pods)][j := t[j].(current := t[j].current - pods)],
             if j == 1 then Pulled(s, i, pods, p2) else Pulled(s, i, p1, pods));
  }

  lemma PulledIsBooked(sort: Sorter, d: Desired, d3: int, c: Cells, m: Moves, i: nat, p1: set<Name>, p2: set<Name>)
    requires Permutes(sort) && c.Running() && i < 4 && MadeUpTo(sort, d, c, m, i)
    requires i != 0 ==> p1 == {}
    requires i > 1 ==> p2 == {}
    ensures Pulled(Book(d, d3, c, m), i, p1, p2)
         == Book(d, d3, c, Record(m, i, p1, p2, {}))
  {
    hide Picks, Permutes, Step0, Step1, Step2;
    MadeIsSane(sort, d, c, m, i);
    SameBook(Pulled(Book(d, d3, c, m), i, p1, p2), Book(d, d3, c, Record(m, i, p1, p2, {})));
  }

  lemma PushedIsBooked(sort: Sorter, d: Desired, d3: int, c: Cells, m: Moves, i: nat, pods: set<Name>)
    requires Permutes(sort) && c.Running() && i < 3 && MadeUpTo(sort, d, c, m, i)
    requires pods <= Pool(c, m, i)
    ensures Pushed(Book(d, d3, c, m), i, pods)
         == Book(d, d3, c, Record(m, i, {}, {}, pods))
  {
    hide Picks, Permutes, Step0, Step1, Step2;
    MadeIsSane(sort, d, c, m, i);
    SameBook(Pushed(Book(d, d3, c, m), i, pods), Book(d, d3, c, Record(m, i, {}, {}, pods)));
  }

  /** A state's candidates are the pods it ends with and did not start with. */
  lemma CandidatesAreNew(d: Desired, d3: int, c: Cells, m: Moves)
    requires c.Running() && Sane(c, m)
    ensures var (b, f) := (Book(d, d3, c, m), Final(c, m));
            && b[0].candidate == f.online - c.online && b[1].candidate == f.cutoff - c.cutoff
            && b[2].candidate == f.standby - c.standby && b[3].candidate == f.deleted
  {
  }

  method MakePodListByNames(names: set<Name>) returns (l: seq<Name>)
    ensures Lists(l, names)
  {
    var rest := names;
    l := [];
    while rest != {}
      invariant rest <= names && Lists(l, names - rest)
      decreases rest
    {
      var name :| name in rest;
      assert names - (rest - {name}) == (names - rest) + {name};
      rest := rest - {name};
      l := l + [name];
    }
    assert names - rest == names;
  }

  /** One more pod: the slice grows by the next pod from its end of the list. */
  lemma SliceGrows(s: seq<Name>, i: nat, scaleUp: bool)
    requires i < |s| && forall a, b :: 0 <= a < b < |s| ==> s[a] != s[b]
    ensures var next := s[if scaleUp then |s| - 1 - i else i];
            && next !in Elems(Slice(s, i, scaleUp))
            && Elems(Slice(s, i + 1, scaleUp)) == Elems(Slice(s, i, scaleUp)) + {next}
  {
    var at := if scaleUp then |s| - 1 - i else i;
    var before := Slice(s, i, scaleUp);
    assert Slice(s, i + 1, scaleUp) == if scaleUp then [s[at]] + before else before + [s[at]];
  }

  lemma SliceEnds(s: seq<Name>, n: nat, scaleUp: bool)
    ensures Elems(Slice(s, 0, scaleUp)) == {}
    ensures n > |s| ==> Slice(s, |s|, scaleUp) == Slice(s, n, scaleUp)
  {
  }

  /** The selection loop: takes n pods from one end of a sorted list. */
  method TakeFrom(s: seq<Name>, n: int, scaleUp: bool) returns (picked: set<Name>)
    requires n > 0 && forall a, b :: 0 <= a < b < |s| ==> s[a] != s[b]
    ensures picked == Elems(Slice(s, n, scaleUp))
  {
    hide Slice, Elems;
    SliceEnds(s, n, scaleUp);
    picked := {};
    var i := 0;
    while i < |s|
      invariant 0 <= i <= |s| && i < n
      invariant picked == Elems(Slice(s, i, scaleUp)) && |picked| == i
    {
      SliceGrows(s, i, scaleUp);
      picked := picked + {s[if scaleUp then |s| - 1 - i else i]};
      i := i + 1;
      if |picked| == n {
        return;
      }
    }
  }

  method SelectPodsToTransfer(sort: Sorter, targetCount: int, scaleUp: bool, candidates: set<Name>)
    returns (r: Result<set<Name>>)
    requires Permutes(sort)
    ensures r.Ok? ==> Picks(sort, candidates, targetCount, scaleUp, r.value)
    ensures r.Err? ==> exists l :: Lists(l, candidates) && sort(l).Err?
  {
    if targetCount <= 0 || candidates == {} {
      return Ok({});
    }
    var l := MakePodListByNames(candidates);
    var sorted := sort(l);
    if sorted.Err? {
      return Err("failed to sort candidate pods");
    }
    DistinctElems(sorted.value, candidates);
    var picked := TakeFrom(sorted.value, targetCount, scaleUp);
    return Ok(picked);
  }

  class StateManager {
    var info: seq<StateInfo>
    const sort: Sorter

    constructor (desired: Desired, desiredDeleted: int, running: Cells, sort: Sorter)
      ensures info == Book(desired, desiredDeleted, running, NO_MOVES)
      ensures this.sort == sort
    {
      this.sort := sort;
      info := [StateInfo(desired.online, running.online, {}), StateInfo(desired.cutoff, running.cutoff, {}),
               StateInfo(desired.standby, running.standby, {}), StateInfo(desiredDeleted, running.deleted, {})];
      new;
      SameBook(info, Book(desired, desiredDeleted, running, NO_MOVES));
    }

    /** The scale-up branch: pulls up to need pods to state i, first from the
        state after it. p1 and p2 are the pods pulled from Cutoff and Standby. */
    method PullFromLaterStates(i: nat, need: int) returns (r: Result<()>, ghost p1: set<Name>, ghost p2: set<Name>)
      requires Permutes(sort) && |info| == 4 && i < 4 && need > 0
      modifies this`info
      ensures r.Err? ==> exists l :: sort(l).Err?
      ensures r.Ok? ==> if i == 0 then Picks(sort, old(info[1].current), need, true, p1) else p1 == {}
      ensures r.Ok? ==> if i <= 1 then Picks(sort, old(info[2].current), need - |p1|, true, p2) else p2 == {}
      ensures r.Ok? ==> info == Pulled(old(info), i, p1, p2)
    {
      hide Picks, Permutes, Pulled;
      p1, p2 := {}, {};
      PulledNothing(info, i);
      var diff := -need;
      var j := i + 1;
      while j < 3 && diff < 0
        invariant i < j <= Max(3, i + 1)
        invariant diff == -need + |p1| + |p2|
        invariant if i == 0 && j >= 2 then Picks(sort, old(info[1].current), need, true, p1) else p1 == {}
        invariant if i <= 1 && j == 3 then Picks(sort, old(info[2].current), need - |p1|, true, p2) else p2 == {}
        invariant info == Pulled(old(info), i, p1, p2)
      {
        PulledFromNext(old(info), i, j, p1, p2, {});
        var selected := SelectPodsToTransfer(sort, -diff, true, info[j].current);
        if selected.Err? {
          return Err("failed to select pods to transfer"), p1, p2;
        }
        var pods := selected.value;
        info := info[i := info[i].(candidate := info[i].candidate + pods)]
                    [j := info[j].(current := info[j].current - pods)];
        PulledFromNext(old(info), i, j, p1, p2, pods);
        if j == 1 { p1 := pods; } else { p2 := pods; }
        diff := diff + |pods|;
        j := j + 1;
      }
      PicksNothing(sort);
      return Ok(()), p1, p2;
    }

    /** The scale-down branch: pushes surplus pods of state i to the next one. */
    method PushToNextState(i: nat, surplus: int) returns (r: Result<()>, ghost pods: set<Name>)
      requires Permutes(sort) && |info| == 4 && i < 3 && surplus > 0
      modifies this`info
      ensures r.Err? ==> exists l :: sort(l).Err?
      ensures r.Ok? ==> Picks(sort, old(info[i].current + info[i].candidate), surplus, false, pods)
      ensures r.Ok? ==> info == Pushed(old(info), i, pods)
    {
      hide Picks, Permutes;
      pods := {};
      var selected := SelectPodsToTransfer(sort, surplus, false, info[i].current + info[i].candidate);
      if selected.Err? {
        return Err("failed to select pods to transfer"), pods;
      }
      pods := selected.value;
      var moved := selected.value;
      info := info[i + 1 := info[i + 1].(candidate := info[i + 1].candidate + moved)]
                  [i := StateInfo(info[i].desired, info[i].current - moved, info[i].candidate - moved)];
      return Ok(()), pods;
    }

    /** State i is short: it is filled up from later states. */
    method FillUp(i: nat, need: int, ghost d: Desired, ghost d3: int, ghost c: Cells, ghost m: Moves)
      returns (r: Result<()>, ghost m': Moves)
      requires Permutes(sort) && c.Running() && i < 4 && need > 0
      requires info == Book(d, d3, c, m) && MadeUpTo(sort, d, c, m, i)
      requires i < 3 ==> need == Wanted(d, i) - |Pool(c, m, i)|
      modifies this`info
      ensures r.Ok? ==> info == Book(d, d3, c, m') && MadeUpTo(sort, d, c, m', i + 1)
      ensures r.Err? ==> exists l :: sort(l).Err?
    {
      hide Picks, Permutes, Pool, Pulled, MadeUpTo, Cells.Running;
      m' := m;
      assert |info| == 4;
      hide Book;
      ghost var p1: set<Name>, p2: set<Name>;
      r, p1, p2 := PullFromLaterStates(i, need);
      if r.Ok? {
        m' := Record(m, i, p1, p2, {});
        FillUpIsMade(sort, d, d3, c, m, i, need, p1, p2);
      }
    }

    /** State i has too many: it is drained into the next one. */
    method Drain(i: nat, surplus: int, ghost d: Desired, ghost d3: int, ghost c: Cells, ghost m: Moves)
      returns (r: Result<()>, ghost m': Moves)
      requires Permutes(sort) && c.Running() && i < 3 && surplus > 0
      requires info == Book(d, d3, c, m) && MadeUpTo(sort, d, c, m, i)
      requires surplus == |Pool(c, m, i)| - Wanted(d, i)
      modifies this`info
      ensures r.Ok? ==> info == Book(d, d3, c, m') && MadeUpTo(sort, d, c, m', i + 1)
      ensures r.Err? ==> exists l :: sort(l).Err?
    {
      hide Picks, Permutes, Pool1, Pool2, Pushed, Step0, Step1, Step2, Cells.Running;
      m' := m;
      assert |info| == 4;
      PicksNothing(sort);
      BookHoldsPool(sort, d, d3, c, m, i);
      hide Book;
      ghost var pods: set<Name>;
      r, pods := PushToNextState(i, surplus);
      if r.Ok? {
        PicksSubset(sort, Pool(c, m, i), surplus, false, pods);
        PushedIsBooked(sort, d, d3, c, m, i, pods);
        m' := Record(m, i, {}, {}, pods);
        StageIsMade(sort, d, c, m, i, {}, {}, pods);
      }
    }

    /** One round of the planner's loop: state i is filled up or drained. */
    method BalanceState(i: nat, ghost d: Desired, ghost d3: int, ghost c: Cells, ghost m: Moves)
      returns (r: Result<()>, ghost m': Moves)
      requires Permutes(sort) && c.Running() && i < 4
      requires info == Book(d, d3, c, m) && MadeUpTo(sort, d, c, m, i)
      modifies this`info
      ensures r.Ok? ==> info == Book(d, d3, c, m') && MadeUpTo(sort, d, c, m', i + 1)
      ensures r.Err? ==> exists l :: sort(l).Err?
    {
      hide Picks, Permutes, Pool1, Pool2, Step0, Step1, Step2, Cells.Running;
      assert |info| == 4;
      if i < 3 { BookHoldsPool(sort, d, d3, c, m, i); }
      hide Book;
      var diff := |info[i].current| + |info[i].candidate| - info[i].desired;
      if diff < 0 {
        r, m' := FillUp(i, -diff, d, d3, c, m);
      } else if diff > 0 && i < 3 {
        r, m' := Drain(i, diff, d, d3, c, m);
      } else {
        if i < 3 { StageIsMadeAsItIs(sort, d, c, m, i); }
        r, m' := Ok(()), m;
      }
    }

    method CalculateStateChange(ghost d: Desired, ghost d3: int, ghost c: Cells)
      returns (r: Result<StateChange>, ghost f: Cells)
      requires Permutes(sort) && c.Running()
      requires info == Book(d, d3, c, NO_MOVES)
      modifies this`info
      ensures r.Ok? ==> Planned(sort, d, c, f)
      ensures r.Ok? ==> Lists(r.value.online, f.online - c.online) && Lists(r.value.cutoff, f.cutoff - c.cutoff)
      ensures r.Ok? ==> Lists(r.value.standby, f.standby - c.standby) && Lists(r.value.delete, f.deleted)
      ensures r.Err? ==> exists l :: sort(l).Err?
    {
      hide Picks;
      ghost var m := NO_MOVES;
      f := c;
      var i := 0;
      while i < 4
        invariant 0 <= i <= 4
        invariant info == Book(d, d3, c, m)
        invariant MadeUpTo(sort, d, c, m, i)
      {
        var balanced;
        balanced, m := BalanceState(i, d, d3, c, m);
        if balanced.Err? {
          return Err(balanced.error), f;
        }
        i := i + 1;
      }
      MadeIsSane(sort, d, c, m, 4);
      CandidatesAreNew(d, d3, c, m);
      var online := MakePodListByNames(info[0].candidate);
      var cutoff := MakePodListByNames(info[1].candidate);
      var standby := MakePodListByNames(info[2].candidate);
      var delete := MakePodListByNames(info[3].candidate);
      f := Final(c, m);
      r := Ok(StateChange(online, cutoff, standby, delete));
    }
  }
}
