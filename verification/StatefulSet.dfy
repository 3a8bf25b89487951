/** The StatefulSet sorter, pkg/workload/statefulset.go: pods by descending
    ordinal, the ordinal being parsed from the pod's name. */
module StatefulSet {
  import opened Common
  import opened Planner
  import opened PlannerTheorems
  import opened PlannerOrder

  const MAX_INT := 0x7fff_ffff_ffff_ffff

  predicate IsDigit(c: char) { '0' <= c <= '9' }

  predicate AllDigits(s: string) { forall i :: 0 <= i < |s| ==> IsDigit(s[i]) }

  /** The number a string of digits denotes in base ten. */
  function Value(s: string): nat
    requires AllDigits(s)
  {
    if s == "" then 0 else 10 * Value(s[..|s| - 1]) + (s[|s| - 1] as int - '0' as int)
  }

  /** strconv.Atoi with its error dropped: 0 if malformed, saturated if too big. */
  function Atoi(s: string): int {
    var (negative, digits) :=
      if s != "" && s[0] == '-' then (true, s[1..])
      else if s != "" && s[0] == '+' then (false, s[1..])
      else (false, s);
    if digits == "" || !AllDigits(digits) then 0
    else if negative then Max(0 - Value(digits), -MAX_INT - 1)
    else Min(Value(digits), MAX_INT)
  }

  /** strings.LastIndex for a one-letter pattern. */
  function LastIndex(s: string, c: char): (i: int)
    ensures -1 <= i < |s|
    ensures i >= 0 ==> s[i] == c
    ensures forall k :: i < k < |s| ==> s[k] != c
  {
    if s == "" then -1
    else if s[|s| - 1] == c then |s| - 1
    else LastIndex(s[..|s| - 1], c)
  }

  /** getStatefulSetPodIndex. */
  function Ordinal(name: Name): int { Atoi(name[LastIndex(name, '-') + 1..]) }

  /** The name a StatefulSet gives to its pod number k. */
  function Itoa(k: nat): (s: string)
    ensures s != "" && AllDigits(s)
  {
    if k < 10 then ['0' + k as char] else Itoa(k / 10) + ['0' + (k % 10) as char]
  }

  function PodName(set_: string, k: nat): Name { set_ + "-" + Itoa(k) }

  lemma {:induction false} ValueOfItoa(k: nat)
    ensures Value(Itoa(k)) == k
  {
    var s := Itoa(k);
    if k >= 10 {
      ValueOfItoa(k / 10);
      assert s[..|s| - 1] == Itoa(k / 10);
    } else {
      assert s[..|s| - 1] == "";
    }
  }

  /** The ordinal parsed from a StatefulSet's pod name is the pod's number,
      whatever dashes the StatefulSet's own name has. */
  lemma OrdinalOfPodName(set_: string, k: nat)
    requires k <= MAX_INT
    ensures Ordinal(PodName(set_, k)) == k
  {
    var name := PodName(set_, k);
    assert name[|set_|] == '-';
    assert forall i :: |set_| < i < |name| ==> name[i] == Itoa(k)[i - |set_| - 1];
    assert LastIndex(name, '-') == |set_|;
    assert name[|set_| + 1..] == Itoa(k);
    ValueOfItoa(k);
  }

  /** A name with anything but digits after its last dash, an empty rest included, counts
      as number 0. */
  lemma OrdinalOfOtherName(prefix: string, rest: string)
    requires '-' !in rest
    requires || rest == ""
             || (!IsDigit(rest[0]) && rest[0] != '+')
             || exists i :: 0 < i < |rest| && !IsDigit(rest[i])
    ensures Ordinal(prefix + "-" + rest) == 0
  {
    var name := prefix + "-" + rest;
    assert name[|prefix|] == '-';
    assert forall i :: |prefix| < i < |name| ==> name[i] == rest[i - |prefix| - 1];
    assert LastIndex(name, '-') == |prefix|;
    assert name[|prefix| + 1..] == rest;
    if i :| 0 < i < |rest| && !IsDigit(rest[i]) {
      assert rest[1..][i - 1] == rest[i];
    }
  }

  function Insert(name: Name, l: seq<Name>): seq<Name> {
    if l == [] || Ordinal(l[0]) <= Ordinal(name) then [name] + l
    else [l[0]] + Insert(name, l[1..])
  }

  /** One of the orders sort.Slice may leave the pods in. */
  function SortDescending(l: seq<Name>): seq<Name> {
    if l == [] then [] else Insert(l[0], SortDescending(l[1..]))
  }

  lemma {:induction false} InsertPermutes(name: Name, l: seq<Name>)
    ensures multiset(Insert(name, l)) == multiset(l) + multiset{name}
  {
    hide Ordinal;
    if l != [] {
      InsertPermutes(name, l[1..]);
      assert l == [l[0]] + l[1..];
    }
  }

  lemma {:induction false} InsertSorts(name: Name, l: seq<Name>)
    requires Descending(Ordinal, l)
    ensures Descending(Ordinal, Insert(name, l))
  {
    hide Ordinal;
    if l != [] && Ordinal(l[0]) > Ordinal(name) {
      var rest := Insert(name, l[1..]);
      InsertSorts(name, l[1..]);
      InsertPermutes(name, l[1..]);
      forall i | 0 <= i < |rest| ensures Ordinal(l[0]) >= Ordinal(rest[i]) {
        assert rest[i] in multiset(rest);
        assert rest[i] == name || rest[i] in l[1..];
      }
    }
  }

  lemma NothingDescends()
    ensures Descending(Ordinal, [])
  {
  }

  /** Sorting loses and invents no pod, and the ordinals descend. */
  lemma {:induction false} SortSorts(l: seq<Name>)
    ensures multiset(SortDescending(l)) == multiset(l) && Descending(Ordinal, SortDescending(l))
  {
    hide Ordinal, Insert, Descending;
    if l == [] {
      NothingDescends();
    } else {
      SortSorts(l[1..]);
      InsertSorts(l[0], SortDescending(l[1..]));
      InsertPermutes(l[0], SortDescending(l[1..]));
      assert l == [l[0]] + l[1..];
    }
  }

  method Sort(pods: array<Name>)
    modifies pods
    ensures Descending(Ordinal, pods[..]) && multiset(pods[..]) == multiset(old(pods[..]))
  {
    hide Ordinal;
    var sorted := SortDescending(pods[..]);
    SortSorts(pods[..]);
    assert |multiset(sorted)| == |multiset(pods[..])|;
    forall i | 0 <= i < pods.Length {
      pods[i] := sorted[i];
    }
    assert pods[..] == sorted;
  }

  function SortPods(l: seq<Name>): Result<seq<Name>> { Ok(SortDescending(l)) }

  /** The StatefulSet's sorter is one of those the order theorems are about. */
  lemma StatefulSetSorts()
    ensures SortsDescending(Ordinal, SortPods)
  {
    forall l ensures multiset(SortDescending(l)) == multiset(l) && Descending(Ordinal, SortDescending(l)) {
      SortSorts(l);
    }
  }

  // ----- The plan of a StatefulSet

  function Named(set_: string, numbers: set<nat>): set<Name> { set k | k in numbers :: PodName(set_, k) }

  function Lower(numbers: set<nat>, k: nat): set<nat> { set j | j in numbers && j < k }

  lemma {:induction false} CardNamed(set_: string, numbers: set<nat>)
    requires forall k :: k in numbers ==> k <= MAX_INT
    ensures |Named(set_, numbers)| == |numbers|
  {
    hide Ordinal, PodName;
    if numbers != {} {
      var k :| k in numbers;
      CardNamed(set_, numbers - {k});
      forall j | j in numbers - {k} ensures PodName(set_, j) != PodName(set_, k) {
        OrdinalOfPodName(set_, j);
        OrdinalOfPodName(set_, k);
      }
      assert Named(set_, numbers) == Named(set_, numbers - {k}) + {PodName(set_, k)};
    } else {
      assert Named(set_, numbers) == {};
    }
  }

  lemma RankIsCount(set_: string, numbers: set<nat>, k: nat)
    requires (forall j :: j in numbers ==> j <= MAX_INT) && k in numbers
    ensures Rank(Ordinal, Named(set_, numbers), PodName(set_, k)) == |Lower(numbers, k)|
  {
    hide Ordinal, PodName;
    var (all, x) := (Named(set_, numbers), PodName(set_, k));
    OrdinalOfPodName(set_, k);
    forall y ensures y in all && Ordinal(y) < Ordinal(x) <==> y in Named(set_, Lower(numbers, k)) {
      forall j | j in numbers && PodName(set_, j) == y ensures Ordinal(y) == j {
        OrdinalOfPodName(set_, j);
      }
    }
    RankIs(Ordinal, all, x, Named(set_, Lower(numbers, k)));
    CardNamed(set_, Lower(numbers, k));
  }

  /** For a StatefulSet whose states hold consecutive numbers, the plan keeps the lowest
      numbers online, cuts off the next, puts the next on standby, and deletes the rest:
      pod k is judged by how many pods have a lower number. */
  lemma PlanSlicesByNumber(set_: string, numbers: set<nat>, d: Desired, c: Cells, f: Cells, k: nat)
    requires c.Running() && c.All() == Named(set_, numbers) && forall j :: j in numbers ==> j <= MAX_INT
    requires Stratified(Ordinal, c) && Planned(SortPods, d, c, f) && k in numbers
    ensures var (w, before, x) := (Waterfall(d, |numbers|), |Lower(numbers, k)|, PodName(set_, k));
            && (x in f.online <==> before < w.online)
            && (x in f.cutoff <==> w.online <= before < w.online + w.cutoff)
            && (x in f.standby <==> w.online + w.cutoff <= before < w.online + w.cutoff + w.standby)
            && (x in f.deleted <==> w.online + w.cutoff + w.standby <= before)
  {
    StatefulSetSorts();
    RankIsCount(set_, numbers, k);
    CardNamed(set_, numbers);
    TotalIsAll(c);
    assert PodName(set_, k) in Named(set_, numbers);
    hide Ordinal, PodName, Stratified, SortsDescending, Planned, Rank, Named, Waterfall;
    hide Cells.All, Cells.Running, Total;
    PlanSlicesByKey(Ordinal, SortPods, d, c, f, PodName(set_, k));
  }
}
