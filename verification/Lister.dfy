/** The parallel listing of metrics: listAllMetrics of
    pkg/metric/provider/prometheus/runnable.go, as a state machine whose runs are all
    interleavings of the main goroutine with the goroutines of the queries. */
module Lister {
  import opened Common

  type Selector = string

  type Found = seq<string>

  /** The outcome of a namer: a repeated selector is not queried again. */
  datatype Outcome = Repeated | Listed(found: Found) | Broken

  /** How far the sending for a namer has come. For a repeated selector the main
      goroutine does the sending, otherwise a goroutine of its own. */
  datatype Status =
    | Idle
    | Querying
    | Answered(outcome: Outcome)
    | SentNil(outcome: Outcome)
    | Finished(outcome: Outcome)

  datatype Ending = Rows(rows: seq<Found>) | QueryFailed | NoMetrics

  /** Launching the goroutines, then receiving from the two channels in turns. */
  datatype Main = Launching(i: nat) | WaitErr | WaitSeries | Returned(ending: Ending)

  datatype Message = Nothing | From(selector: Selector, found: Found)

  /** errs holds true for a nil error. The two counters say how much the main goroutine
      has received; queried lists the selectors sent to the server. */
  datatype State = State(namers: seq<Selector>, selectors: set<Selector>, main: Main, status: seq<Status>,
                         errs: seq<bool>, closed: bool, series: seq<Message>, gotErrs: nat, gotSeries: nat,
                         cache: map<Selector, Found>, queried: seq<Selector>)

  function Start(namers: seq<Selector>): State {
    State(namers, {}, if namers == [] then Returned(Rows([])) else Launching(0), seq(|namers|, _ => Idle),
          [], false, [], 0, 0, map[], [])
  }

  /** The steps of the goroutines. Both channels have room for one item per namer. */
  datatype Action =
    | Launch
    | RepeatErr
    | RepeatSeries
    | Reply(i: nat, outcome: Outcome)
    | SendErr(i: nat)
    | SendSeries(i: nat)
    | ReceiveErr
    | ReceiveSeries
    | Finish

  predicate HasRoom<T>(s: State, channel: seq<T>) { |channel| < |s.namers| }

  predicate Enabled(s: State, a: Action) {
    match a
    case Launch => s.main.Launching? && s.main.i < |s.namers| && s.namers[s.main.i] !in s.selectors
    case RepeatErr =>
      && s.main.Launching? && s.main.i < |s.namers| == |s.status|
      && s.namers[s.main.i] in s.selectors && s.status[s.main.i].Idle?
      && HasRoom(s, s.errs) && !s.closed
    case RepeatSeries =>
      && s.main.Launching? && s.main.i < |s.namers| == |s.status|
      && s.status[s.main.i].SentNil? && HasRoom(s, s.series)
    case Reply(i, outcome) => i < |s.status| && s.status[i].Querying? && !outcome.Repeated?
    case SendErr(i) => i < |s.status| && s.status[i].Answered? && HasRoom(s, s.errs) && !s.closed
    case SendSeries(i) =>
      && i < |s.status| == |s.namers| && s.status[i].SentNil? && s.status[i].outcome.Listed?
      && HasRoom(s, s.series)
    case ReceiveErr => s.main.WaitErr? && s.gotErrs < |s.namers| && s.errs != []
    case ReceiveSeries => s.main.WaitSeries? && s.series != []
    case Finish => s.main.WaitErr? && s.gotErrs == |s.namers|
  }

  function Launched(s: State): Main
    requires s.main.Launching?
  {
    if s.main.i + 1 < |s.namers| then Launching(s.main.i + 1) else WaitErr
  }

  function Lookup(s: State): Ending {
    if forall i :: 0 <= i < |s.namers| ==> s.namers[i] in s.cache
    then Rows(seq(|s.namers|, i requires 0 <= i < |s.namers| => s.cache[s.namers[i]]))
    else NoMetrics
  }

  function Store(cache: map<Selector, Found>, m: Message): map<Selector, Found> {
    if m.From? then cache[m.selector := m.found] else cache
  }

  function Apply(s: State, a: Action): State
    requires Enabled(s, a) && |s.status| == |s.namers|
  {
    match a
    case Launch =>
      var sel := s.namers[s.main.i];
      s.(selectors := s.selectors + {sel}, status := s.status[s.main.i := Querying], queried := s.queried + [sel],
         main := Launched(s))
    case RepeatErr => s.(errs := s.errs + [true], status := s.status[s.main.i := SentNil(Repeated)])
    case RepeatSeries =>
      s.(series := s.series + [Nothing], status := s.status[s.main.i := Finished(Repeated)], main := Launched(s))
    case Reply(i, outcome) => s.(status := s.status[i := Answered(outcome)])
    case SendErr(i) =>
      var o := s.status[i].outcome;
      s.(errs := s.errs + [!o.Broken?], status := s.status[i := if o.Broken? then Finished(o) else SentNil(o)])
    case SendSeries(i) =>
      var o := s.status[i].outcome;
      s.(series := s.series + [From(s.namers[i], o.found)], status := s.status[i := Finished(o)])
    case ReceiveErr =>
      s.(errs := s.errs[1..], gotErrs := s.gotErrs + 1, main := if s.errs[0] then WaitSeries else Returned(QueryFailed))
    case ReceiveSeries =>
      s.(series := s.series[1..], gotSeries := s.gotSeries + 1, cache := Store(s.cache, s.series[0]), main := WaitErr)
    case Finish => s.(closed := true, main := Returned(Lookup(s)))
  }

  predicate Runs(s: State, acts: seq<Action>)
    decreases |acts|
  {
    acts == [] || (|s.status| == |s.namers| && Enabled(s, acts[0]) && Runs(Apply(s, acts[0]), acts[1..]))
  }

  /** The state after a run. */
  function After(s: State, acts: seq<Action>): State
    requires Runs(s, acts)
    decreases |acts|
  {
    if acts == [] then s else After(Apply(s, acts[0]), acts[1..])
  }

  // ----- Counting

  function Count<T>(s: seq<T>, p: T -> bool): (n: nat)
    ensures n <= |s|
  {
    if s == [] then 0 else (if p(s[0]) then 1 else 0) + Count(s[1..], p)
  }

  function One(b: bool): nat { if b then 1 else 0 }

  lemma {:induction false} CountUpdate<T>(s: seq<T>, p: T -> bool, i: nat, x: T)
    requires i < |s|
    ensures Count(s[i := x], p) + One(p(s[i])) == Count(s, p) + One(p(x))
  {
    if i == 0 {
      assert s[i := x][1..] == s[1..];
    } else {
      assert s[i := x][1..] == s[1..][i - 1 := x];
      CountUpdate(s[1..], p, i - 1, x);
    }
  }

  lemma {:induction false} CountAppend<T>(s: seq<T>, p: T -> bool, x: T)
    ensures Count(s + [x], p) == Count(s, p) + One(p(x))
  {
    if s == [] {
      assert s + [x] == [x];
    } else {
      assert (s + [x])[1..] == s[1..] + [x];
      CountAppend(s[1..], p, x);
    }
  }

  lemma {:induction false} CountAll<T>(s: seq<T>, p: T -> bool)
    ensures Count(s, p) == |s| <==> forall i :: 0 <= i < |s| ==> p(s[i])
  {
    if s != [] {
      CountAll(s[1..], p);
      assert (forall i :: 0 <= i < |s| ==> p(s[i])) ==> forall i :: 0 <= i < |s| - 1 ==> p(s[1..][i]);
      assert p(s[0]) && (forall i :: 0 <= i < |s| - 1 ==> p(s[1..][i])) ==>
          forall i :: 1 <= i < |s| ==> s[i] == s[1..][i - 1];
    }
  }

  lemma {:induction false} CountSame<T>(s: seq<T>, p: T -> bool, q: T -> bool)
    requires forall i :: 0 <= i < |s| ==> p(s[i]) == q(s[i])
    ensures Count(s, p) == Count(s, q)
  {
    if s != [] {
      CountSame(s[1..], p, q);
    }
  }

  // ----- What every step keeps

  predicate IsNil(err: bool) { err }

  predicate AboutToSendSeries(st: Status) { st.SentNil? && st.outcome.Listed? }

  predicate SentErr(st: Status) { st.SentNil? || st.Finished? }

  predicate SentOk(st: Status) { st.SentNil? || (st.Finished? && !st.outcome.Broken?) }

  predicate SentSeries(st: Status) { st.Finished? && !st.outcome.Broken? }

  predicate IsRepeated(st: Status) { (st.SentNil? || st.Finished?) && st.outcome.Repeated? }

  predicate Repeats(namers: seq<Selector>, i: nat)
    requires i < |namers|
  {
    namers[i] in namers[..i]
  }

  function Position(s: State): nat { if s.main.Launching? then s.main.i else |s.namers| }

  /** The status of namer i when pos namers are done with launching. */
  predicate PlacedAt(namers: seq<Selector>, pos: nat, i: nat, st: Status)
    requires i < |namers|
  {
    && (i < pos ==> st != Idle)
    && (i < pos ==> (IsRepeated(st) <==> st == Finished(Repeated)) && (IsRepeated(st) <==> Repeats(namers, i)))
    && (i == pos ==> st == Idle || (st == SentNil(Repeated) && Repeats(namers, i)))
    && (i > pos ==> st == Idle)
    && (st.Answered? ==> !st.outcome.Repeated?)
    && (st.SentNil? ==> !st.outcome.Broken?)
  }

  /** Who has been launched, and who does the sending. */
  ghost predicate Placed(s: State) {
    && |s.status| == |s.namers|
    && (s.main.Launching? ==> s.main.i < |s.namers|)
    && s.selectors == Elems(s.namers[..Position(s)])
    && forall i :: 0 <= i < |s.status| ==> PlacedAt(s.namers, Position(s), i, s.status[i])
  }

  /** What is in the channels and what was received is what was sent. */
  ghost predicate Balanced(s: State) {
    && |s.errs| + s.gotErrs == Count(s.status, SentErr)
    && |s.series| + s.gotSeries == Count(s.status, SentSeries)
    && (s.main != Returned(QueryFailed) ==> Count(s.errs, IsNil) + s.gotErrs == Count(s.status, SentOk))
  }

  ghost predicate InTurn(s: State) {
    && s.gotErrs <= |s.namers|
    && match s.main
       case Launching(_) => s.gotErrs == s.gotSeries == 0 && !s.closed
       case WaitErr => s.gotErrs == s.gotSeries && !s.closed
       case WaitSeries => s.gotErrs == s.gotSeries + 1 && !s.closed
       case Returned(e) =>
         && (s.closed ==> e != QueryFailed)
         && (e != QueryFailed ==> s.errs == [] && forall i :: 0 <= i < |s.status| ==> SentSeries(s.status[i]))
  }

  /** Each series that was sent is in the channel or in the cache, and nothing else is. */
  ghost predicate Delivered(s: State)
    requires |s.status| == |s.namers|
  {
    && (forall m :: m in s.series && m.From? ==> SentBySome(s, m.selector, m.found))
    && (forall sel :: sel in s.cache ==> SentBySome(s, sel, s.cache[sel]))
    && (forall i :: 0 <= i < |s.namers| && s.status[i].Finished? && s.status[i].outcome.Listed? ==>
          s.namers[i] in s.cache || From(s.namers[i], s.status[i].outcome.found) in s.series)
  }

  ghost predicate SentBySome(s: State, sel: Selector, found: Found)
    requires |s.status| == |s.namers|
  {
    exists i :: 0 <= i < |s.namers| && s.namers[i] == sel && s.status[i] == Finished(Listed(found))
  }

  ghost predicate Queried(s: State) {
    && Elems(s.queried) == s.selectors
    && forall i, j :: 0 <= i < j < |s.queried| ==> s.queried[i] != s.queried[j]
  }

  ghost predicate SomeBroken(s: State) { exists i :: 0 <= i < |s.status| && s.status[i] == Finished(Broken) }

  /** How the main goroutine returned. */
  ghost predicate Ended(s: State) {
    && (false in s.errs ==> SomeBroken(s))
    && match s.main
    case Returned(Rows(rows)) =>
      && |rows| == |s.namers| == |s.status|
      && forall i :: 0 <= i < |rows| ==> SentBySome(s, s.namers[i], rows[i])
    case Returned(QueryFailed) => SomeBroken(s)
    case Returned(NoMetrics) => false
    case _ => true
  }

  ghost predicate Inv(s: State) {
    Placed(s) && Balanced(s) && InTurn(s) && Delivered(s) && Queried(s) && Ended(s)
  }

  function Actor(s: State, a: Action): nat {
    match a
    case Reply(i, _) => i
    case SendErr(i) => i
    case SendSeries(i) => i
    case _ => Position(s)
  }

  /** A step changes the status of its actor only, and that by one stage. */
  lemma OneStatusChanges(s: State, a: Action)
    requires Placed(s) && Enabled(s, a)
    ensures var (t, i) := (Apply(s, a), Actor(s, a));
            && t.namers == s.namers
            && (i < |s.status| ==> t.status == s.status[i := t.status[i]])
            && (i >= |s.status| ==> t.status == s.status)
  {
  }

  lemma PlacedKept(s: State, a: Action)
    requires Placed(s) && Enabled(s, a)
    ensures Placed(Apply(s, a))
  {
    var (t, pos) := (Apply(s, a), Position(s));
    if pos < |s.namers| {
      assert s.namers[..pos + 1] == s.namers[..pos] + [s.namers[pos]];
    }
    assert s.namers[..|s.namers|] == s.namers;
    OneStatusChanges(s, a);
    PlacedActor(s, a);
    assert forall i :: 0 <= i < |s.status| ==> PlacedAt(s.namers, pos, i, s.status[i]);
  }

  lemma PlacedActor(s: State, a: Action)
    requires Placed(s) && Enabled(s, a)
    ensures var (t, i) := (Apply(s, a), Actor(s, a));
            && Position(t) in {Position(s), Position(s) + 1}
            && (Position(t) == Position(s) ==> t.selectors == s.selectors)
            && (Position(t) != Position(s) ==> t.selectors == s.selectors + {s.namers[Position(s)]})
            && (t.main.Launching? ==> t.main.i < |s.namers|)
            && (i < |s.status| ==> PlacedAt(s.namers, Position(t), i, t.status[i]))
  {
    if Actor(s, a) < |s.status| {
      assert PlacedAt(s.namers, Position(s), Actor(s, a), s.status[Actor(s, a)]);
    }
  }

  lemma BalancedKept(s: State, a: Action)
    requires Placed(s) && Balanced(s) && Enabled(s, a)
    ensures Balanced(Apply(s, a))
  {
    var t := Apply(s, a);
    match a {
      case ReceiveErr => assert s.errs == [s.errs[0]] + t.errs;
      case ReceiveSeries =>
      case Finish =>
      case _ => BalancedSend(s, a);
    }
  }

  lemma BalancedSend(s: State, a: Action)
    requires Placed(s) && Balanced(s) && Enabled(s, a) && !a.ReceiveErr? && !a.ReceiveSeries? && !a.Finish?
    ensures Balanced(Apply(s, a))
  {
    hide Apply, Enabled, Count, SentErr, SentOk, SentSeries, PlacedAt;
    var (t, i) := (Apply(s, a), Actor(s, a));
    OneStatusChanges(s, a);
    SendEffect(s, a);
    CountUpdate(s.status, SentErr, i, t.status[i]);
    CountUpdate(s.status, SentOk, i, t.status[i]);
    CountUpdate(s.status, SentSeries, i, t.status[i]);
    if t.errs != s.errs {
      CountAppend(s.errs, IsNil, t.errs[|s.errs|]);
    }
  }

  predicate SendsNothing(s: State, t: State, i: nat)
    requires i < |s.status| && i < |t.status|
  {
    t.errs == s.errs && SentErr(t.status[i]) == SentErr(s.status[i]) && SentOk(t.status[i]) == SentOk(s.status[i])
  }

  /** The channels grow by what the new status says was sent. */
  lemma SendEffect(s: State, a: Action)
    requires Placed(s) && Enabled(s, a) && !a.ReceiveErr? && !a.ReceiveSeries? && !a.Finish?
    ensures var (t, i) := (Apply(s, a), Actor(s, a));
            && i < |s.status| && t.gotErrs == s.gotErrs && t.gotSeries == s.gotSeries
            && (t.main == Returned(QueryFailed) <==> s.main == Returned(QueryFailed))
            && |t.series| == |s.series| + One(SentSeries(t.status[i])) - One(SentSeries(s.status[i]))
            && (|| SendsNothing(s, t, i)
                || (t.errs == s.errs + [SentOk(t.status[i])]
                    && SentErr(t.status[i]) && !SentErr(s.status[i]) && !SentOk(s.status[i])))
  {
    assert PlacedAt(s.namers, Position(s), Actor(s, a), s.status[Actor(s, a)]);
  }

  lemma InTurnKept(s: State, a: Action)
    requires Placed(s) && Balanced(s) && InTurn(s) && Enabled(s, a)
    ensures InTurn(Apply(s, a))
  {
    if a.Finish? {
      AllFinished(s);
    }
  }

  /** When everything was received without an error, everything was sent. */
  lemma AllFinished(s: State)
    requires Placed(s) && Balanced(s) && InTurn(s) && s.main.WaitErr? && s.gotErrs == |s.namers|
    ensures s.errs == [] && s.series == []
    ensures forall i :: 0 <= i < |s.status| ==> SentSeries(s.status[i])
  {
    CountAll(s.status, SentSeries);
  }

  lemma QueriedKept(s: State, a: Action)
    requires Placed(s) && Queried(s) && Enabled(s, a)
    ensures Queried(Apply(s, a))
  {
    hide Placed;
    if a.Launch? {
      var sel := s.namers[s.main.i];
      assert Elems(s.queried + [sel]) == Elems(s.queried) + {sel};
      assert sel !in s.queried;
    }
  }

  /** What was sent stays sent. */
  lemma SentStays(s: State, a: Action, sel: Selector, found: Found)
    requires Placed(s) && Enabled(s, a) && SentBySome(s, sel, found)
    ensures SentBySome(Apply(s, a), sel, found)
  {
    var i :| 0 <= i < |s.namers| && s.namers[i] == sel && s.status[i] == Finished(Listed(found));
    assert Apply(s, a).status[i] == s.status[i];
  }

  lemma DeliveredKept(s: State, a: Action)
    requires Placed(s) && Delivered(s) && Enabled(s, a)
    ensures Placed(Apply(s, a)) && Delivered(Apply(s, a))
  {
    PlacedKept(s, a);
    MessagesKept(s, a);
    CacheKept(s, a);
    FoundKept(s, a);
    hide Enabled, Apply, SentBySome, PlacedAt;
  }

  lemma MessagesKept(s: State, a: Action)
    requires Placed(s) && Delivered(s) && Enabled(s, a)
    ensures var t := Apply(s, a);
            && |t.status| == |t.namers|
            && forall m :: m in t.series && m.From? ==> SentBySome(t, m.selector, m.found)
  {
    hide PlacedAt;
    var t := Apply(s, a);
    forall m | m in t.series && m.From? ensures SentBySome(t, m.selector, m.found) {
      if m in s.series {
        SentStays(s, a, m.selector, m.found);
      } else {
        assert a.SendSeries? && t.status[a.i] == Finished(Listed(m.found));
      }
    }
  }

  lemma CacheKept(s: State, a: Action)
    requires Placed(s) && Delivered(s) && Enabled(s, a)
    ensures var t := Apply(s, a);
            && |t.status| == |t.namers|
            && forall sel :: sel in t.cache ==> SentBySome(t, sel, t.cache[sel])
  {
    hide PlacedAt;
    var t := Apply(s, a);
    forall sel | sel in t.cache ensures SentBySome(t, sel, t.cache[sel]) {
      assert a.ReceiveSeries? ==> s.series[0] in s.series;
      SentStays(s, a, sel, t.cache[sel]);
    }
  }

  lemma FoundKept(s: State, a: Action)
    requires Placed(s) && Delivered(s) && Enabled(s, a)
    ensures var t := Apply(s, a);
            && |t.status| == |t.namers|
            && forall i :: 0 <= i < |t.namers| && t.status[i].Finished? && t.status[i].outcome.Listed? ==>
                 t.namers[i] in t.cache || From(t.namers[i], t.status[i].outcome.found) in t.series
  {
    hide PlacedAt, SentBySome;
    assert a.ReceiveSeries? ==> s.series == [s.series[0]] + Apply(s, a).series;
  }

  /** The namer that is queried for a selector is the first with it. */
  lemma {:induction false} FirstWith(namers: seq<Selector>, i: nat) returns (j: nat)
    requires i < |namers|
    ensures j <= i && namers[j] == namers[i] && !Repeats(namers, j)
  {
    j := i;
    if Repeats(namers, i) {
      var k :| 0 <= k < i && namers[k] == namers[i];
      j := FirstWith(namers, k);
    }
  }

  /** When everything was received, each namer finds its series in the cache. */
  lemma AllCached(s: State)
    requires Placed(s) && Balanced(s) && InTurn(s) && Delivered(s) && s.main.WaitErr? && s.gotErrs == |s.namers|
    ensures forall i :: 0 <= i < |s.namers| ==> s.namers[i] in s.cache
    ensures forall i :: 0 <= i < |s.namers| ==> SentBySome(s, s.namers[i], s.cache[s.namers[i]])
  {
    AllFinished(s);
    forall i | 0 <= i < |s.namers| ensures s.namers[i] in s.cache {
      var j := FirstWith(s.namers, i);
      assert PlacedAt(s.namers, Position(s), j, s.status[j]);
      assert SentSeries(s.status[j]);
    }
  }

  lemma EndedKept(s: State, a: Action)
    requires Inv(s) && Enabled(s, a)
    ensures Ended(Apply(s, a))
  {
    hide Balanced, InTurn, Queried, PlacedAt;
    BrokenStays(s, a);
    if a.Finish? {
      AllCached(s);
    } else if s.main.Returned? && s.main.ending.Rows? {
      var t := Apply(s, a);
      forall i | 0 <= i < |s.namers| ensures SentBySome(t, t.namers[i], t.main.ending.rows[i]) {
        SentStays(s, a, s.namers[i], s.main.ending.rows[i]);
      }
    }
  }

  lemma BrokenStays(s: State, a: Action)
    requires Placed(s) && Enabled(s, a)
    ensures SomeBroken(s) ==> SomeBroken(Apply(s, a))
    ensures false in Apply(s, a).errs ==> false in s.errs || SomeBroken(Apply(s, a))
  {
    var t := Apply(s, a);
    if i :| 0 <= i < |s.status| && s.status[i] == Finished(Broken) {
      assert t.status[i] == s.status[i];
    }
    if a.SendErr? && s.status[a.i].outcome.Broken? {
      assert t.status[a.i] == Finished(Broken);
    }
  }

  lemma InvKept(s: State, a: Action)
    requires Inv(s) && Enabled(s, a)
    ensures Inv(Apply(s, a))
  {
    hide Balanced, InTurn, Delivered, Queried, Ended, Enabled;
    BalancedKept(s, a);
    InTurnKept(s, a);
    DeliveredKept(s, a);
    QueriedKept(s, a);
    EndedKept(s, a);
  }

  // ----- All runs

  lemma StartInv(namers: seq<Selector>)
    ensures Inv(Start(namers))
  {
    var s := Start(namers);
    NoneSent(s.status);
  }

  lemma {:induction false} NoneSent(status: seq<Status>)
    requires forall i :: 0 <= i < |status| ==> status[i] == Idle
    ensures Count(status, SentErr) == Count(status, SentOk) == Count(status, SentSeries) == 0
  {
    if status != [] {
      NoneSent(status[1..]);
    }
  }

  lemma {:induction false} InvAlways(s: State, acts: seq<Action>)
    requires Inv(s) && Runs(s, acts)
    ensures Inv(After(s, acts)) && After(s, acts).namers == s.namers
    decreases |acts|
  {
    hide Inv, Enabled;
    if acts != [] {
      InvKept(s, acts[0]);
      InvAlways(Apply(s, acts[0]), acts[1..]);
    }
  }

  /** Who is about to send can send: there is room, and errs is still open. */
  lemma SendersHaveRoom(s: State)
    requires Inv(s)
    ensures forall i: nat :: i < |s.status| && s.status[i].Answered? ==> Enabled(s, SendErr(i))
    ensures forall i: nat :: i < |s.status| && AboutToSendSeries(s.status[i]) ==> Enabled(s, SendSeries(i))
    ensures s.main.Launching? ==> Enabled(s, Launch) || Enabled(s, RepeatErr) || Enabled(s, RepeatSeries)
  {
    hide Delivered, Queried, Ended;
    CountAll(s.status, SentErr);
    CountAll(s.status, SentSeries);
  }

  /** While the main goroutine waits and no query is running, somebody can go on. */
  lemma NeverStuck(s: State)
    requires Inv(s) && !s.main.Returned? && forall i :: 0 <= i < |s.status| ==> !s.status[i].Querying?
    ensures exists a :: Enabled(s, a) && !a.Reply?
  {
    hide Delivered, Queried, Ended;
    SendersHaveRoom(s);
    if i: nat :| i < |s.status| && s.status[i].Answered? {
      assert Enabled(s, SendErr(i));
    } else if i: nat :| i < |s.status| && s.status[i].SentNil? && s.status[i].outcome.Listed? {
      assert Enabled(s, SendSeries(i));
    } else if s.main.Launching? {
      assert Enabled(s, Launch) || Enabled(s, RepeatErr) || Enabled(s, RepeatSeries);
    } else {
      assert forall i :: 0 <= i < |s.status| ==> PlacedAt(s.namers, Position(s), i, s.status[i]);
      assert forall i :: 0 <= i < |s.status| ==> s.status[i].Finished?;
      CountAll(s.status, SentErr);
      CountSame(s.status, SentOk, SentSeries);
      CountAll(s.status, SentOk);
      assert Enabled(s, ReceiveErr) || Enabled(s, ReceiveSeries) || Enabled(s, Finish);
    }
  }

  // ----- Every run ends

  function Work(st: Status): nat {
    match st
    case Idle => 4
    case Querying => 3
    case Answered(_) => 2
    case SentNil(_) => 1
    case Finished(_) => 0
  }

  function TotalWork(status: seq<Status>): (w: nat)
    ensures w <= 4 * |status|
  {
    if status == [] then 0 else Work(status[0]) + TotalWork(status[1..])
  }

  lemma {:induction false} WorkUpdate(status: seq<Status>, i: nat, st: Status)
    requires i < |status|
    ensures TotalWork(status[i := st]) + Work(status[i]) == TotalWork(status) + Work(st)
  {
    if i == 0 {
      assert status[i := st][1..] == status[1..];
    } else {
      assert status[i := st][1..] == status[1..][i - 1 := st];
      WorkUpdate(status[1..], i - 1, st);
    }
  }

  function Remaining(s: State): int {
    TotalWork(s.status) + (|s.namers| - s.gotErrs) + (|s.namers| - s.gotSeries) + if s.main.Returned? then 0 else 1
  }

  lemma StepsForward(s: State, a: Action)
    requires Inv(s) && Enabled(s, a)
    ensures Remaining(Apply(s, a)) < Remaining(s)
  {
    hide Balanced, Delivered, Queried, Ended, InTurn, PlacedAt, TotalWork;
    var (t, i) := (Apply(s, a), Actor(s, a));
    OneStatusChanges(s, a);
    if !a.ReceiveErr? && !a.ReceiveSeries? && !a.Finish? {
      WorkUpdate(s.status, i, t.status[i]);
      LessWork(s, a);
    }
  }

  lemma LessWork(s: State, a: Action)
    requires Placed(s) && Enabled(s, a) && !a.ReceiveErr? && !a.ReceiveSeries? && !a.Finish?
    ensures var (t, i) := (Apply(s, a), Actor(s, a));
            && i < |s.status| == |t.status| && Work(t.status[i]) < Work(s.status[i])
            && (t.main.Returned? <==> s.main.Returned?)
  {
    assert PlacedAt(s.namers, Position(s), Actor(s, a), s.status[Actor(s, a)]);
  }

  lemma RemainingIsNatural(s: State)
    requires Inv(s)
    ensures Remaining(s) >= 0
  {
    hide Delivered, Queried, Ended;
  }

  lemma {:induction false} RunsAreBounded(s: State, acts: seq<Action>)
    requires Inv(s) && Runs(s, acts)
    ensures |acts| <= Remaining(s)
    decreases |acts|
  {
    hide Inv, Enabled;
    RemainingIsNatural(s);
    if acts != [] {
      StepsForward(s, acts[0]);
      InvKept(s, acts[0]);
      RunsAreBounded(Apply(s, acts[0]), acts[1..]);
    }
  }

  // ----- The main results

  ghost predicate Stopped(s: State) { forall a :: !Enabled(s, a) }

  /** Over every interleaving: no run is longer than 6n + 1 steps; a run that cannot go
      on although every query has been answered has returned, and no goroutine is left
      behind; and whoever is to send is never blocked and never sends on the closed
      channel. */
  lemma ListingTerminates(namers: seq<Selector>, acts: seq<Action>)
    requires Runs(Start(namers), acts)
    ensures |acts| <= 6 * |namers| + 1
    ensures var s := After(Start(namers), acts);
            && |s.status| == |namers|
            && (Stopped(s) ==> s.main.Returned? && forall i :: 0 <= i < |namers| ==> s.status[i].Finished?)
            && (forall i: nat :: i < |namers| && s.status[i].Answered? ==> Enabled(s, SendErr(i)))
            && (forall i: nat :: i < |namers| && AboutToSendSeries(s.status[i]) ==> Enabled(s, SendSeries(i)))
            && (s.closed ==> forall i :: 0 <= i < |namers| ==> s.status[i].Finished?)
  {
    StartInv(namers);
    InvAlways(Start(namers), acts);
    RunsAreBounded(Start(namers), acts);
    var s := After(Start(namers), acts);
    SendersHaveRoom(s);
    if Stopped(s) {
      StoppedReturned(s);
    }
  }

  lemma StoppedReturned(s: State)
    requires Inv(s) && Stopped(s)
    ensures s.main.Returned? && forall i :: 0 <= i < |s.status| ==> s.status[i].Finished?
  {
    hide Delivered, Queried, Ended, Balanced;
    SendersHaveRoom(s);
    forall i: nat | i < |s.status| ensures !s.status[i].Querying? {
      assert !Enabled(s, Reply(i, Broken));
    }
    if !s.main.Returned? {
      NeverStuck(s);
    }
    assert forall i :: 0 <= i < |s.status| ==> PlacedAt(s.namers, Position(s), i, s.status[i]);
  }

  /** What a goroutine sends is what its query was answered. */
  ghost predicate SendsAnswers(s: State, acts: seq<Action>) {
    forall i :: 0 <= i < |s.status| && HasOutcome(s.status[i]) && !s.status[i].outcome.Repeated? ==>
                  Reply(i, s.status[i].outcome) in acts
  }

  predicate HasOutcome(st: Status) { st.Answered? || st.SentNil? || st.Finished? }

  /** And each answer is still that of its goroutine. */
  ghost predicate Remembered(s: State, acts: seq<Action>) {
    forall i: nat, o :: Reply(i, o) in acts ==>
                          i < |s.status| && HasOutcome(s.status[i]) && s.status[i].outcome == o
  }

  lemma AnswersKept(s: State, acts: seq<Action>, a: Action)
    requires Placed(s) && Enabled(s, a) && SendsAnswers(s, acts) && Remembered(s, acts)
    ensures SendsAnswers(Apply(s, a), acts + [a]) && Remembered(Apply(s, a), acts + [a])
  {
    OneStatusChanges(s, a);
    OutcomeStays(s, a);
    hide Enabled, Apply, Placed;
  }

  /** The actor's outcome is what it was, or what the reply says. */
  lemma OutcomeStays(s: State, a: Action)
    requires Placed(s) && Enabled(s, a)
    ensures var (t, i) := (Apply(s, a), Actor(s, a));
            && |t.status| == |s.status|
            && (a.Reply? ==> i == a.i < |s.status| && !HasOutcome(s.status[i]) && t.status[i] == Answered(a.outcome))
            && (!a.Reply? && i < |s.status| && HasOutcome(s.status[i]) ==>
                  HasOutcome(t.status[i]) && t.status[i].outcome == s.status[i].outcome)
            && (!a.Reply? && i < |s.status| && !HasOutcome(s.status[i]) && HasOutcome(t.status[i]) ==>
                  t.status[i].outcome == Repeated)
  {
  }

  lemma {:induction false} AnswersAlways(s: State, before: seq<Action>, acts: seq<Action>)
    requires Inv(s) && Runs(s, acts) && SendsAnswers(s, before) && Remembered(s, before)
    ensures SendsAnswers(After(s, acts), before + acts) && Remembered(After(s, acts), before + acts)
    decreases |acts|
  {
    hide Inv, Enabled, SendsAnswers, Remembered;
    if acts == [] {
      assert before + acts == before;
    } else {
      InvIsPlaced(s);
      AnswersKept(s, before, acts[0]);
      InvKept(s, acts[0]);
      AnswersAlways(Apply(s, acts[0]), before + [acts[0]], acts[1..]);
      assert before + [acts[0]] + acts[1..] == before + acts;
    }
  }

  lemma InvIsPlaced(s: State)
    requires Inv(s)
    ensures Placed(s)
  {
  }

  /** What the listing returns, over every interleaving: each selector is queried at
      most once, and once the launching is over exactly once; the listing fails iff a
      query was answered with an error, and otherwise returns what the server answered
      for each namer's selector. The error that no metrics were retrieved for a query
      never comes. */
  lemma ListingIsRight(namers: seq<Selector>, acts: seq<Action>)
    requires Runs(Start(namers), acts)
    ensures var s := After(Start(namers), acts);
            && s.namers == namers
            && (forall i, j :: 0 <= i < j < |s.queried| ==> s.queried[i] != s.queried[j])
            && (!s.main.Launching? ==> Elems(s.queried) == Elems(namers))
            && (s.main.Returned? ==>
                  && s.main.ending != NoMetrics
                  && (s.main.ending == QueryFailed <==> exists j: nat :: Reply(j, Broken) in acts))
            && (s.main.Returned? && s.main.ending.Rows? ==>
                  && |s.main.ending.rows| == |namers|
                  && forall i :: 0 <= i < |namers| ==> AnsweredFor(namers, acts, i, s.main.ending.rows[i]))
  {
    hide Balanced, Delivered, PlacedAt, SendsAnswers, Remembered;
    StartInv(namers);
    InvAlways(Start(namers), acts);
    NothingAnswered(namers);
    AnswersAlways(Start(namers), [], acts);
    assert [] + acts == acts;
    assert namers[..|namers|] == namers;
    if After(Start(namers), acts).main.Returned? {
      EndingIsAnswered(After(Start(namers), acts), acts);
    }
  }

  /** The server found this for the selector of namer i. */
  ghost predicate AnsweredFor(namers: seq<Selector>, acts: seq<Action>, i: nat, found: Found)
    requires i < |namers|
  {
    exists j: nat :: j < |namers| && namers[j] == namers[i] && Reply(j, Listed(found)) in acts
  }

  lemma NothingAnswered(namers: seq<Selector>)
    ensures SendsAnswers(Start(namers), []) && Remembered(Start(namers), [])
  {
  }

  lemma EndingIsAnswered(s: State, acts: seq<Action>)
    requires Inv(s) && SendsAnswers(s, acts) && Remembered(s, acts) && s.main.Returned?
    ensures s.main.ending == QueryFailed <==> exists j: nat :: Reply(j, Broken) in acts
    ensures s.main.ending.Rows? ==> |s.main.ending.rows| == |s.namers|
    ensures s.main.ending.Rows? ==>
              forall i :: 0 <= i < |s.namers| ==> AnsweredFor(s.namers, acts, i, s.main.ending.rows[i])
  {
    hide Balanced, Delivered, PlacedAt, Queried;
    if s.main.ending == QueryFailed {
      var i :| 0 <= i < |s.status| && s.status[i] == Finished(Broken);
      assert Reply(i, Broken) in acts;
    }
    if s.main.ending.Rows? {
      forall i | 0 <= i < |s.namers| ensures AnsweredFor(s.namers, acts, i, s.main.ending.rows[i]) {
        var found := s.main.ending.rows[i];
        var j :| 0 <= j < |s.namers| && s.namers[j] == s.namers[i] && s.status[j] == Finished(Listed(found));
        assert Reply(j, Listed(found)) in acts;
      }
    }
  }
}
