/** Which portraits exist and which are remembered: portraitIdentifiersMap and
    cleanupRemovedPortraits of
    controllers/autoscaling/intelligenthorizontalpodautoscaler_controller.go, and
    the identifiers of pkg/portrait/provider/dynamic.go. One autoscaler is seen. */
module Tracking {
  import opened Common

  datatype ProviderType = StaticType | CronType | DynamicType

  /** A configured provider; a dynamic one has a portrait type. */
  datatype Config = StaticConfig | CronConfig | DynamicConfig(portraitType: string)

  function TypeOf(cfg: Config): ProviderType {
    match cfg
    case StaticConfig => StaticType
    case CronConfig => CronType
    case DynamicConfig(_) => DynamicType
  }

  function TypeName(t: ProviderType): string {
    match t
    case StaticType => "Static"
    case CronType => "Cron"
    case DynamicType => "Dynamic"
  }

  /** GetPortraitIdentifier of the three providers. */
  function Identifier(cfg: Config): string {
    TypeName(TypeOf(cfg)) + match cfg case DynamicConfig(pt) => "-" + pt case _ => ""
  }

  /** The entry of the identifiers' set for a configured provider. */
  function Key(cfg: Config): string { TypeName(TypeOf(cfg)) + "/" + Identifier(cfg) }

  /** strings.Split for a one-letter separator. */
  function Split(s: string, sep: char): (parts: seq<string>)
    ensures |parts| >= 1
  {
    if s == "" then [""]
    else if s[0] == sep then [""] + Split(s[1..], sep)
    else
      var rest := Split(s[1..], sep);
      [[s[0]] + rest[0]] + rest[1..]
  }

  /** What the cleanup makes of an entry: which provider to ask, and for which
      portrait type. None stands for its errors and its out-of-range access. */
  function Decode(key: string): Option<Config> {
    var parts := Split(key, '/');
    if |parts| != 2 then None
    else if parts[0] == TypeName(StaticType) then Some(StaticConfig)
    else if parts[0] == TypeName(CronType) then Some(CronConfig)
    else if parts[0] == TypeName(DynamicType) then
      var words := Split(parts[1], '-');
      if |words| < 2 then None else Some(DynamicConfig(words[1]))
    else None
  }

  lemma {:induction false} SplitAtFirst(a: string, sep: char, b: string)
    requires sep !in a
    ensures Split(a + [sep] + b, sep) == [a] + Split(b, sep)
  {
    var s := a + [sep] + b;
    if a == "" {
      assert s[1..] == b;
    } else {
      assert s[1..] == a[1..] + [sep] + b;
      SplitAtFirst(a[1..], sep, b);
      assert [a[0]] + a[1..] == a;
    }
  }

  /** The first part ends where the separator first occurs. */
  lemma {:induction false} SplitFirst(s: string, sep: char)
    ensures var first := Split(s, sep)[0];
            && first <= s && sep !in first
            && (|Split(s, sep)| == 1 <==> first == s)
            && (first != s ==> s[|first|] == sep)
  {
    if s != "" && s[0] != sep {
      SplitFirst(s[1..], sep);
      var (rest, first) := (Split(s[1..], sep), Split(s, sep)[0]);
      assert first[1..] == rest[0] && s == [s[0]] + s[1..];
      assert first != s ==> s[|first|] == s[1..][|rest[0]|];
    }
  }

  predicate Clean(cfg: Config) { cfg.DynamicConfig? ==> '/' !in cfg.portraitType && '-' !in cfg.portraitType }

  lemma KeyOfDynamic(portraitType: string)
    ensures Split(Key(DynamicConfig(portraitType)), '/') == ["Dynamic"] + Split("Dynamic-" + portraitType, '/')
    ensures Split("Dynamic-" + portraitType, '-') == ["Dynamic"] + Split(portraitType, '-')
  {
    var identifier := "Dynamic" + ("-" + portraitType);
    assert identifier == "Dynamic-" + portraitType == "Dynamic" + ['-'] + portraitType;
    assert Key(DynamicConfig(portraitType)) == "Dynamic" + ['/'] + identifier;
    SplitAtFirst("Dynamic", '/', identifier);
    SplitAtFirst("Dynamic", '-', portraitType);
  }

  /** An entry is decoded to the provider it was made for if and only if the
      portrait type has neither a slash nor a dash. With a slash it is not decoded
      at all, with only a dash it is decoded to another, shorter portrait type. */
  lemma RoundTripIff(cfg: Config)
    ensures Decode(Key(cfg)) == Some(cfg) <==> Clean(cfg)
    ensures cfg.DynamicConfig? && '/' in cfg.portraitType ==> Decode(Key(cfg)) == None
    ensures Decode(Key(cfg)).Some? ==> TypeOf(Decode(Key(cfg)).value) == TypeOf(cfg)
    ensures cfg.DynamicConfig? && '/' !in cfg.portraitType && '-' in cfg.portraitType ==>
              exists cut :: && 0 <= cut < |cfg.portraitType|
                            && Decode(Key(cfg)) == Some(DynamicConfig(cfg.portraitType[..cut]))
  {
    match cfg {
      case StaticConfig => DecodeConstant(StaticConfig);
      case CronConfig => DecodeConstant(CronConfig);
      case DynamicConfig(pt) =>
        DecodeDynamic(pt);
        SplitFirst(pt, '-');
        var cut := |Split(pt, '-')[0]|;
        assert Split(pt, '-')[0] == pt[..cut];
        assert cut == |pt| ==> pt[..cut] == pt;
        hide Split, Decode, Key;
    }
  }

  lemma DecodeConstant(cfg: Config)
    requires !cfg.DynamicConfig?
    ensures Decode(Key(cfg)) == Some(cfg)
  {
    var word := TypeName(TypeOf(cfg));
    assert '/' !in word;
    SplitAtFirst(word, '/', word);
    SplitFirst(word, '/');
    assert Key(cfg) == word + ['/'] + word;
    hide Split;
  }

  lemma DecodeDynamic(pt: string)
    ensures Decode(Key(DynamicConfig(pt)))
         == if '/' in pt then None else Some(DynamicConfig(Split(pt, '-')[0]))
  {
    hide Split, Key;
    var identifier := "Dynamic-" + pt;
    KeyOfDynamic(pt);
    SplitFirst(identifier, '/');
    var at := |"Dynamic-"|;
    assert identifier[at..] == pt && identifier[..at] == "Dynamic-";
    assert '/' in identifier <==> '/' in pt by { assert forall i :: 0 <= i < at ==> "Dynamic-"[i] != '/'; }
  }

  /** Different providers have different entries, whatever their portrait types. */
  lemma KeysAreDistinct(a: Config, b: Config)
    requires Key(a) == Key(b)
    ensures a == b
  {
    assert Key(a)[0] == TypeName(TypeOf(a))[0] && Key(b)[0] == TypeName(TypeOf(b))[0];
    if a.DynamicConfig? {
      KeyEndsWithType(a.portraitType);
      KeyEndsWithType(b.portraitType);
    }
  }

  lemma KeyEndsWithType(portraitType: string)
    ensures Key(DynamicConfig(portraitType)) == "Dynamic/Dynamic-" + portraitType
    ensures Key(DynamicConfig(portraitType))[16..] == portraitType
  {
  }

  // ----- What the providers keep in the cluster and in memory

  datatype Resource = Portrait(name: string) | Task(name: string) | Timer(name: string)

  function LowerChar(c: char): char { if 'A' <= c <= 'Z' then c - 'A' + 'a' else c }

  /** strings.ToLower on ASCII. */
  function ToLower(s: string): (r: string)
    ensures |r| == |s|
  {
    seq(|s|, i requires 0 <= i < |s| => LowerChar(s[i]))
  }

  function PortraitName(ihpa: string, portraitType: string): (r: string)
    ensures |r| > |ihpa|
  {
    ToLower(ihpa + "-" + portraitType)
  }

  /** The name of a portrait is that of its autoscaler and its type, both lower-cased. */
  lemma PortraitNameMeaning(ihpa: string, portraitType: string)
    ensures PortraitName(ihpa, portraitType) == ToLower(ihpa) + "-" + ToLower(portraitType)
    ensures forall c :: c in PortraitName(ihpa, portraitType) ==> !('A' <= c <= 'Z')
  {
  }

  /** Everything a provider may leave behind. */
  function Owned(ihpa: string, cfg: Config): set<Resource> {
    match cfg
    case StaticConfig => {}
    case CronConfig => {Task(ihpa)}
    case DynamicConfig(pt) => var n := PortraitName(ihpa, pt); {Portrait(n), Task(n), Timer(n)}
  }

  /** What a provider has when its update succeeded. */
  function Needed(ihpa: string, cfg: Config): set<Resource> {
    match cfg
    case StaticConfig => {}
    case CronConfig => {Task(ihpa)}
    case DynamicConfig(pt) => {Portrait(PortraitName(ihpa, pt))}
  }

  ghost predicate OwnedBySome(ihpa: string, cfgs: set<Config>, r: Resource) {
    exists c :: c in cfgs && r in Owned(ihpa, c)
  }

  ghost predicate Covered(ihpa: string, live: set<Resource>, named: set<Config>) {
    forall r :: r in live ==> OwnedBySome(ihpa, named, r)
  }

  /** The cleanup of these entries removes r. */
  ghost predicate Cleans(ihpa: string, keys: set<string>, r: Resource) {
    exists k :: k in keys && Decode(k).Some? && r in Owned(ihpa, Decode(k).value)
  }

  ghost predicate AllDecode(keys: set<string>) { forall k :: k in keys ==> Decode(k).Some? }

  function CleanOf(cfgs: set<Config>): set<Config> { set c | c in cfgs && Clean(c) }

  /** Something lives that no provider with a clean portrait type owns, and that none of
      the providers that stay owns. */
  ghost predicate Strands(ihpa: string, live: set<Resource>, named: set<Config>, after: set<Config>) {
    exists r :: r in live && !OwnedBySome(ihpa, after, r) && !OwnedBySome(ihpa, CleanOf(named), r)
  }

  ghost predicate AllClean(cfgs: set<Config>) { forall c :: c in cfgs ==> Clean(c) }

  function Keys(cfgs: set<Config>): set<string> { set c | c in cfgs :: Key(c) }

  /** A fetch may fail, and may start or stop the triggers of its portrait. */
  datatype Fetched = Fetched(ok: bool, task: Option<bool>, timer: Option<bool>)

  function Switch(live: set<Resource>, r: Resource, on: Option<bool>): set<Resource> {
    match on
    case None => live
    case Some(true) => live + {r}
    case Some(false) => live - {r}
  }

  /** Whether a fetch starts or stops the trigger r, if it does either. */
  function SwitchOf(ihpa: string, cfg: Config, fetched: Fetched, r: Resource): (on: Option<bool>)
    ensures on.Some? ==> !r.Portrait? && r != Task(ihpa)
  {
    if cfg.DynamicConfig? && r == Task(PortraitName(ihpa, cfg.portraitType)) then fetched.task
    else if cfg.DynamicConfig? && r == Timer(PortraitName(ihpa, cfg.portraitType)) then fetched.timer
    else None
  }

  /** Of the first n fetches, number i is the last that starts or stops r. */
  ghost predicate LastSwitch(ihpa: string, cfgs: seq<Config>, fetch: nat -> Fetched, r: Resource, i: nat, n: nat)
    requires n <= |cfgs|
  {
    && i < n && SwitchOf(ihpa, cfgs[i], fetch(i), r).Some?
    && NoSwitch(ihpa, cfgs, fetch, r, i + 1, n)
  }

  ghost predicate NoSwitch(ihpa: string, cfgs: seq<Config>, fetch: nat -> Fetched, r: Resource, m: nat, n: nat)
    requires n <= |cfgs|
  {
    forall j: nat :: m <= j < n ==> SwitchOf(ihpa, cfgs[j], fetch(j), r).None?
  }

  /** The triggers after n fetches: as the last fetch that starts or stops one says, and
      otherwise as before. */
  ghost predicate Switched(ihpa: string, cfgs: seq<Config>, fetch: nat -> Fetched, n: nat,
                           before: set<Resource>, live: set<Resource>)
    requires n <= |cfgs|
  {
    && (forall r, i: nat :: LastSwitch(ihpa, cfgs, fetch, r, i, n) ==>
                              (r in live <==> SwitchOf(ihpa, cfgs[i], fetch(i), r).value))
    && (forall r: Resource :: !r.Portrait? && r != Task(ihpa) && NoSwitch(ihpa, cfgs, fetch, r, 0, n) ==>
                      (r in live <==> r in before))
  }

  lemma SwitchedOneMore(ihpa: string, cfgs: seq<Config>, fetch: nat -> Fetched, n: nat,
                        before: set<Resource>, first: set<Resource>, updated: set<Resource>, live: set<Resource>)
    requires n < |cfgs| && Switched(ihpa, cfgs, fetch, n, before, first)
    requires forall r: Resource :: !r.Portrait? && r != Task(ihpa) ==> (r in updated <==> r in first)
    requires forall r :: r in live <==> SwitchTo(SwitchOf(ihpa, cfgs[n], fetch(n), r), r in updated)
    ensures Switched(ihpa, cfgs, fetch, n + 1, before, live)
  {
    hide SwitchOf;
    forall r, i: nat | LastSwitch(ihpa, cfgs, fetch, r, i, n + 1)
      ensures r in live <==> SwitchOf(ihpa, cfgs[i], fetch(i), r).value
    {
      if i < n {
        assert SwitchOf(ihpa, cfgs[n], fetch(n), r).None?;
        assert LastSwitch(ihpa, cfgs, fetch, r, i, n);
      }
    }
    forall r: Resource | !r.Portrait? && r != Task(ihpa) && NoSwitch(ihpa, cfgs, fetch, r, 0, n + 1)
      ensures r in live <==> r in before
    {
      assert SwitchOf(ihpa, cfgs[n], fetch(n), r).None?;
      assert NoSwitch(ihpa, cfgs, fetch, r, 0, n);
    }
  }

  predicate SwitchTo(on: Option<bool>, before: bool) { if on.Some? then on.value else before }

  /** The requests that the providers make are answered: a static one makes none. */
  ghost predicate AllAnswer(cfgs: seq<Config>, update: nat -> Reply, fetch: nat -> Fetched) {
    forall i: nat :: i < |cfgs| && !cfgs[i].StaticConfig? ==> update(i) == Done && fetch(i).ok
  }

  /** The entries can be decoded, and the deletions of portraits are done. */
  ghost predicate CanClean(keys: set<string>, cleanup: string -> Reply) {
    forall k :: k in keys ==> Decode(k).Some? && (Decode(k).value.DynamicConfig? ==> cleanup(k) == Done)
  }

  /** One autoscaler, as its controller remembers it and as it is in the cluster. */
  class PortraitTracker {
    const registered: set<ProviderType>
    const ihpa: string
    var identifiers: Option<set<string>>
    var live: set<Resource>
    ghost var named: set<Config>

    ghost predicate Valid()
      reads this
    {
      && (forall c :: c in named ==> TypeOf(c) in registered)
      && (if identifiers.None? then named == {} else identifiers.value == Keys(named))
    }

    constructor (registered: set<ProviderType>, ihpa: string)
      ensures Valid() && this.registered == registered && this.ihpa == ihpa
      ensures live == {} && named == {}
    {
      this.registered := registered;
      this.ihpa := ihpa;
      identifiers := None;
      live := {};
      named := {};
    }

    method UpdatePortraitSpec(cfg: Config, reply: Reply) returns (ok: bool)
      modifies this`live
      ensures old(live) - Owned(ihpa, cfg) <= live <= old(live) + Owned(ihpa, cfg)
      ensures ok ==> live == old(live) + Needed(ihpa, cfg)
      ensures ok <==> cfg.StaticConfig? || reply == Done
      ensures !ok && cfg.CronConfig? ==> live == old(live) - {Task(ihpa)}
      ensures cfg.DynamicConfig? ==>
                live == old(live) + if reply == Rejected then {} else {Portrait(PortraitName(ihpa, cfg.portraitType))}
      ensures forall r: Resource :: !r.Portrait? && r != Task(ihpa) ==> (r in live <==> r in old(live))
    {
      match cfg {
        case StaticConfig =>
          ok := true;
        case CronConfig =>
          ok := reply == Done;
          live := if ok then live + {Task(ihpa)} else live - {Task(ihpa)};
        case DynamicConfig(pt) =>
          ok := reply == Done;
          if reply != Rejected {
            live := live + {Portrait(PortraitName(ihpa, pt))};
          }
      }
    }

    method FetchPortraitValue(cfg: Config, fetched: Fetched) returns (ok: bool)
      modifies this`live
      ensures old(live) - Owned(ihpa, cfg) <= live <= old(live) + Owned(ihpa, cfg)
      ensures forall c :: Needed(ihpa, c) <= old(live) ==> Needed(ihpa, c) <= live
      ensures ok <==> cfg.StaticConfig? || fetched.ok
      ensures cfg.DynamicConfig? && fetched.task.Some? ==>
                (Task(PortraitName(ihpa, cfg.portraitType)) in live <==> fetched.task.value)
      ensures cfg.DynamicConfig? && fetched.timer.Some? ==>
                (Timer(PortraitName(ihpa, cfg.portraitType)) in live <==> fetched.timer.value)
      ensures forall r :: r in live <==> SwitchTo(SwitchOf(ihpa, cfg, fetched, r), r in old(live))
    {
      ok := cfg.StaticConfig? || fetched.ok;
      if cfg.DynamicConfig? {
        var n := PortraitName(ihpa, cfg.portraitType);
        live := Switch(live, Task(n), fetched.task);
        live := Switch(live, Timer(n), fetched.timer);
      }
    }

    method CleanupPortrait(cfg: Config, reply: Reply) returns (ok: bool)
      modifies this`live
      ensures live <= old(live)
      ensures ok ==> live == old(live) - Owned(ihpa, cfg)
      ensures ok <==> !cfg.DynamicConfig? || reply == Done
      ensures cfg.DynamicConfig? ==>
                var n := PortraitName(ihpa, cfg.portraitType);
                live == old(live) - {Task(n), Timer(n)} - if reply == Rejected then {} else {Portrait(n)}
    {
      match cfg {
        case StaticConfig =>
          ok := true;
        case CronConfig =>
          live := live - {Task(ihpa)};
          ok := true;
        case DynamicConfig(pt) =>
          var n := PortraitName(ihpa, pt);
          live := live - {Task(n), Timer(n)};
          if reply != Rejected {
            live := live - {Portrait(n)};
          }
          ok := reply == Done;
      }
    }

    /** cleanupRemovedPortraits, in any order: a success removes exactly what the decoded
        entries own, and it comes iff all of them can be decoded and no deletion fails. */
    method CleanupRemoved(previous: set<string>, current: set<string>, cleanup: string -> Reply) returns (ok: bool)
      requires Valid() && previous == Keys(named)
      modifies this`live
      ensures live <= old(live)
      ensures ok ==> forall r :: r in live <==> r in old(live) && !Cleans(ihpa, previous - current, r)
      ensures ok ==> AllDecode(previous - current)
      ensures ok <==> CanClean(previous - current, cleanup)
    {
      hide Key, Decode, Owned;
      var todo := previous - current;
      ghost var done: set<string> := {};
      while todo != {}
        invariant todo <= previous - current && live <= old(live) && done == previous - current - todo
        invariant CanClean(done, cleanup)
        invariant AllDecode(done) && forall r :: r in live <==> r in old(live) && !Cleans(ihpa, done, r)
      {
        var key :| key in todo;
        todo := todo - {key};
        ghost var c :| c in named && Key(c) == key;
        RoundTripIff(c);
        var decoded := Decode(key);
        if decoded.None? || TypeOf(decoded.value) !in registered {
          return false;
        }
        CleansOneMore(ihpa, done, key);
        done := done + {key};
        ok := CleanupPortrait(decoded.value, cleanup(key));
        if !ok {
          return false;
        }
      }
      return true;
    }

    /** The first loop: the entries of the configured providers, if all are known. */
    method CurrentIdentifiers(cfgs: seq<Config>) returns (ok: bool, current: set<string>)
      ensures ok <==> forall c :: c in cfgs ==> TypeOf(c) in registered
      ensures ok ==> current == Keys(Elems(cfgs))
    {
      hide Key;
      current := {};
      for i := 0 to |cfgs|
        invariant current == Keys(Elems(cfgs[..i]))
        invariant forall k :: 0 <= k < i ==> TypeOf(cfgs[k]) in registered
      {
        if TypeOf(cfgs[i]) !in registered {
          return false, current;
        }
        assert Elems(cfgs[..i + 1]) == Elems(cfgs[..i]) + {cfgs[i]};
        current := current + {Key(cfgs[i])};
      }
      assert cfgs[..|cfgs|] == cfgs;
      ok := true;
    }

    /** The second loop: the first request that fails ends it. */
    method UpdateAndFetchAll(cfgs: seq<Config>, update: nat -> Reply, fetch: nat -> Fetched) returns (ok: bool)
      modifies this`live
      ensures ok <==> AllAnswer(cfgs, update, fetch)
      ensures SameOrphans(ihpa, Elems(cfgs), old(live), live)
      ensures ok ==> forall c :: c in cfgs ==> Needed(ihpa, c) <= live
      ensures ok ==> Switched(ihpa, cfgs, fetch, |cfgs|, old(live), live)
    {
      hide Owned, Needed, SwitchOf, Switched, SameOrphans;
      NothingSwitched(ihpa, cfgs, fetch, live);
      SameAtFirst(ihpa, Elems(cfgs), live);
      for i := 0 to |cfgs|
        invariant SameOrphans(ihpa, Elems(cfgs), old(live), live)
        invariant forall k :: 0 <= k < i ==> Needed(ihpa, cfgs[k]) <= live
        invariant forall k: nat :: k < i && !cfgs[k].StaticConfig? ==> update(k) == Done && fetch(k).ok
        invariant Switched(ihpa, cfgs, fetch, i, old(live), live)
      {
        ghost var first := live;
        ok := UpdatePortraitSpec(cfgs[i], update(i));
        OrphansStay(ihpa, Elems(cfgs), old(live), first, live, cfgs[i]);
        if !ok {
          return false;
        }
        ghost var updated := live;
        ok := FetchPortraitValue(cfgs[i], fetch(i));
        OrphansStay(ihpa, Elems(cfgs), old(live), updated, live, cfgs[i]);
        if !ok {
          return false;
        }
        SwitchedOneMore(ihpa, cfgs, fetch, i, old(live), first, updated, live);
      }
      ok := true;
    }

    /** updateAndFetchPortraitValue without the choice of the value; stored says whether
        the new entries have replaced the old ones. Wherever it stops, everything that
        lives still belongs to a remembered provider, unless the replacement strands
        something. It succeeds iff no request of a configured provider and no deletion fails;
        then all that is configured lives, and the triggers are as the fetches left them. */
    method UpdateAndFetch(cfgs: seq<Config>, cleanup: string -> Reply, update: nat -> Reply, fetch: nat -> Fetched)
      returns (ok: bool, ghost stored: bool)
      requires Valid()
      modifies this`identifiers, this`live, this`named
      ensures Valid() && named == if stored then Elems(cfgs) else old(named)
      ensures old(Covered(ihpa, live, named)) ==>
                (Covered(ihpa, live, named) <==> !(stored && Strands(ihpa, old(live), old(named), Elems(cfgs))))
      ensures stored ==> AllDecode(Keys(old(named)) - Keys(Elems(cfgs)))
      ensures stored <==> (forall c :: c in cfgs ==> TypeOf(c) in registered)
                          && CanClean(Keys(old(named)) - Keys(Elems(cfgs)), cleanup)
      ensures ok <==> stored && AllAnswer(cfgs, update, fetch)
      ensures ok ==> forall c :: c in cfgs ==> Needed(ihpa, c) <= live
      ensures ok ==>
                exists kept :: && Switched(ihpa, cfgs, fetch, |cfgs|, kept, live)
                               && forall r :: r in kept <==>
                                                r in old(live) && !Cleans(ihpa, Keys(old(named)) - Keys(Elems(cfgs)), r)
    {
      hide Key, Owned, Clean, Decode, Strands, Switched, SameOrphans, Covered, CanClean, AllAnswer, Cleans, AllDecode;
      stored := false;
      var current;
      ok, current := CurrentIdentifiers(cfgs);
      if !ok {
        return false, stored;
      }
      if identifiers.Some? {
        ok := CleanupRemoved(identifiers.value, current, cleanup);
        if !ok {
          CoveredIfFewer(ihpa, old(live), live, named);
          return false, stored;
        }
      } else {
        NothingToClean(ihpa, current, cleanup);
      }
      CoveredAfterCleanup(ihpa, old(live), live, named, Elems(cfgs));
      stored, identifiers, named := true, Some(current), Elems(cfgs);
      ghost var cleaned := live;
      ok := UpdateAndFetchAll(cfgs, update, fetch);
      CoveredIfSameOrphans(ihpa, named, cleaned, live);
    }
  }

  lemma SameAtFirst(ihpa: string, cfgs: set<Config>, live: set<Resource>)
    ensures SameOrphans(ihpa, cfgs, live, live)
  {
  }

  lemma CoveredIfFewer(ihpa: string, before: set<Resource>, live: set<Resource>, named: set<Config>)
    requires live <= before
    ensures Covered(ihpa, before, named) ==> Covered(ihpa, live, named)
  {
    hide OwnedBySome;
  }

  lemma NothingToClean(ihpa: string, current: set<string>, cleanup: string -> Reply)
    ensures Keys({}) - current == {}
    ensures CanClean({}, cleanup) && AllDecode({}) && forall r :: !Cleans(ihpa, {}, r)
  {
  }

  lemma NothingSwitched(ihpa: string, cfgs: seq<Config>, fetch: nat -> Fetched, live: set<Resource>)
    ensures Switched(ihpa, cfgs, fetch, 0, live, live)
  {
  }

  lemma CleansOneMore(ihpa: string, keys: set<string>, key: string)
    ensures forall r :: Cleans(ihpa, keys + {key}, r) <==>
                          Cleans(ihpa, keys, r) || (Decode(key).Some? && r in Owned(ihpa, Decode(key).value))
  {
    hide Decode, Owned;
    forall r ensures Cleans(ihpa, keys + {key}, r) <==>
                       Cleans(ihpa, keys, r) || (Decode(key).Some? && r in Owned(ihpa, Decode(key).value))
    {
      if k :| k in keys && Decode(k).Some? && r in Owned(ihpa, Decode(k).value) {
        assert k in keys + {key};
      }
      assert key in keys + {key};
    }
  }

  /** Outside of what the providers own nothing has changed. */
  ghost predicate SameOrphans(ihpa: string, cfgs: set<Config>, before: set<Resource>, after: set<Resource>) {
    forall r :: !OwnedBySome(ihpa, cfgs, r) ==> (r in before <==> r in after)
  }

  lemma OrphansStay(ihpa: string, cfgs: set<Config>, first: set<Resource>,
                    before: set<Resource>, after: set<Resource>, cfg: Config)
    requires cfg in cfgs && SameOrphans(ihpa, cfgs, first, before)
    requires before - Owned(ihpa, cfg) <= after <= before + Owned(ihpa, cfg)
    ensures SameOrphans(ihpa, cfgs, first, after)
  {
    hide Owned;
  }

  lemma CoveredIfSameOrphans(ihpa: string, cfgs: set<Config>, before: set<Resource>, after: set<Resource>)
    requires SameOrphans(ihpa, cfgs, before, after)
    ensures Covered(ihpa, after, cfgs) <==> Covered(ihpa, before, cfgs)
  {
    hide OwnedBySome;
  }

  /** The names of two portraits are only the same if both types are clean or none is. */
  lemma SameNameSameClean(ihpa: string, a: string, b: string)
    requires PortraitName(ihpa, a) == PortraitName(ihpa, b)
    ensures Clean(DynamicConfig(a)) <==> Clean(DynamicConfig(b))
  {
    assert |a| == |b|;
    forall i | 0 <= i < |a| ensures LowerChar(a[i]) == LowerChar(b[i]) {
      assert PortraitName(ihpa, a)[|ihpa| + 1 + i] == LowerChar(a[i]);
      assert PortraitName(ihpa, b)[|ihpa| + 1 + i] == LowerChar(b[i]);
    }
    assert forall i :: 0 <= i < |a| ==> (a[i] == '-' <==> b[i] == '-') && (a[i] == '/' <==> b[i] == '/');
    hide PortraitName;
  }

  lemma OwnersAgree(ihpa: string, a: Config, b: Config, r: Resource)
    requires r in Owned(ihpa, a) && r in Owned(ihpa, b)
    ensures Clean(a) <==> Clean(b)
  {
    hide PortraitName, Clean;
    if a.DynamicConfig? && b.DynamicConfig? {
      SameNameSameClean(ihpa, a.portraitType, b.portraitType);
    }
    assert Clean(CronConfig) by { CronIsClean(); }
  }

  lemma CronIsClean()
    ensures Clean(CronConfig)
  {
  }

  /** What an entry is decoded to is clean. */
  lemma DecodedIsClean(cfg: Config)
    requires Decode(Key(cfg)).Some?
    ensures Clean(Decode(Key(cfg)).value)
  {
    match cfg {
      case DynamicConfig(pt) =>
        DecodeDynamic(pt);
        SplitFirst(pt, '-');
        assert forall x :: x in Split(pt, '-')[0] ==> x in pt;
        hide Split, Decode, Key;
      case _ => DecodeConstant(cfg);
    }
  }

  /** After a cleanup that succeeded, everything that lives belongs to a provider that
      stays, if and only if nothing was stranded. */
  lemma CoveredAfterCleanup(ihpa: string, before: set<Resource>, live: set<Resource>,
                            named: set<Config>, after: set<Config>)
    requires AllDecode(Keys(named) - Keys(after))
    requires forall r :: r in live <==> r in before && !Cleans(ihpa, Keys(named) - Keys(after), r)
    ensures Covered(ihpa, before, named) ==> (Covered(ihpa, live, after) <==> !Strands(ihpa, before, named, after))
  {
    if Covered(ihpa, before, named) {
      hide Owned, Key, Decode, Clean;
      var clean := CleanOf(named);
      forall r | r in before && !OwnedBySome(ihpa, after, r) ensures r in live <==> !OwnedBySome(ihpa, clean, r) {
        CleanedIffClean(ihpa, named, after, r);
      }
    }
  }

  /** Of what no staying provider owns, the cleanup removes what a clean one owned. */
  lemma CleanedIffClean(ihpa: string, named: set<Config>, after: set<Config>, r: Resource)
    requires AllDecode(Keys(named) - Keys(after)) && OwnedBySome(ihpa, named, r) && !OwnedBySome(ihpa, after, r)
    ensures Cleans(ihpa, Keys(named) - Keys(after), r) <==> OwnedBySome(ihpa, CleanOf(named), r)
  {
    hide Owned, Key, Decode, Clean;
    var clean := CleanOf(named);
    if Cleans(ihpa, Keys(named) - Keys(after), r) {
      var k :| k in Keys(named) - Keys(after) && Decode(k).Some? && r in Owned(ihpa, Decode(k).value);
      var c :| c in named && Key(c) == k;
      var owner :| owner in named && r in Owned(ihpa, owner);
      DecodedIsClean(c);
      OwnersAgree(ihpa, Decode(k).value, owner, r);
      assert owner in clean;
    }
    if owner :| owner in clean && r in Owned(ihpa, owner) {
      RoundTripIff(owner);
      forall c | c in after ensures Key(c) != Key(owner) {
        if Key(c) == Key(owner) {
          KeysAreDistinct(c, owner);
          assert false;
        }
      }
      assert Key(owner) in Keys(named) - Keys(after);
    }
  }

  /** With clean portrait types nothing is ever stranded, */
  lemma CleanTypesStrandNothing(ihpa: string, live: set<Resource>, named: set<Config>, after: set<Config>)
    requires AllClean(named) && Covered(ihpa, live, named)
    ensures !Strands(ihpa, live, named, after) && AllDecode(Keys(named))
  {
    hide Owned, Key, Decode, Clean;
    assert CleanOf(named) == named;
    forall c | c in named ensures Decode(Key(c)).Some? {
      RoundTripIff(c);
    }
  }

  /** a removed portrait type with a dash strands its portrait, unless a provider that
      stays has a portrait of the same name, */
  lemma DashStrands(ihpa: string, live: set<Resource>, named: set<Config>, after: set<Config>, portraitType: string)
    requires DynamicConfig(portraitType) in named && '-' in portraitType
    requires var r := Portrait(PortraitName(ihpa, portraitType)); r in live && !OwnedBySome(ihpa, after, r)
    ensures Strands(ihpa, live, named, after)
  {
    var (cfg, r) := (DynamicConfig(portraitType), Portrait(PortraitName(ihpa, portraitType)));
    assert !Clean(cfg) && r in Owned(ihpa, cfg);
    hide Owned, Clean;
    forall c | c in named && Clean(c) ensures r !in Owned(ihpa, c) {
      if r in Owned(ihpa, c) {
        OwnersAgree(ihpa, c, cfg, r);
        assert false;
      }
    }
  }

  /** and a removed portrait type with a slash blocks every call that is without it. */
  lemma SlashBlocks(named: set<Config>, after: set<Config>, portraitType: string)
    requires DynamicConfig(portraitType) in named - after && '/' in portraitType
    ensures !AllDecode(Keys(named) - Keys(after))
  {
    var cfg := DynamicConfig(portraitType);
    RoundTripIff(cfg);
    hide Key, Decode;
    forall c | c in after ensures Key(c) != Key(cfg) {
      if Key(c) == Key(cfg) {
        KeysAreDistinct(c, cfg);
        assert false;
      }
    }
    assert Key(cfg) in Keys(named) - Keys(after);
  }

  // ----- Any sequence of calls

  datatype Call = Call(cfgs: seq<Config>, cleanup: string -> Reply, update: nat -> Reply, fetch: nat -> Fetched)

  /** From a fresh start, with clean portrait types, whatever fails in the calls:
      everything that lives is remembered, and if the last call succeeded it is exactly
      what the last configuration names, every request of its providers was answered,
      and its triggers are on or off as its fetches say. */
  method Serve(registered: set<ProviderType>, ihpa: string, calls: seq<Call>) returns (t: PortraitTracker, ok: bool)
    requires forall i :: 0 <= i < |calls| ==> AllClean(Elems(calls[i].cfgs))
    ensures fresh(t) && t.Valid() && t.ihpa == ihpa && Covered(ihpa, t.live, t.named)
    ensures ok && calls != [] ==> && t.named == Elems(calls[|calls| - 1].cfgs)
                                  && forall c :: c in t.named ==> Needed(ihpa, c) <= t.live
    ensures ok && calls != [] ==> var last := calls[|calls| - 1];
                                  && AllAnswer(last.cfgs, last.update, last.fetch)
                                  && exists kept :: Switched(ihpa, last.cfgs, last.fetch, |last.cfgs|, kept, t.live)
  {
    hide Owned, Clean, Decode, Strands, Needed, Switched, AllAnswer;
    t := new PortraitTracker(registered, ihpa);
    ok := true;
    for i := 0 to |calls|
      invariant fresh(t) && t.Valid() && t.ihpa == ihpa && AllClean(t.named) && Covered(ihpa, t.live, t.named)
      invariant ok && i > 0 ==> && t.named == Elems(calls[i - 1].cfgs)
                                && forall c :: c in t.named ==> Needed(ihpa, c) <= t.live
      invariant ok && i > 0 ==> var last := calls[i - 1];
                                && AllAnswer(last.cfgs, last.update, last.fetch)
                                && exists kept :: Switched(ihpa, last.cfgs, last.fetch, |last.cfgs|, kept, t.live)
    {
      CleanTypesStrandNothing(ihpa, t.live, t.named, Elems(calls[i].cfgs));
      ghost var stored;
      ok, stored := t.UpdateAndFetch(calls[i].cfgs, calls[i].cleanup, calls[i].update, calls[i].fetch);
    }
  }

  /** What UpdateAndFetch's success means: the portraits are those of the configured
      portrait types, and the autoscaler's own cron task runs iff cron is configured. */
  lemma ExactlyConfigured(ihpa: string, live: set<Resource>, cfgs: set<Config>)
    requires Covered(ihpa, live, cfgs) && forall c :: c in cfgs ==> Needed(ihpa, c) <= live
    ensures forall n :: Portrait(n) in live <==>
              exists c :: c in cfgs && c.DynamicConfig? && PortraitName(ihpa, c.portraitType) == n
    ensures Task(ihpa) in live <==> CronConfig in cfgs
  {
    hide PortraitName;
    forall n | exists c :: c in cfgs && c.DynamicConfig? && PortraitName(ihpa, c.portraitType) == n
      ensures Portrait(n) in live
    {
      var c :| c in cfgs && c.DynamicConfig? && PortraitName(ihpa, c.portraitType) == n;
      assert Portrait(n) in Needed(ihpa, c);
    }
    assert Task(ihpa) in Needed(ihpa, CronConfig);
  }
}
