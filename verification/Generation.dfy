/** `get_urls`: walk the registry in order, classify each entry, collect the
    patterns of its strategy, and append the root index pattern last. */
module Generation {
  import opened Wrappers
  import opened Urls
  import opened Targets
  import opened Registration
  import opened Patterns
  import opened RootIndex

  /** Appending the output of two stretches of the registry; the first
      failure (in registry order) wins, as the first exception would. */
  function Combine(x: Result<Generated, Error>, y: Result<Generated, Error>): Result<Generated, Error> {
    match x
    case Failure(e) => Failure(e)
    case Success(g) =>
      match y
      case Failure(e) => Failure(e)
      case Success(h) => Success(Generated(g.patterns + h.patterns, g.log + h.log))
  }

  lemma CombineAssociative(x: Result<Generated, Error>, y: Result<Generated, Error>, z: Result<Generated, Error>)
    ensures Combine(Combine(x, y), z) == Combine(x, Combine(y, z))
  {
    if x.Success? && y.Success? && z.Success? {
      assert (x.value.patterns + y.value.patterns) + z.value.patterns
          == x.value.patterns + (y.value.patterns + z.value.patterns);
      assert (x.value.log + y.value.log) + z.value.log == x.value.log + (y.value.log + z.value.log);
    }
  }

  /** The entries whose strategy is not guarded: a viewset, and a router
      whose `urls` cannot be read (only possible under strict checking). */
  predicate MayFail(cfg: Config, e: Entry) {
    || Classify(cfg, e.target) == ViewsetKind
    || (Classify(cfg, e.target) == RouterKind && !e.target.hasUrls)
  }

  /** The body of the loop of `get_urls` for one entry. */
  function EntryUrls(cfg: Config, e: Entry): (r: Result<Generated, Error>)
    ensures Classify(cfg, e.target) == RouterKind && e.target.hasUrls ==>
      r == Success(Generated(RouterUrls(e.prefix, e.target, e.basename).value, []))
    ensures Classify(cfg, e.target) == RouterKind && !e.target.hasUrls ==>
      r == Failure(UrlsUnreadable)
    ensures Classify(cfg, e.target) == ViewsetKind ==>
      (r.Success? <==> ViewsetUrls(cfg, e.prefix, e.target, e.basename).Success?)
    ensures Classify(cfg, e.target) == ViewsetKind && r.Success? ==>
      r.value == Generated(ViewsetUrls(cfg, e.prefix, e.target, e.basename).value, [])
    ensures Classify(cfg, e.target) == UnknownKind ==>
      r.Success? && r.value.patterns == [] && |r.value.log| >= 1 && r.value.log[0] == UnknownType(e.prefix)
    ensures r.Failure? ==> MayFail(cfg, e)
  {
    match Classify(cfg, e.target)
    case RouterKind =>
      (match RouterUrls(e.prefix, e.target, e.basename)
       case Failure(err) => Failure(err)
       case Success(ps) => Success(Generated(ps, [])))
    case ViewsetKind =>
      (match ViewsetUrls(cfg, e.prefix, e.target, e.basename)
       case Failure(err) => Failure(err)
       case Success(ps) => Success(Generated(ps, [])))
    case UnknownKind =>
      UnknownContributesNothing(cfg, e.prefix, e.target, e.basename);
      Success(UnknownUrls(cfg, e.prefix, e.target, e.basename))
  }

  /** The loop of `get_urls` over the registry, before the root pattern. */
  function RegistryUrls(cfg: Config, reg: Registry): Result<Generated, Error>
    decreases |reg|
  {
    if reg == [] then Success(Generated([], []))
    else Combine(EntryUrls(cfg, reg[0]), RegistryUrls(cfg, reg[1..]))
  }

  /** True of the pattern `get_urls` appends for the root index. */
  predicate IsRootPattern(p: UrlPattern) {
    p.Leaf? && p.view.RootIndexView?
  }

  /** No entry of the registry yields a root index pattern. */
  lemma {:induction false} NoRootPatternFromEntries(cfg: Config, reg: Registry)
    requires RegistryUrls(cfg, reg).Success?
    ensures forall p :: p in RegistryUrls(cfg, reg).value.patterns ==> !IsRootPattern(p)
    decreases |reg|
  {
    if reg != [] {
      var e := reg[0];
      NoRootPatternFromEntries(cfg, reg[1..]);
      var g := EntryUrls(cfg, e).value;
      if Classify(cfg, e.target) == ViewsetKind {
        if e.target.routes.Some? {
          ViewsetPatternsShape(cfg, e.prefix, e.target, e.basename);
        }
      }
      assert forall p :: p in g.patterns ==> !IsRootPattern(p);
    }
  }

  /** The root index links a prefixed router entry as
      `basename:root_view_name`. That namespace is the one its include
      declares for a plain router; a nested router's own include declares no
      namespace at all, so its index link resolves only through some other
      include that happens to declare that namespace. */
  lemma RouterLinkNamespace(cfg: Config, e: Entry)
    requires e.prefix != [] && Classify(cfg, e.target) == RouterKind
    ensures IndexLink(cfg, e) == Some(e.basename + ":" + e.target.rootViewName.GetOr(DefaultRootViewName))
    ensures var urls := RouterUrls(e.prefix, e.target, e.basename);
            && (urls.Success? && !e.target.isNestedRouter ==> urls.value[0].namespace == Some(e.basename))
            && (urls.Success? && e.target.isNestedRouter ==> urls.value[0].namespace == None)
  {
  }

  /** `get_urls`: the registry's patterns in order, then, when the root view
      is enabled, exactly one root index pattern `^$`, last. */
  function GetUrls(cfg: Config, reg: Registry): (r: Result<Generated, Error>)
    ensures r.Success? <==> RegistryUrls(cfg, reg).Success?
    ensures r.Success? ==> r.value.log == RegistryUrls(cfg, reg).value.log
    ensures r.Success? && !cfg.includeRootView ==>
      r.value.patterns == RegistryUrls(cfg, reg).value.patterns
      && forall p :: p in r.value.patterns ==> !IsRootPattern(p)
    ensures r.Success? && cfg.includeRootView ==>
      var ps := r.value.patterns;
      var n := |RegistryUrls(cfg, reg).value.patterns|;
      && |ps| == n + 1
      && ps[..n] == RegistryUrls(cfg, reg).value.patterns
      && ps[n] == Leaf("^$", RootIndexView(ApiRootDict(cfg, reg)), cfg.rootViewName)
      && forall i :: 0 <= i < n ==> !IsRootPattern(ps[i])
  {
    match RegistryUrls(cfg, reg)
    case Failure(e) => Failure(e)
    case Success(g) =>
      NoRootPatternFromEntries(cfg, reg);
      if cfg.includeRootView then
        var root := Leaf("^$", RootIndexView(ApiRootDict(cfg, reg)), cfg.rootViewName);
        Success(Generated(g.patterns + [root], g.log))
      else Success(g)
  }

  /** Entries are processed in registry order, each one's patterns kept
      together: the output for `a + b` is the output for `a` followed by the
      output for `b`. */
  lemma {:induction false} RegistryUrlsAppend(cfg: Config, a: Registry, b: Registry)
    ensures RegistryUrls(cfg, a + b) == Combine(RegistryUrls(cfg, a), RegistryUrls(cfg, b))
    decreases |a|
  {
    if a == [] {
      assert a + b == b;
      var y := RegistryUrls(cfg, b);
      if y.Success? {
        assert [] + y.value.patterns == y.value.patterns;
        assert [] + y.value.log == y.value.log;
      }
    } else {
      assert (a + b)[0] == a[0];
      assert (a + b)[1..] == a[1..] + b;
      RegistryUrlsAppend(cfg, a[1..], b);
      CombineAssociative(EntryUrls(cfg, a[0]), RegistryUrls(cfg, a[1..]), RegistryUrls(cfg, b));
    }
  }

  /** A one-entry registry yields exactly that entry's output. */
  lemma SingleEntry(cfg: Config, e: Entry)
    ensures RegistryUrls(cfg, [e]) == EntryUrls(cfg, e)
  {
    var x := EntryUrls(cfg, e);
    if x.Success? {
      assert x.value.patterns + [] == x.value.patterns;
      assert x.value.log + [] == x.value.log;
    }
  }

  /** A successful registration adds its entry's patterns after those of
      every earlier entry. */
  lemma RegisterThenGenerate(cfg: Config, reg: Registry, prefix: string, t: Target, name: Option<string>)
    requires Register(cfg, reg, prefix, t, name).Success?
    ensures var reg' := Register(cfg, reg, prefix, t, name).value;
      RegistryUrls(cfg, reg') == Combine(RegistryUrls(cfg, reg), EntryUrls(cfg, reg'[|reg|]))
  {
    var reg' := Register(cfg, reg, prefix, t, name).value;
    RegisterAppends(cfg, reg, prefix, t, name);
    assert reg' == reg + [reg'[|reg|]];
    RegistryUrlsAppend(cfg, reg, [reg'[|reg|]]);
    SingleEntry(cfg, reg'[|reg|]);
  }

  /** Generation fails exactly when some entry fails, and the error is that
      of the first failing entry, which is a viewset entry or a router whose
      `urls` cannot be read: unknown objects never make generation fail. */
  lemma {:induction false} RegistryUrlsFailure(cfg: Config, reg: Registry)
    ensures RegistryUrls(cfg, reg).Success? <==> forall i :: 0 <= i < |reg| ==> EntryUrls(cfg, reg[i]).Success?
    ensures RegistryUrls(cfg, reg).Failure? ==>
      exists i :: 0 <= i < |reg|
        && MayFail(cfg, reg[i])
        && EntryUrls(cfg, reg[i]) == Failure(RegistryUrls(cfg, reg).error)
        && forall j :: 0 <= j < i ==> EntryUrls(cfg, reg[j]).Success?
    decreases |reg|
  {
    if reg != [] {
      var rest := reg[1..];
      RegistryUrlsFailure(cfg, rest);
      forall i | 1 <= i < |reg|
        ensures reg[i] == rest[i - 1]
      {
      }
      if RegistryUrls(cfg, reg).Failure? && EntryUrls(cfg, reg[0]).Success? {
        var i :| 0 <= i < |rest|
          && MayFail(cfg, rest[i])
          && EntryUrls(cfg, rest[i]) == Failure(RegistryUrls(cfg, rest).error)
          && forall j :: 0 <= j < i ==> EntryUrls(cfg, rest[j]).Success?;
        assert reg[i + 1] == rest[i];
      }
    }
  }

  /** A registry without viewset entries generates exactly when every router
      entry's `urls` can be read; under duck typing that is always so. */
  lemma NoViewsetNoFailure(cfg: Config, reg: Registry)
    requires forall i :: 0 <= i < |reg| ==> Classify(cfg, reg[i].target) != ViewsetKind
    ensures GetUrls(cfg, reg).Success? <==>
      forall i :: 0 <= i < |reg| && Classify(cfg, reg[i].target) == RouterKind ==> reg[i].target.hasUrls
    ensures !cfg.strictChecking ==> GetUrls(cfg, reg).Success?
  {
    RegistryUrlsFailure(cfg, reg);
  }
}
