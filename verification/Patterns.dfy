/** The per-entry URL strategies of `get_urls`: `_get_router_urls`,
    `_get_viewset_urls` (with `get_routes`, `get_lookup_regex` and the
    resource library's `get_method_map`), and `_handle_unknown_type`. */
module Patterns {
  import opened Wrappers
  import opened Strings
  import opened Urls
  import opened Targets

  /** The lookup pattern used when the resource library cannot build one. */
  const DefaultLookup: string := "(?P<pk>[^/.]+)"

  /** A diagnostic line printed by `_handle_unknown_type`. */
  datatype Diagnostic =
    | UnknownType(prefix: string)
    | Recovered(prefix: string)
    | RecoveryFailed(prefix: string, error: Error)

  /** Patterns produced so far, with the diagnostics printed on the way. */
  datatype Generated = Generated(patterns: seq<UrlPattern>, log: seq<Diagnostic>)

  // ---------------------------------------------------------------------
  // Routers

  /** `_get_router_urls`: one include of the router's own patterns, under
      `prefix/` (or the empty path), namespaced by the basename unless the
      router is a nested router whose paths are already complete. Every
      branch reads `router.urls`, so an unreadable `urls` raises. */
  function RouterUrls(prefix: string, t: Target, basename: string): (r: Result<seq<UrlPattern>, Error>)
    ensures r.Failure? <==> !t.hasUrls
    ensures r.Failure? ==> r.error == UrlsUnreadable
    ensures r.Success? ==> |r.value| == 1 && r.value[0].Include?
    ensures r.Success? ==> r.value[0].regex == (if prefix == [] then "" else prefix + "/")
    ensures r.Success? ==> r.value[0].inner == t.urls
    ensures r.Success? && t.isNestedRouter ==> r.value[0].namespace == None
    ensures r.Success? && !t.isNestedRouter ==> r.value[0].namespace == Some(basename)
  {
    if !t.hasUrls then Failure(UrlsUnreadable)
    else if t.isNestedRouter then
      if prefix != [] then Success([Include(prefix + "/", t.urls, None)])
      else Success([Include("", t.urls, None)])
    else
      if prefix != [] then Success([Include(prefix + "/", t.urls, Some(basename))])
      else Success([Include("", t.urls, Some(basename))])
  }

  // ---------------------------------------------------------------------
  // Viewsets

  /** `get_lookup_regex`: the resource library's answer, or the default
      pattern when it raises. */
  function LookupRegex(t: Target): (r: string)
    ensures t.lookupRegex.None? ==> r == DefaultLookup
    ensures t.lookupRegex.Some? ==> r == t.lookupRegex.value
  {
    t.lookupRegex.GetOr(DefaultLookup)
  }

  /** `get_routes`: no routes at all for a router; otherwise the resource
      library's routes, whose failure propagates. */
  function GetRoutes(cfg: Config, t: Target): (r: Result<Option<seq<Route>>, Error>)
    ensures IsRouter(cfg, t) ==> r == Success(None)
    ensures !IsRouter(cfg, t) && t.routes.None? ==> r == Failure(RoutesUnavailable)
    ensures !IsRouter(cfg, t) && t.routes.Some? ==> r == Success(t.routes)
  {
    if IsRouter(cfg, t) then Success(None)
    else if t.routes.None? then Failure(RoutesUnavailable)
    else Success(t.routes)
  }

  /** `get_method_map`: the route's method-to-action pairs whose action the
      object actually has, in the route's order. */
  function MethodMap(t: Target, mapping: seq<(string, string)>): (r: seq<(string, string)>)
    ensures |r| <= |mapping|
    ensures forall p :: p in r <==> p in mapping && p.1 in t.attributes
  {
    if mapping == [] then []
    else if mapping[0].1 in t.attributes then [mapping[0]] + MethodMap(t, mapping[1..])
    else MethodMap(t, mapping[1..])
  }

  /** Drop the separator after the anchor when there is no prefix:
      `^/...` becomes `^...`. Exactly one character is removed. */
  function StripRootSlash(prefix: string, regex: string): (r: string)
    ensures prefix != [] || !StartsWith(regex, "^/") ==> r == regex
    ensures prefix == [] && StartsWith(regex, "^/") ==>
      |r| == |regex| - 1 && r[..1] == "^" && r[1..] == regex[2..]
  {
    if prefix == [] && StartsWith(regex, "^/") then "^" + regex[2..] else regex
  }

  /** With no prefix, the produced regex never starts with `^/` unless the
      formatted one started with a doubled separator `^//`. */
  lemma StripRootSlashLeavesNoRootSlash(regex: string)
    requires !StartsWith(regex, "^//")
    ensures !StartsWith(StripRootSlash("", regex), "^/")
  {
    var r := StripRootSlash("", regex);
    if StartsWith(regex, "^/") && |regex| >= 3 {
      assert r[1] == regex[2];
      assert regex[..3] == regex[..2] + [regex[2]];
    }
  }

  /** Only one separator is removed: `^//x` becomes `^/x`. */
  lemma StripRootSlashRemovesOneSeparator()
    ensures StripRootSlash("", "^//x") == "^/x"
  {
    assert StartsWith("^//x", "^/");
    assert "^//x"[2..] == "/x";
  }

  /** The keyword arguments for `as_view`: the route's `initkwargs` with
      `basename` and `detail` set from the entry and the route. */
  function ViewKwargs(route: Route, basename: string): (r: map<string, KwArg>)
    ensures "basename" in r && r["basename"] == KwText(basename)
    ensures "detail" in r && r["detail"] == KwFlag(route.detail)
    ensures r.Keys == route.initkwargs.Keys + {"basename", "detail"}
    ensures forall k :: k in route.initkwargs && k != "basename" && k != "detail" ==> r[k] == route.initkwargs[k]
  {
    route.initkwargs["basename" := KwText(basename)]["detail" := KwFlag(route.detail)]
  }

  /** The pattern one route yields for a viewset. */
  function RoutePattern(cfg: Config, prefix: string, lookup: string, t: Target, basename: string, route: Route): UrlPattern
  {
    var regex := StripRootSlash(prefix, FormatUrl(route.url, prefix, lookup, cfg.trailingSlash));
    Leaf(regex, ViewsetView(t.ident, MethodMap(t, route.mapping), ViewKwargs(route, basename)),
         FormatName(route.name, basename))
  }

  /** `r` is `s` with some elements left out and the others in their order. */
  predicate Subsequence<T(==)>(r: seq<T>, s: seq<T>)
    decreases |s|
  {
    if r == [] then true
    else if s == [] then false
    else (r[0] == s[0] && Subsequence(r[1..], s[1..])) || Subsequence(r, s[1..])
  }

  /** The routes a viewset keeps: exactly those with at least one action it
      has, each as often as it is listed, in the order `get_routes` lists
      them. */
  function Kept(t: Target, routes: seq<Route>): (r: seq<Route>)
    ensures |r| <= |routes|
    ensures Subsequence(r, routes)
    ensures forall i :: 0 <= i < |r| ==> r[i] in routes && MethodMap(t, r[i].mapping) != []
    ensures forall rt {:trigger multiset(r)[rt]} :: multiset(r)[rt] == (if MethodMap(t, rt.mapping) != [] then multiset(routes)[rt] else 0)
  {
    if routes == [] then []
    else
      assert routes == [routes[0]] + routes[1..];
      if MethodMap(t, routes[0].mapping) != [] then [routes[0]] + Kept(t, routes[1..])
      else Kept(t, routes[1..])
  }

  /** A viewset that has every action of a route keeps the route's whole
      method map. */
  lemma {:induction false} MethodMapAllPresent(t: Target, mapping: seq<(string, string)>)
    requires forall i :: 0 <= i < |mapping| ==> mapping[i].1 in t.attributes
    ensures MethodMap(t, mapping) == mapping
    decreases |mapping|
  {
    if mapping != [] {
      MethodMapAllPresent(t, mapping[1..]);
      assert mapping == [mapping[0]] + mapping[1..];
    }
  }

  /** A viewset that can serve every route keeps them all. */
  lemma {:induction false} KeptAll(t: Target, routes: seq<Route>)
    requires forall i :: 0 <= i < |routes| ==> MethodMap(t, routes[i].mapping) != []
    ensures Kept(t, routes) == routes
    decreases |routes|
  {
    if routes != [] {
      KeptAll(t, routes[1..]);
      assert routes == [routes[0]] + routes[1..];
    }
  }

  /** No route with an action the viewset has is dropped. */
  lemma KeptComplete(t: Target, routes: seq<Route>, rt: Route)
    requires rt in routes && MethodMap(t, rt.mapping) != []
    ensures rt in Kept(t, routes)
  {
    assert multiset(routes)[rt] > 0;
    assert multiset(Kept(t, routes))[rt] > 0;
  }

  /** The loop of `_get_viewset_urls`: one pattern per kept route, in order;
      calling a non-callable `as_view` on the first kept route raises. */
  function RoutePatterns(cfg: Config, prefix: string, lookup: string, t: Target, basename: string, routes: seq<Route>): (r: Result<seq<UrlPattern>, Error>)
    ensures r.Failure? <==> Kept(t, routes) != [] && t.asView != CallableAsView
    ensures r.Failure? ==> r.error == AsViewNotCallable
    ensures r.Success? ==> |r.value| == |Kept(t, routes)|
    ensures r.Success? ==> forall i :: 0 <= i < |r.value| ==>
      r.value[i] == RoutePattern(cfg, prefix, lookup, t, basename, Kept(t, routes)[i])
  {
    if routes == [] then Success([])
    else
      var tail := Kept(t, routes[1..]);
      if MethodMap(t, routes[0].mapping) == [] then
        assert Kept(t, routes) == tail;
        RoutePatterns(cfg, prefix, lookup, t, basename, routes[1..])
      else if t.asView != CallableAsView then Failure(AsViewNotCallable)
      else
        assert Kept(t, routes) == [routes[0]] + tail;
        match RoutePatterns(cfg, prefix, lookup, t, basename, routes[1..])
        case Failure(e) => Failure(e)
        case Success(ps) =>
          var r := [RoutePattern(cfg, prefix, lookup, t, basename, routes[0])] + ps;
          assert forall i :: 0 < i < |r| ==> r[i] == ps[i - 1];
          Success(r)
  }

  /** `_get_viewset_urls` */
  function ViewsetUrls(cfg: Config, prefix: string, t: Target, basename: string): (r: Result<seq<UrlPattern>, Error>)
    ensures IsRouter(cfg, t) ==> r == Success([])
    ensures !IsRouter(cfg, t) && t.routes.None? ==> r == Failure(RoutesUnavailable)
    ensures !IsRouter(cfg, t) && t.routes.Some? ==>
      r == RoutePatterns(cfg, prefix, LookupRegex(t), t, basename, t.routes.value)
  {
    var lookup := LookupRegex(t);
    match GetRoutes(cfg, t)
    case Failure(e) => Failure(e)
    case Success(None) => Success([])
    case Success(Some(routes)) => RoutePatterns(cfg, prefix, lookup, t, basename, routes)
  }

  /** What every viewset pattern looks like: a leaf bound to the viewset's
      view with a non-empty action map, named from some route's name
      template, carrying that route's `basename` and `detail`; there are no
      more patterns than routes. */
  lemma ViewsetPatternsShape(cfg: Config, prefix: string, t: Target, basename: string)
    requires !IsRouter(cfg, t) && t.routes.Some?
    requires ViewsetUrls(cfg, prefix, t, basename).Success?
    ensures var ps := ViewsetUrls(cfg, prefix, t, basename).value;
      && |ps| <= |t.routes.value|
      && forall i :: 0 <= i < |ps| ==>
        && ps[i].Leaf?
        && ps[i].view.ViewsetView?
        && ps[i].view.viewset == t.ident
        && ps[i].view.actions != []
        && ps[i].view.initkwargs["basename"] == KwText(basename)
        && (exists route :: route in t.routes.value
             && ps[i].name == FormatName(route.name, basename)
             && ps[i].view.initkwargs["detail"] == KwFlag(route.detail)
             && ps[i].view.actions == MethodMap(t, route.mapping)
             && ps[i].regex == StripRootSlash(prefix, FormatUrl(route.url, prefix, LookupRegex(t), cfg.trailingSlash)))
  {
    var routes := t.routes.value;
    var ps := ViewsetUrls(cfg, prefix, t, basename).value;
    var kept := Kept(t, routes);
    forall i | 0 <= i < |ps|
      ensures ps[i].Leaf? && ps[i].view.ViewsetView? && ps[i].view.actions != []
      ensures
        exists route :: route in routes
          && ps[i].name == FormatName(route.name, basename)
          && ps[i].view.initkwargs["detail"] == KwFlag(route.detail)
          && ps[i].view.actions == MethodMap(t, route.mapping)
          && ps[i].regex == StripRootSlash(prefix, FormatUrl(route.url, prefix, LookupRegex(t), cfg.trailingSlash))
    {
      assert kept[i] in routes;
    }
  }

  /** A route whose method map is empty contributes nothing. */
  lemma SkippedRouteContributesNothing(cfg: Config, prefix: string, lookup: string, t: Target, basename: string, route: Route, rest: seq<Route>)
    requires MethodMap(t, route.mapping) == []
    ensures RoutePatterns(cfg, prefix, lookup, t, basename, [route] + rest)
         == RoutePatterns(cfg, prefix, lookup, t, basename, rest)
  {
    assert ([route] + rest)[1..] == rest;
  }

  // ---------------------------------------------------------------------
  // Unknown objects

  /** `_handle_unknown_type`: warn, then, if the object has an `as_view`
      attribute at all, try the viewset strategy; any failure is caught and
      contributes nothing. Never fails. */
  function UnknownUrls(cfg: Config, prefix: string, t: Target, basename: string): (g: Generated)
    ensures |g.log| >= 1 && g.log[0] == UnknownType(prefix)
    ensures t.asView == NoAsView ==> g == Generated([], [UnknownType(prefix)])
    ensures g.patterns != [] ==> ViewsetUrls(cfg, prefix, t, basename) == Success(g.patterns)
  {
    var warn := [UnknownType(prefix)];
    if t.asView == NoAsView then Generated([], warn)
    else
      match ViewsetUrls(cfg, prefix, t, basename)
      case Success(ps) => Generated(ps, warn + [Recovered(prefix)])
      case Failure(e) => Generated([], warn + [RecoveryFailed(prefix, e)])
  }

  /** An object classified as unknown never contributes a pattern: its
      `as_view`, if present, is not callable, so the recovery either finds no
      route to bind or fails on the first call to `as_view`. */
  lemma UnknownContributesNothing(cfg: Config, prefix: string, t: Target, basename: string)
    requires Classify(cfg, t) == UnknownKind
    ensures UnknownUrls(cfg, prefix, t, basename).patterns == []
  {
  }
}
