/** What the router can observe about a registered object, its
    configuration, and the three-way classification of `get_urls`. */
module Targets {
  import opened Wrappers
  import opened Urls

  /** Whether the object has an `as_view` attribute, and whether it is callable. */
  datatype AsView = NoAsView | AsViewAttr | CallableAsView

  /** A registered object (viewset class, router instance, or anything else),
      described by the facts the router's reflection checks read:
      - `isViewsetClass`: a class deriving from `APIView` or `ViewSetMixin`;
      - `hasUrls`, `hasRegistry`: the attributes duck typing looks for;
      - `asView`: presence and callability of `as_view`;
      - `isKnownRouter`: an instance of `SimpleRouter`, `DefaultRouter` or
        (when that library is installed) `NestedSimpleRouter`;
      - `isNestedRouter`: an instance of `NestedSimpleRouter`;
      - `rootViewName`: the `root_view_name` attribute, if any;
      - `urls`: the object's own URL patterns, for routers;
      - `attributes`: the action names the object has (`hasattr(obj, action)`);
      - `lookupRegex`: what the resource library's `get_lookup_regex`
        returns, or `None` when it raises;
      - `routes`: what the resource library's `get_routes` returns, or
        `None` when it raises;
      - `defaultBasename`: the basename the resource library derives from the
        object's queryset, or `None` when it cannot. */
  datatype Target = Target(
    ident: string,
    isViewsetClass: bool,
    hasUrls: bool,
    hasRegistry: bool,
    asView: AsView,
    isKnownRouter: bool,
    isNestedRouter: bool,
    rootViewName: Option<string>,
    urls: seq<UrlPattern>,
    attributes: set<string>,
    lookupRegex: Option<string>,
    routes: Option<seq<Route>>,
    defaultBasename: Option<string>)

  /** The facts the class hierarchy guarantees: a nested router is a
      `SimpleRouter`; a router instance sets `registry` in its constructor
      and is not a class; a view class has a callable `as_view`. Nothing is
      assumed about `urls`: it is a property that generates the router's
      patterns, and `hasattr` reports it missing when that raises
      `AttributeError`. */
  predicate WellFormed(t: Target) {
    && (t.isNestedRouter ==> t.isKnownRouter)
    && (t.isKnownRouter ==> t.hasRegistry && !t.isViewsetClass)
    && (t.isViewsetClass ==> t.asView == CallableAsView)
  }

  /** Router options: `auto_basename`, `strict_checking`,
      `include_root_view`, `root_view_name`, `trailing_slash`, and the name
      template of the router's first route (`self.routes[0].name`). */
  datatype Config = Config(
    autoBasename: bool,
    strictChecking: bool,
    includeRootView: bool,
    rootViewName: string,
    trailingSlash: string,
    listName: seq<NamePiece>)

  /** The configuration of `EnhancedAPIRouter()` with no options. */
  const DefaultConfig := Config(true, false, true, "api-root", "/", [NBasename, NText("-list")])

  datatype Kind = RouterKind | ViewsetKind | UnknownKind

  /** The exceptions the modelled calls let escape:
      - `ExpectedViewset`, `ExpectedRouter`: the `ValueError`s of
        `register_viewset` and `register_router`;
      - `MissingBasename`: the resource library's registration cannot derive
        a basename (no basename given, no queryset);
      - `RoutesUnavailable`: the resource library's `get_routes` raised;
      - `AsViewNotCallable`: `as_view` was called but is not callable;
      - `UrlsUnreadable`: reading a router's `urls` raised `AttributeError`. */
  datatype Error = ExpectedViewset | ExpectedRouter | MissingBasename | RoutesUnavailable | AsViewNotCallable | UrlsUnreadable

  /** `_is_router`: strict mode asks for a known router type; duck typing
      asks for `urls` and `registry` on something that is not a view class. */
  predicate IsRouter(cfg: Config, t: Target) {
    if cfg.strictChecking then t.isKnownRouter
    else t.hasUrls && t.hasRegistry && !t.isViewsetClass
  }

  /** `_is_viewset`: a view class, or anything with a callable `as_view`. */
  predicate IsViewset(t: Target) {
    t.isViewsetClass || t.asView == CallableAsView
  }

  /** The branch `get_urls` takes for an entry: the router test comes first, so
      an object that is both a router and a viewset counts as a router. */
  function Classify(cfg: Config, t: Target): (k: Kind)
    ensures k == RouterKind <==> IsRouter(cfg, t)
    ensures k == ViewsetKind <==> !IsRouter(cfg, t) && IsViewset(t)
    ensures k == UnknownKind <==> !IsRouter(cfg, t) && !IsViewset(t)
    ensures k == UnknownKind ==> !t.isViewsetClass && t.asView != CallableAsView
  {
    if IsRouter(cfg, t) then RouterKind
    else if IsViewset(t) then ViewsetKind
    else UnknownKind
  }

  /** A view class is never a router, in either mode. */
  lemma ViewsetClassNeverRouter(cfg: Config, t: Target)
    requires WellFormed(t)
    requires t.isViewsetClass
    ensures !IsRouter(cfg, t)
    ensures Classify(cfg, t) == ViewsetKind
  {
  }

  /** A known router instance whose `urls` attribute can be read is a router
      in both modes. */
  lemma StrictRoutersAreDuckRouters(cfg: Config, t: Target)
    requires WellFormed(t)
    requires t.isKnownRouter && t.hasUrls
    ensures IsRouter(cfg, t)
    ensures IsRouter(cfg.(strictChecking := false), t)
  {
  }

  /** The two modes part on a known router whose `urls` property raises
      `AttributeError`: strict mode takes it as a router, duck typing does
      not, and without a callable `as_view` it is then unknown. */
  lemma UnreadableUrlsSplitsModes(cfg: Config, t: Target)
    requires WellFormed(t)
    requires t.isKnownRouter && !t.hasUrls && t.asView != CallableAsView
    ensures Classify(cfg.(strictChecking := true), t) == RouterKind
    ensures Classify(cfg.(strictChecking := false), t) == UnknownKind
  {
  }

  /** In duck-typed mode an object that is at once router-shaped and carries
      a callable `as_view` is classified as a router: only view CLASSES are
      excluded from the router test. Strict mode instead takes it as a
      viewset unless it is a known router type. */
  lemma DuckRouterShapeWinsOverAsView(cfg: Config, t: Target)
    requires !cfg.strictChecking
    requires t.hasUrls && t.hasRegistry && !t.isViewsetClass && t.asView == CallableAsView
    ensures IsViewset(t) && IsRouter(cfg, t) && Classify(cfg, t) == RouterKind
    ensures Classify(cfg.(strictChecking := true), t) == (if t.isKnownRouter then RouterKind else ViewsetKind)
  {
  }
}
