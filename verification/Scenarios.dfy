/** Concrete registries worked out as lemmas: the application's own
    `register('events', EventViewSet, 'event')`, a namespaced sub-router, a
    nested router mounted without prefix, and the two registration errors. */
module Scenarios {
  import opened Wrappers
  import opened Urls
  import opened Targets
  import opened Registration
  import opened Patterns
  import opened RootIndex
  import opened Generation

  /** The resource library's collection route for a model viewset. */
  const ListRoute: Route := Route(
    [UText("^"), UPrefix, UTrailingSlash, UText("$")],
    [("get", "list"), ("post", "create")],
    [NBasename, NText("-list")], false, map["suffix" := KwText("List")])

  /** The resource library's detail route for a model viewset. */
  const DetailRoute: Route := Route(
    [UText("^"), UPrefix, UText("/"), ULookup, UTrailingSlash, UText("$")],
    [("get", "retrieve"), ("put", "update"), ("patch", "partial_update"), ("delete", "destroy")],
    [NBasename, NText("-detail")], true, map["suffix" := KwText("Instance")])

  /** A model viewset class with the six standard actions. */
  const EventViewSet: Target := Target(
    "EventViewSet", true, false, false, CallableAsView, false, false, None, [],
    {"list", "create", "retrieve", "update", "partial_update", "destroy"},
    Some(DefaultLookup), Some([ListRoute, DetailRoute]), Some("eventmodel"))

  /** The patterns of some other router: one collection route of a widget viewset. */
  const InnerPatterns: seq<UrlPattern> :=
    [Leaf("^widgets/$", ViewsetView("WidgetViewSet", [("get", "list")], map[]), "widget-list")]

  /** A plain router instance that declares no root-view name. */
  const AdminRouter: Target := Target(
    "admin_router", false, true, true, NoAsView, true, false, None, InnerPatterns,
    {}, None, None, None)

  /** A nested router instance. */
  const NestedRouter: Target := Target(
    "nested_router", false, true, true, NoAsView, true, true, None, InnerPatterns,
    {}, None, None, None)

  /** The collection route formats to `^{prefix}{trailing_slash}$`: its
      template is `^{prefix}` followed by `{trailing_slash}$`. */
  lemma ListRouteUrl(prefix: string, lookup: string, slash: string)
    ensures FormatUrl(ListRoute.url, prefix, lookup, slash) == "^" + prefix + slash + "$"
  {
    var head: seq<UrlPiece> := [UText("^"), UPrefix];
    var tail: seq<UrlPiece> := [UTrailingSlash, UText("$")];
    assert ListRoute.url == head + tail;
    FormatUrlAppend(head, tail, prefix, lookup, slash);
    assert head[1..][1..] == [] && tail[1..][1..] == [];
  }

  /** The detail route formats to `^{prefix}/{lookup}{trailing_slash}$`: its
      template is `^{prefix}`, then `/{lookup}`, then `{trailing_slash}$`. */
  lemma DetailRouteUrl(prefix: string, lookup: string, slash: string)
    ensures FormatUrl(DetailRoute.url, prefix, lookup, slash) == "^" + prefix + "/" + lookup + slash + "$"
  {
    var head: seq<UrlPiece> := [UText("^"), UPrefix];
    var mid: seq<UrlPiece> := [UText("/"), ULookup];
    var tail: seq<UrlPiece> := [UTrailingSlash, UText("$")];
    assert DetailRoute.url == head + (mid + tail);
    FormatUrlAppend(head, mid + tail, prefix, lookup, slash);
    FormatUrlAppend(mid, tail, prefix, lookup, slash);
    assert FormatUrl(head, prefix, lookup, slash) == "^" + prefix by { assert head[1..][1..] == []; }
    assert FormatUrl(mid, prefix, lookup, slash) == "/" + lookup by { assert mid[1..][1..] == []; }
    assert FormatUrl(tail, prefix, lookup, slash) == slash + "$" by { assert tail[1..][1..] == []; }
  }

  /** The name templates `{basename}-list` and `{basename}-detail`: the
      basename followed by a literal suffix. */
  lemma RouteNames(basename: string)
    ensures FormatName(ListRoute.name, basename) == basename + "-list"
    ensures FormatName(DetailRoute.name, basename) == basename + "-detail"
  {
    FormatNameAppend([NBasename], [NText("-list")], basename);
    FormatNameAppend([NBasename], [NText("-detail")], basename);
    assert [NBasename] + [NText("-list")] == [NBasename, NText("-list")] == ListRoute.name;
    assert [NBasename] + [NText("-detail")] == [NBasename, NText("-detail")] == DetailRoute.name;
    assert [NBasename][1..] == [] && [NText("-list")][1..] == [] && [NText("-detail")][1..] == [];
  }

  /** Literal spellings of the concatenations the scenarios produce. */
  lemma Spellings()
    ensures "^" + "events" + "/" + "$" == "^events/$"
    ensures "^" + "events" + "/" + DefaultLookup + "/" + "$" == "^events/" + DefaultLookup + "/$"
    ensures "event" + "-list" == "event-list"
    ensures "event" + "-detail" == "event-detail"
    ensures "admin" + ":" + "api-root" == "admin:api-root"
    ensures "admin" + "/" == "admin/"
  {
  }

  /** Dropping the root separator from the empty-prefix spellings. */
  lemma EmptyPrefixSpellings()
    ensures StripRootSlash("", "^" + "" + "/" + "$") == "^$"
    ensures StripRootSlash("", "^" + "" + "/" + DefaultLookup + "/" + "$") == "^" + DefaultLookup + "/$"
  {
    var r0 := "^" + "" + "/" + "$";
    var r1 := "^" + "" + "/" + DefaultLookup + "/" + "$";
    assert r0[..2] == "^/" && r1[..2] == "^/";
    assert r0[2..] == "$";
    assert r1[2..] == DefaultLookup + "/$";
  }

  /** A model viewset has every action of the collection route. */
  lemma EventViewSetListActions()
    ensures MethodMap(EventViewSet, ListRoute.mapping) == ListRoute.mapping
  {
    MethodMapAllPresent(EventViewSet, ListRoute.mapping);
  }

  /** A model viewset has every action of the detail route. */
  lemma EventViewSetDetailActions()
    ensures MethodMap(EventViewSet, DetailRoute.mapping) == DetailRoute.mapping
  {
    MethodMapAllPresent(EventViewSet, DetailRoute.mapping);
  }

  /** A model viewset keeps both standard routes. */
  lemma EventViewSetKeepsBothRoutes()
    ensures Kept(EventViewSet, [ListRoute, DetailRoute]) == [ListRoute, DetailRoute]
  {
    var routes := [ListRoute, DetailRoute];
    assert forall i :: 0 <= i < |routes| ==> MethodMap(EventViewSet, routes[i].mapping) != [] by {
      EventViewSetListActions();
      EventViewSetDetailActions();
    }
    KeptAll(EventViewSet, routes);
  }

  /** The patterns a model viewset gets under `prefix` and `basename`. */
  lemma EventViewSetPatterns(prefix: string, basename: string)
    ensures var r := ViewsetUrls(DefaultConfig, prefix, EventViewSet, basename);
      && r.Success?
      && |r.value| == 2
      && r.value[0].regex == StripRootSlash(prefix, "^" + prefix + "/" + "$")
      && r.value[0].name == basename + "-list"
      && r.value[0].view.actions == [("get", "list"), ("post", "create")]
      && r.value[1].regex == StripRootSlash(prefix, "^" + prefix + "/" + DefaultLookup + "/" + "$")
      && r.value[1].name == basename + "-detail"
      && r.value[1].view.actions == DetailRoute.mapping
  {
    EventViewSetKeepsBothRoutes();
    EventViewSetListActions();
    EventViewSetDetailActions();
    ListRouteUrl(prefix, DefaultLookup, "/");
    DetailRouteUrl(prefix, DefaultLookup, "/");
    RouteNames(basename);
  }

  /** The URLs of the registry `register('events', EventViewSet, 'event')`
      builds (`EventsRegistration`): the collection and detail patterns,
      then the root index listing `events` under the collection route's
      name. */
  lemma EventsRegistry()
    ensures var r := GetUrls(DefaultConfig, [Entry("events", EventViewSet, "event")]);
      && r.Success?
      && r.value.log == []
      && |r.value.patterns| == 3
      && r.value.patterns[0].regex == "^events/$"
      && r.value.patterns[0].name == "event-list"
      && r.value.patterns[1].regex == "^events/" + DefaultLookup + "/$"
      && r.value.patterns[1].name == "event-detail"
      && r.value.patterns[2] == Leaf("^$", RootIndexView([("events", "event-list")]), "api-root")
  {
    var cfg := DefaultConfig;
    var e := Entry("events", EventViewSet, "event");
    EventsViewsetUrls();
    var ps := ViewsetUrls(cfg, "events", EventViewSet, "event").value;
    var root := Leaf("^$", RootIndexView([("events", "event-list")]), "api-root");
    assert GetUrls(cfg, [e]) == Success(Generated(ps + [root], [])) by {
      EventsIndex();
      ViewsetEntryUrls(cfg, e);
    }
  }

  /** The viewset patterns of the events registration, spelled out. */
  lemma EventsViewsetUrls()
    ensures var r := ViewsetUrls(DefaultConfig, "events", EventViewSet, "event");
      && r.Success?
      && |r.value| == 2
      && r.value[0].regex == "^events/$"
      && r.value[0].name == "event-list"
      && r.value[1].regex == "^events/" + DefaultLookup + "/$"
      && r.value[1].name == "event-detail"
  {
    EventViewSetPatterns("events", "event");
    Spellings();
  }

  /** A one-entry registry holding a viewset whose generation succeeds
      yields that viewset's patterns and no diagnostics. */
  lemma ViewsetEntryUrls(cfg: Config, e: Entry)
    requires Classify(cfg, e.target) == ViewsetKind
    requires ViewsetUrls(cfg, e.prefix, e.target, e.basename).Success?
    ensures RegistryUrls(cfg, [e]) == Success(Generated(ViewsetUrls(cfg, e.prefix, e.target, e.basename).value, []))
  {
    SingleEntry(cfg, e);
  }

  /** The events registration appends one entry under the given basename. */
  lemma EventsRegistration()
    ensures Register(DefaultConfig, [], "events", EventViewSet, Some("event"))
         == Success([Entry("events", EventViewSet, "event")])
  {
  }

  /** The root index of the events registry lists `events` under `event-list`. */
  lemma EventsIndex()
    ensures ApiRootDict(DefaultConfig, [Entry("events", EventViewSet, "event")]) == [("events", "event-list")]
  {
    var cfg := DefaultConfig;
    var e := Entry("events", EventViewSet, "event");
    assert Classify(cfg, EventViewSet) == ViewsetKind;
    assert cfg.listName[1..][1..] == [];
    assert FormatName(cfg.listName, "event") == "event" + "-list";
    Spellings();
    assert [e][..0] == [];
    assert IndexLink(cfg, e) == Some("event-list");
  }

  /** A viewset mounted with an empty prefix: the separator after the
      anchor is dropped, and the root index lists nothing. */
  lemma EmptyPrefixViewset()
    ensures var r := GetUrls(DefaultConfig, [Entry("", EventViewSet, "event")]);
      && r.Success?
      && |r.value.patterns| == 3
      && r.value.patterns[0].regex == "^$"
      && r.value.patterns[1].regex == "^" + DefaultLookup + "/$"
      && r.value.patterns[2] == Leaf("^$", RootIndexView([]), "api-root")
  {
    var cfg := DefaultConfig;
    var e := Entry("", EventViewSet, "event");
    EventViewSetPatterns("", "event");
    EmptyPrefixSpellings();
    SingleEntry(cfg, e);
    assert [e][..0] == [];
    assert ApiRootDict(cfg, [e]) == [];
  }

  /** `register_router('admin', admin_router)`: namespace `admin`, one
      namespaced include under `admin/`, and a root index link through the
      sub-router's default root view. */
  lemma AdminSubRouter()
    ensures RegisterRouter(DefaultConfig, [], "admin", AdminRouter, None)
         == Success([Entry("admin", AdminRouter, "admin")])
    ensures GetUrls(DefaultConfig, [Entry("admin", AdminRouter, "admin")])
         == Success(Generated(
              [ Include("admin/", InnerPatterns, Some("admin")),
                Leaf("^$", RootIndexView([("admin", "admin:api-root")]), "api-root") ], []))
  {
    var e := Entry("admin", AdminRouter, "admin");
    var inc := Include("admin/", InnerPatterns, Some("admin"));
    var root := Leaf("^$", RootIndexView([("admin", "admin:api-root")]), "api-root");
    AdminRegistration();
    AdminUrls();
    AdminIndex();
    assert [inc] + [root] == [inc, root];
  }

  /** Registering the admin sub-router uses its prefix as namespace. */
  lemma AdminRegistration()
    ensures RegisterRouter(DefaultConfig, [], "admin", AdminRouter, None)
         == Success([Entry("admin", AdminRouter, "admin")])
  {
    assert DefaultRouterBasename(true, "admin") == "admin";
  }

  /** The admin entry contributes exactly its namespaced include. */
  lemma AdminUrls()
    ensures RegistryUrls(DefaultConfig, [Entry("admin", AdminRouter, "admin")])
         == Success(Generated([Include("admin/", InnerPatterns, Some("admin"))], []))
  {
    var cfg := DefaultConfig;
    var e := Entry("admin", AdminRouter, "admin");
    assert Classify(cfg, AdminRouter) == RouterKind;
    Spellings();
    assert RouterUrls("admin", AdminRouter, "admin") == Success([Include("admin/", InnerPatterns, Some("admin"))]);
    SingleEntry(cfg, e);
  }

  /** The admin entry links to the sub-router's own root view. */
  lemma AdminIndex()
    ensures ApiRootDict(DefaultConfig, [Entry("admin", AdminRouter, "admin")]) == [("admin", "admin:api-root")]
  {
    var e := Entry("admin", AdminRouter, "admin");
    assert Classify(DefaultConfig, AdminRouter) == RouterKind;
    Spellings();
    assert [e][..0] == [];
  }

  /** `register('', nested_router)`: basename `nested`, one include at the
      empty path with no namespace, and nothing in the root index. */
  lemma NestedRouterWithoutPrefix()
    ensures Register(DefaultConfig, [], "", NestedRouter, None)
         == Success([Entry("", NestedRouter, "nested")])
    ensures GetUrls(DefaultConfig, [Entry("", NestedRouter, "nested")])
         == Success(Generated(
              [ Include("", InnerPatterns, None),
                Leaf("^$", RootIndexView([]), "api-root") ], []))
  {
    var cfg := DefaultConfig;
    var e := Entry("", NestedRouter, "nested");
    assert Classify(cfg, NestedRouter) == RouterKind;
    SingleEntry(cfg, e);
    assert RegistryUrls(cfg, [e]) == Success(Generated([Include("", InnerPatterns, None)], []));
    assert [e][..0] == [];
    assert ApiRootDict(cfg, [e]) == [];
    var root := Leaf("^$", RootIndexView([]), "api-root");
    assert [Include("", InnerPatterns, None)] + [root] == [Include("", InnerPatterns, None), root];
  }

  /** Default basenames for a slashed prefix, with and without `auto_basename`. */
  lemma SlashedPrefixBasename()
    ensures Register(DefaultConfig, [], "api/v1", AdminRouter, None)
         == Success([Entry("api/v1", AdminRouter, "api_v1")])
    ensures Register(DefaultConfig.(autoBasename := false), [], "api/v1", AdminRouter, None)
         == Success([Entry("api/v1", AdminRouter, "api/v1")])
  {
    assert DefaultRouterBasename(true, "api/v1") == "api_v1";
  }

  /** The explicit variants refuse the other kind. */
  lemma MismatchedRegistrations()
    ensures RegisterViewset(DefaultConfig, [], "admin", AdminRouter, None) == Failure(ExpectedViewset)
    ensures RegisterRouter(DefaultConfig, [], "events", EventViewSet, None) == Failure(ExpectedRouter)
  {
  }
}
