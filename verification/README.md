# EnhancedAPIRouter and str_to_bool, modelled in Dafny

This project models two pieces of an event-management web backend.

The first is `EnhancedAPIRouter`, a URL router that accepts both resource
viewsets and other routers in one registry. Each registered object is
classified as a router, a viewset or unknown. The router then turns the
ordered registry into an ordered list of URL patterns:

- a router becomes one include, namespaced unless it is a nested router;
- a viewset becomes one leaf pattern per route it implements;
- an unknown object gets a best-effort fallback that never raises;
- when the root view is enabled, a root index pattern `^$` comes last.

The model also covers the root index dictionary (prefix to URL name) and the
default-basename rules applied at registration.

The second is `str_to_bool`, the settings helper. It maps a missing value to
a missing answer, and any string to a membership test after stripping and
lower-casing.

Everything is pure functions over immutable datatypes:

- `Registration` holds the registry entries and the three registration calls.
- `Targets` holds the capability record of a registered object, the router
  options and the classification.
- `Patterns` holds the router, viewset and unknown-object strategies.
- `Generation` holds `get_urls`.
- `RootIndex` holds the root index dictionary.
- `BoolParse` holds `str_to_bool`.
- `Scenarios` works out concrete registries as lemmas, including the
  application's own `register('events', EventViewSet, 'event')`.

A call that raises in Python returns `Failure` here. Because registries are
values, a failed registration leaves the caller's registry exactly as it was.

Python reflection becomes fields of the `Target` record: `isinstance`,
`hasattr`, `callable` and the optional nested-router import probe. Calls into
the resource library also become fields:

- `get_routes`: `routes`, which is `None` when the call raises;
- `get_lookup_regex`: `lookupRegex`, which is `None` when it raises;
- the queryset-derived default basename: `defaultBasename`;
- a sub-router's own patterns: `urls`;
- the `hasattr(viewset, action)` test: `attributes`.

`WellFormed` states what the class hierarchy guarantees about these flags.
It assumes nothing about `urls`, which is a property: `hasattr` reports it
missing when its getter raises `AttributeError`.

The model follows the code as written, which has these consequences that its
surrounding documentation does not spell out:

- **Tie-break in duck-typed mode.** Only view *classes* are excluded from the
  router test. An object with `urls`, `registry` and a callable `as_view` is
  classified as a router, not as a resource (`Targets.DuckRouterShapeWinsOverAsView`).
- **Unknown objects.** An object classified as unknown never contributes a
  pattern. Its `as_view`, if any, is not callable. The recovery then either
  fails in the library's `get_routes`, finds no route to bind, or fails on
  the first `as_view` call. Both failures are caught
  (`Patterns.UnknownContributesNothing`).
- **Uncaught failures.** A failure while generating a viewset entry's
  patterns is not caught: it escapes `get_urls`. So does a router entry
  whose `urls` cannot be read. Only unknown objects are guarded
  (`Generation.RegistryUrlsFailure`).
- **Leading separator.** With an empty prefix, one `/` after `^` is removed,
  not all of them: `^//x` becomes `^/x`
  (`Patterns.StripRootSlashRemovesOneSeparator`). A produced regex can still
  start with `^/` only when the formatted one started with `^//`.
- **Nested routers in the root index.** A nested router registered with a
  prefix is linked in the root index as `basename:root_view_name`. Its own
  include declares no namespace, so the link resolves only if some other
  include happens to declare that namespace (`Generation.RouterLinkNamespace`).
- **Empty-prefix viewsets shadow the root index.** With an empty prefix, a
  viewset's collection pattern is `^$`, the same regex as the root index
  pattern, and it comes first. A resolver that takes the first match never
  reaches the root index view. The application's own
  `router.register('', EventViewSet, 'event')` is such a registration
  (`Scenarios.EmptyPrefixViewset`).
- **Unreadable `urls`.** A known router whose `urls` property raises
  `AttributeError` is a router under strict checking but not under duck
  typing (`Targets.UnreadableUrlsSplitsModes`). Under strict checking its
  entry then makes `get_urls` raise, because `_get_router_urls` reads `urls`
  (`Generation.NoViewsetNoFailure`).
- **Return type.** `str_to_bool` is annotated as returning `bool`, but it
  returns `None` for `None`. The model returns `Option<bool>`.

## Model

| member | source | states |
|---|---|---|
| `Urls.FormatUrl` | djangoProject/custom_router.py:297-301 | definition of `route.url.format(prefix=..., lookup=..., trailing_slash=...)` on a typed template: each placeholder replaced by its argument, text kept |
| `Urls.FormatUrlAppend` | djangoProject/custom_router.py:297-301 | URL formatting works piece by piece: formatting a concatenated template gives the concatenation of the halves' results |
| `Urls.FormatName` | djangoProject/custom_router.py:316 | definition of `route.name.format(basename=...)`, also used for `list_name.format(basename=...)`: each basename placeholder replaced, text kept |
| `Urls.FormatNameAppend` | djangoProject/custom_router.py:316 | name formatting works piece by piece in the same way |
| `Strings.ReplaceChar` | djangoProject/custom_router.py:64 | `prefix.replace('/', '_')`: same length, each `/` becomes `_`, all other characters kept |
| `Registration.DefaultRouterBasename` | djangoProject/custom_router.py:61-66 | the default router basename is never empty and is `nested` for an empty prefix; otherwise it has the prefix's length and agrees with it except that `/` becomes `_` under `auto_basename`, so it then contains no `/` |
| `Registration.NamespaceRuleIsBasenameRule` | djangoProject/custom_router.py:107-109 | `register_router`'s default namespace expression equals `register`'s default basename rule for every option value and prefix |
| `Registration.DefaultNamespace` | djangoProject/custom_router.py:107-109 | definition of `register_router`'s default namespace, written as the source writes it; `Registration.NamespaceRuleIsBasenameRule` relates it to the basename rule |
| `Registration.BaseRegister` | djangoProject/custom_router.py:70 | the library registration fails exactly when no basename is given and none can be derived; on success it keeps the registry and appends one entry with the given or derived basename |
| `Registration.Register` | djangoProject/custom_router.py:61-70 | a router always registers, under the given basename or the default one; any other object is passed through unchanged to the library registration |
| `Registration.RegisterViewset` | djangoProject/custom_router.py:86-88 | fails with `ExpectedViewset` exactly when the object classifies as a router; otherwise behaves as `register` |
| `Registration.RegisterRouter` | djangoProject/custom_router.py:104-111 | fails with `ExpectedRouter` exactly when the object is not a router; otherwise appends it under the given namespace or the default one |
| `Registration.RegisterRouterIsRegister` | djangoProject/custom_router.py:104-111 | on a router, `register_router` and `register` produce the same registry |
| `Registration.RegisterAppends` | djangoProject/custom_router.py:70 | a successful registration keeps all earlier entries in order and appends exactly one entry with the given prefix and object |
| `Targets.Classify` | djangoProject/custom_router.py:197-211 | every object falls in exactly one of router, viewset, unknown; the router test comes first, so a router that is also a viewset is a router; an unknown object is no view class and has no callable `as_view` |
| `Targets.ViewsetClassNeverRouter` | djangoProject/custom_router.py:136-141 | a view class is never a router, in strict or duck-typed mode, and is classified as a viewset |
| `Targets.IsRouter` | djangoProject/custom_router.py:113-141 | definition of `_is_router`: under strict checking, exactly the known router types; under duck typing, anything with `urls` and `registry` that is not a view class |
| `Targets.IsViewset` | djangoProject/custom_router.py:160-175 | definition of `_is_viewset`: a view class, or any object with a callable `as_view` |
| `Targets.StrictRoutersAreDuckRouters` | djangoProject/custom_router.py:123-141 | a known router instance whose `urls` can be read is a router in both modes |
| `Targets.UnreadableUrlsSplitsModes` | djangoProject/custom_router.py:132-141 | a known router whose `urls` raises `AttributeError` is a router under strict checking and, without a callable `as_view`, unknown under duck typing |
| `Targets.DuckRouterShapeWinsOverAsView` | djangoProject/custom_router.py:123-141 | in duck-typed mode, every non-class object with `urls`, `registry` and a callable `as_view` is both a viewset and a router, and is classified as a router; under strict checking the same object is a router only if it is a known router type, and otherwise a viewset |
| `Patterns.RouterUrls` | djangoProject/custom_router.py:234-268 | fails with `UrlsUnreadable` exactly when the router's `urls` cannot be read; otherwise yields exactly one include of the router's own patterns, at `prefix/` or at the empty path, with no namespace for a nested router and the basename as namespace otherwise |
| `Patterns.LookupRegex` | djangoProject/custom_router.py:392-398 | the library's lookup pattern when it succeeds, `(?P<pk>[^/.]+)` when it raises |
| `Patterns.GetRoutes` | djangoProject/custom_router.py:353-358 | a router has no routes; otherwise the library's routes, whose failure propagates |
| `Patterns.MethodMap` | djangoProject/custom_router.py:292 | keeps exactly the method/action pairs whose action the object has, never more pairs than the route declares |
| `Patterns.Kept` | djangoProject/custom_router.py:290-294 | the kept routes are exactly the routes with a non-empty method map: each kept route has one, every route that has one is kept, each as many times as it is listed, and they keep the order of the route list |
| `Patterns.KeptComplete` | djangoProject/custom_router.py:290-294 | a listed route whose method map is non-empty is among the kept routes |
| `Patterns.KeptAll` | djangoProject/custom_router.py:290-294 | when every route has a non-empty method map, the loop keeps the route list unchanged |
| `Patterns.StripRootSlash` | djangoProject/custom_router.py:303-305 | with a prefix, or without a leading `^/`, the regex is unchanged; otherwise exactly the separator after `^` is removed |
| `Patterns.StripRootSlashLeavesNoRootSlash` | djangoProject/custom_router.py:303-305 | with an empty prefix, the result starts with `^/` only if the formatted regex started with `^//` |
| `Patterns.StripRootSlashRemovesOneSeparator` | djangoProject/custom_router.py:303-305 | only one separator is removed: `^//x` becomes `^/x` |
| `Patterns.ViewKwargs` | djangoProject/custom_router.py:308-312 | the view kwargs are the route's `initkwargs` with `basename` set to the entry's basename and `detail` to the route's flag; no other key is added or changed |
| `Patterns.RoutePattern` | djangoProject/custom_router.py:296-317 | definition of the leaf for one route: the formatted regex with the root separator stripped, bound to the viewset's view with the route's method map and view kwargs, named from the route's name template and the basename |
| `Patterns.RoutePatterns` | djangoProject/custom_router.py:290-317 | fails exactly when some route is kept and `as_view` is not callable; otherwise yields one pattern per kept route, in route order, each formatted from that route |
| `Patterns.ViewsetUrls` | djangoProject/custom_router.py:283-319 | a router yields no patterns; a failing route lookup propagates; otherwise the per-route loop over the library's routes with the resolved lookup pattern |
| `Patterns.ViewsetPatternsShape` | djangoProject/custom_router.py:283-319 | at most one pattern per route; each is a leaf bound to the viewset with a non-empty action map, `basename` in its kwargs, and the name, `detail` flag, actions and regex of one of the routes |
| `Patterns.SkippedRouteContributesNothing` | djangoProject/custom_router.py:292-294 | a route whose method map is empty changes nothing in the output |
| `Patterns.UnknownUrls` | djangoProject/custom_router.py:321-341 | never fails; the warning is always logged first; without an `as_view` attribute nothing else happens; any patterns it yields are exactly a successful viewset generation |
| `Patterns.UnknownContributesNothing` | djangoProject/custom_router.py:321-341 | an object classified as unknown contributes no pattern at all |
| `Generation.EntryUrls` | djangoProject/custom_router.py:197-211 | a router entry yields its single include with no diagnostics, or fails with `UrlsUnreadable` when its `urls` cannot be read; a viewset entry succeeds exactly when its viewset generation does; an unknown entry always succeeds with no patterns and a warning; only viewset entries and routers with unreadable `urls` can fail |
| `Generation.RegistryUrls` | djangoProject/custom_router.py:197-211 | definition of the registry loop: each entry's output in registry order, stopping at the first failure; its properties are stated by `Generation.RegistryUrlsAppend` and `Generation.RegistryUrlsFailure` |
| `Generation.GetUrls` | djangoProject/custom_router.py:193-219 | succeeds exactly when the registry loop does; with the root view enabled, appends exactly one root index pattern `^$` named `root_view_name`, last, over the root index dictionary; without it there is no root index pattern |
| `Generation.NoRootPatternFromEntries` | djangoProject/custom_router.py:197-211 | no registry entry yields a root index pattern |
| `Generation.RegistryUrlsAppend` | djangoProject/custom_router.py:197-207 | entries are processed in insertion order and each entry's patterns stay contiguous: the output for `a + b` is that of `a` followed by that of `b` |
| `Generation.RegisterThenGenerate` | djangoProject/custom_router.py:195-211 | after a successful registration, the new entry's patterns follow those of every earlier entry |
| `Generation.RegistryUrlsFailure` | djangoProject/custom_router.py:197-211 | generation succeeds exactly when every entry does; a failure carries the error of the first failing entry, which is a viewset entry or a router whose `urls` cannot be read |
| `Generation.NoViewsetNoFailure` | djangoProject/custom_router.py:197-211 | a registry with no viewset entries generates exactly when every router entry's `urls` can be read, and so always generates under duck typing |
| `Generation.RouterLinkNamespace` | djangoProject/custom_router.py:234-268 | a prefixed router entry is linked in the index as `basename:root_view_name`; when its include exists, a plain router's include declares that same namespace and a nested router's include declares none |
| `RootIndex.Put` | djangoProject/custom_router.py:383-388 | ordered-dict assignment: an existing key keeps its place and takes the new value, a new key goes last, other keys keep their values |
| `RootIndex.PutKeepsKeysUnique` | djangoProject/custom_router.py:383-388 | assignment never duplicates a key |
| `RootIndex.IndexLink` | djangoProject/custom_router.py:374-388 | an empty prefix or an unknown object gives no link; a router links to `basename:root_view_name`, defaulting to `api-root`; a viewset links to the first route's name with the basename substituted |
| `RootIndex.ApiRootDict` | djangoProject/custom_router.py:371-388 | definition of the index loop: each entry's link assigned under its prefix, in registry order; its properties are stated by the `RootIndex.ApiRootDict…` lemmas below |
| `RootIndex.ApiRootDictUnique` | djangoProject/custom_router.py:371-388 | the root index never lists a prefix twice |
| `RootIndex.ApiRootDictKeys` | djangoProject/custom_router.py:371-388 | a prefix is a key exactly when some router or viewset entry registered it non-empty; the empty prefix is never a key |
| `RootIndex.ApiRootDictLookup` | djangoProject/custom_router.py:371-388 | a key's value is the link of the last router or viewset entry registered with that prefix |
| `RootIndex.ApiRootDictExtends` | djangoProject/custom_router.py:371-388 | registering another entry never reorders or drops earlier keys |
| `Scenarios.EventViewSetPatterns` | djangoProject/custom_router.py:283-319 | a model viewset gets the collection pattern `^{prefix}/$` named `{basename}-list` with GET/POST, and the detail pattern with the default lookup named `{basename}-detail`, after root-slash stripping |
| `Scenarios.EventsRegistration` | events_app/urls.py:23 | `register('events', EventViewSet, 'event')` on an empty registry succeeds with the one entry `events`, `EventViewSet`, `event` |
| `Scenarios.EventsRegistry` | events_app/urls.py:23 | the registry that registration builds yields `^events/$` (`event-list`), `^events/(?P<pk>[^/.]+)/$` (`event-detail`), then the root pattern whose index maps `events` to `event-list` |
| `Scenarios.EmptyPrefixViewset` | djangoProject/custom_router.py:303-305 | with an empty prefix the viewset patterns are `^$` and `^(?P<pk>[^/.]+)/$`, and the root index is empty; the collection pattern `^$` precedes the root index pattern with the same regex |
| `Scenarios.AdminSubRouter` | djangoProject/custom_router.py:254-260 | a router registered as `admin` with no namespace gets namespace `admin`, one include at `admin/`, and the index link `admin:api-root` |
| `Scenarios.NestedRouterWithoutPrefix` | djangoProject/custom_router.py:244-251 | a nested router registered with an empty prefix is named `nested` and mounted at the empty path with no namespace; the index is empty |
| `Scenarios.SlashedPrefixBasename` | djangoProject/custom_router.py:63-66 | prefix `api/v1` gives basename `api_v1` with `auto_basename` and `api/v1` without it |
| `Scenarios.MismatchedRegistrations` | djangoProject/custom_router.py:86-88 | `register_viewset` refuses a router and `register_router` refuses a viewset |
| `BoolParse.StrToBool` | djangoProject/utils.py:1-4 | a missing value gives a missing answer, not false; a string gives true exactly when its normal form is an accepted spelling |
| `BoolParse.Lower` | djangoProject/utils.py:4 | lower-casing keeps the length and maps each character through ASCII lower-casing |
| `BoolParse.Strip` | djangoProject/utils.py:4 | definition of `strip()`: the leading whitespace, then the trailing whitespace, removed; characterised by `BoolParse.StripBounds` |
| `BoolParse.Normalise` | djangoProject/utils.py:4 | definition of `strip().lower()`; its invariances are stated by the `BoolParse.Normalise…` lemmas |
| `BoolParse.StripBounds` | djangoProject/utils.py:4 | the stripped string is an infix with only whitespace around it, with non-whitespace ends, and is empty only for an all-whitespace input |
| `BoolParse.StripSurrounded` | djangoProject/utils.py:4 | stripping a word with non-whitespace ends, surrounded by whitespace, yields exactly that word |
| `BoolParse.StripLowerCommute` | djangoProject/utils.py:4 | stripping and lower-casing commute |
| `BoolParse.NormaliseIgnoresCase` | djangoProject/utils.py:4 | inputs equal up to letter case give the same answer |
| `BoolParse.NormaliseIgnoresSurroundingSpace` | djangoProject/utils.py:4 | adding whitespace around an input never changes the answer |
| `BoolParse.NormaliseIdempotent` | djangoProject/utils.py:4 | normalising twice equals normalising once, so the answer on the normal form is the answer on the input |
| `BoolParse.AcceptedIff` | djangoProject/utils.py:4 | the answer is true exactly when the input is `1`, `true`, `yes` or `on` in any letter case with only whitespace around it |
| `BoolParse.EmptyIsFalse` | djangoProject/utils.py:4 | the empty string gives false, not a missing answer |
| `BoolParse.CommonFalseSpellings` | djangoProject/utils.py:4 | `0`, `false` and `no` give false |
| `BoolParse.MixedCaseAccepted` | djangoProject/utils.py:4 | ` Yes\n` gives true |
| `BoolParse.UpperCaseAccepted` | djangoProject/utils.py:4 | `\tTRUE` gives true |

## Left out

- `Targets.StrictRoutersAreDuckRouters`: requires that the router's `urls` can be read. A known router whose `urls` property raises `AttributeError` is a strict router but not a duck router, as `Targets.UnreadableUrlsSplitsModes` states.
- Reflection (`isinstance`, `hasattr`, `callable`, the optional import of the nested-router library) is replaced by the capability fields of `Target`. The model does not cover `hasattr` on a property that raises something other than `AttributeError`.
- Resource-library calls (`super().get_routes`, `super().get_lookup_regex`, the queryset-derived default basename, `as_view`, `re_path`, `include`, `APIRootView.as_view`) are inputs or datatype constructors, not code. A callable `as_view` is assumed to accept the mapping and kwargs. Its own argument checks are library code.
- Placeholders in route templates are typed, so a template can only contain the placeholders the formatting call supplies. The `KeyError` of `str.format` therefore cannot arise.
- The duplicate-basename check that newer versions of the resource library perform inside `register` is not part of this repository and is not modelled.
- The caching of `urls` in the library's `urls` property is not modelled: generation here is a pure function, recomputed on each call.
- The `print` diagnostics of `_handle_unknown_type` become a log of `Diagnostic` values. Their text is not modelled.
- The include's app name is not modelled separately, because it is always the same string as its namespace.
- Of the router's own route list, only the first route's name template is modelled (`Config.listName`), because `get_api_root_view` reads nothing else from it.
- `BoolParse.StrToBool`: only ASCII whitespace is stripped. Python also strips non-ASCII whitespace such as U+00A0, so such inputs can differ.
- `BoolParse.Lower`: only ASCII letters are lower-cased, and other characters are left unchanged. This changes the answer only if a non-ASCII character lower-cases to a letter of an accepted spelling.
- Settings, URL wiring, models, serializers, admin, views, exception handling and permissions are framework declarations or glue, and are not modelled.
