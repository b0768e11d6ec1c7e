/** URL patterns, views and route templates as the router produces and
    consumes them. `re_path(regex, view, name=...)` becomes a `Leaf`;
    `re_path(regex, include(...))` becomes an `Include`. */
module Urls {
  import opened Wrappers

  /** One piece of a route's URL template after the resource library has
      expanded it: literal text or one of the three placeholders the router
      fills in (`{prefix}`, `{lookup}`, `{trailing_slash}`). */
  datatype UrlPiece = UText(text: string) | UPrefix | ULookup | UTrailingSlash

  /** One piece of a route's name template: literal text or `{basename}`. */
  datatype NamePiece = NText(text: string) | NBasename

  /** A keyword argument handed to `as_view`. */
  datatype KwArg = KwText(text: string) | KwFlag(flag: bool)

  /** A route template: URL template, HTTP-method-to-action mapping (in dict
      order), name template, detail flag and the extra `initkwargs`. */
  datatype Route = Route(
    url: seq<UrlPiece>,
    mapping: seq<(string, string)>,
    name: seq<NamePiece>,
    detail: bool,
    initkwargs: map<string, KwArg>)

  /** The view bound by a pattern: a viewset's `as_view(actions, **initkwargs)`
      for the viewset named `viewset`, or the root index view built from the
      ordered prefix-to-URL-name dictionary. */
  datatype View =
    | ViewsetView(viewset: string, actions: seq<(string, string)>, initkwargs: map<string, KwArg>)
    | RootIndexView(index: seq<(string, string)>)

  /** A URL pattern. An `Include` mounts another router's patterns under
      `regex`, optionally resolved through a namespace (the include's app
      name is always the same string as its namespace here). */
  datatype UrlPattern =
    | Leaf(regex: string, view: View, name: string)
    | Include(regex: string, inner: seq<UrlPattern>, namespace: Option<string>)

  /** `url.format(prefix=..., lookup=..., trailing_slash=...)` */
  function FormatUrl(url: seq<UrlPiece>, prefix: string, lookup: string, slash: string): string
  {
    if url == [] then ""
    else
      var head := match url[0]
        case UText(t) => t
        case UPrefix => prefix
        case ULookup => lookup
        case UTrailingSlash => slash;
      head + FormatUrl(url[1..], prefix, lookup, slash)
  }

  /** `name.format(basename=...)` */
  function FormatName(name: seq<NamePiece>, basename: string): string
  {
    if name == [] then ""
    else
      var head := match name[0]
        case NText(t) => t
        case NBasename => basename;
      head + FormatName(name[1..], basename)
  }
  /** Formatting works piece by piece: a template split in two formats to
      the two halves' results, concatenated. */
  lemma {:induction false} FormatUrlAppend(a: seq<UrlPiece>, b: seq<UrlPiece>, prefix: string, lookup: string, slash: string)
    ensures FormatUrl(a + b, prefix, lookup, slash) == FormatUrl(a, prefix, lookup, slash) + FormatUrl(b, prefix, lookup, slash)
    decreases |a|
  {
    if a == [] {
      assert a + b == b;
    } else {
      assert (a + b)[0] == a[0];
      assert (a + b)[1..] == a[1..] + b;
      FormatUrlAppend(a[1..], b, prefix, lookup, slash);
    }
  }

  /** The same for name templates. */
  lemma {:induction false} FormatNameAppend(a: seq<NamePiece>, b: seq<NamePiece>, basename: string)
    ensures FormatName(a + b, basename) == FormatName(a, basename) + FormatName(b, basename)
    decreases |a|
  {
    if a == [] {
      assert a + b == b;
    } else {
      assert (a + b)[0] == a[0];
      assert (a + b)[1..] == a[1..] + b;
      FormatNameAppend(a[1..], b, basename);
    }
  }
}
