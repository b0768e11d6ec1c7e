/** Registration: `register`, `register_viewset`, `register_router` of
    `EnhancedAPIRouter`, over an immutable registry value. A call that raises
    returns `Failure` and produces no new registry, so the caller's registry
    is left as it was. */
module Registration {
  import opened Wrappers
  import opened Strings
  import opened Targets

  /** A registry entry `(prefix, viewset_or_router, basename)`. */
  datatype Entry = Entry(prefix: string, target: Target, basename: string)

  /** `self.registry`, in registration order. */
  type Registry = seq<Entry>

  /** The basename `register` gives a router registered without one: the
      prefix with `/` turned into `_` under `auto_basename`, the prefix
      itself otherwise, and `"nested"` for an empty prefix. */
  function DefaultRouterBasename(autoBasename: bool, prefix: string): (r: string)
    ensures r != []
    ensures prefix == [] ==> r == "nested"
    ensures prefix != [] ==> |r| == |prefix|
    ensures prefix != [] ==> forall i :: 0 <= i < |prefix| ==>
      r[i] == (if autoBasename && prefix[i] == '/' then '_' else prefix[i])
    ensures autoBasename ==> '/' !in r
  {
    if autoBasename then (if prefix != [] then ReplaceChar(prefix, '/', '_') else "nested")
    else if prefix != [] then prefix else "nested"
  }

  /** The namespace `register_router` uses when none is given, written as
      the source writes it:
      `prefix.replace('/', '_') if auto_basename and prefix else prefix or 'nested'`. */
  function DefaultNamespace(autoBasename: bool, prefix: string): string {
    if autoBasename && prefix != [] then ReplaceChar(prefix, '/', '_')
    else if prefix != [] then prefix
    else "nested"
  }

  /** The two defaulting rules, written differently in the source, agree. */
  lemma NamespaceRuleIsBasenameRule(autoBasename: bool, prefix: string)
    ensures DefaultNamespace(autoBasename, prefix) == DefaultRouterBasename(autoBasename, prefix)
  {
  }

  /** The resource library's `register`: a missing basename is derived from
      the object's queryset, or registration fails; the entry is appended. */
  function BaseRegister(reg: Registry, prefix: string, t: Target, basename: Option<string>): (r: Result<Registry, Error>)
    ensures r.Failure? <==> basename.None? && t.defaultBasename.None?
    ensures r.Failure? ==> r.error == MissingBasename
    ensures r.Success? ==> |r.value| == |reg| + 1 && r.value[..|reg|] == reg
    ensures r.Success? && basename.Some? ==> r.value[|reg|] == Entry(prefix, t, basename.value)
    ensures r.Success? && basename.None? ==> r.value[|reg|] == Entry(prefix, t, t.defaultBasename.value)
  {
    match basename
    case Some(b) => Success(reg + [Entry(prefix, t, b)])
    case None =>
      match t.defaultBasename
      case Some(b) => Success(reg + [Entry(prefix, t, b)])
      case None => Failure(MissingBasename)
  }

  /** `register`: a router always registers, under the given basename or the
      default one; anything else is passed through unchanged to the
      resource library's registration. */
  function Register(cfg: Config, reg: Registry, prefix: string, t: Target, basename: Option<string>): (r: Result<Registry, Error>)
    ensures IsRouter(cfg, t) ==>
      r == Success(reg + [Entry(prefix, t, basename.GetOr(DefaultRouterBasename(cfg.autoBasename, prefix)))])
    ensures !IsRouter(cfg, t) ==> r == BaseRegister(reg, prefix, t, basename)
  {
    var b := if IsRouter(cfg, t) && basename.None? then Some(DefaultRouterBasename(cfg.autoBasename, prefix)) else basename;
    BaseRegister(reg, prefix, t, b)
  }

  /** `register_viewset`: fails exactly for routers; otherwise the same as
      `register`. */
  function RegisterViewset(cfg: Config, reg: Registry, prefix: string, t: Target, basename: Option<string>): (r: Result<Registry, Error>)
    ensures r == Failure(ExpectedViewset) <==> IsRouter(cfg, t)
    ensures !IsRouter(cfg, t) ==> r == Register(cfg, reg, prefix, t, basename)
  {
    if IsRouter(cfg, t) then Failure(ExpectedViewset)
    else BaseRegister(reg, prefix, t, basename)
  }

  /** `register_router`: fails exactly for non-routers; a router is appended
      under the given namespace, or the default one. */
  function RegisterRouter(cfg: Config, reg: Registry, prefix: string, t: Target, namespace: Option<string>): (r: Result<Registry, Error>)
    ensures r == Failure(ExpectedRouter) <==> !IsRouter(cfg, t)
    ensures IsRouter(cfg, t) ==>
      r == Success(reg + [Entry(prefix, t, namespace.GetOr(DefaultRouterBasename(cfg.autoBasename, prefix)))])
  {
    if !IsRouter(cfg, t) then Failure(ExpectedRouter)
    else
      var ns := if namespace.None? then DefaultNamespace(cfg.autoBasename, prefix) else namespace.value;
      NamespaceRuleIsBasenameRule(cfg.autoBasename, prefix);
      BaseRegister(reg, prefix, t, Some(ns))
  }

  /** On a router, `register_router` and `register` are the same call. */
  lemma RegisterRouterIsRegister(cfg: Config, reg: Registry, prefix: string, t: Target, name: Option<string>)
    requires IsRouter(cfg, t)
    ensures RegisterRouter(cfg, reg, prefix, t, name) == Register(cfg, reg, prefix, t, name)
  {
  }

  /** A registration that succeeds keeps every earlier entry and appends
      exactly one at the end. */
  lemma RegisterAppends(cfg: Config, reg: Registry, prefix: string, t: Target, name: Option<string>)
    requires Register(cfg, reg, prefix, t, name).Success?
    ensures var reg' := Register(cfg, reg, prefix, t, name).value;
      |reg'| == |reg| + 1 && reg'[..|reg|] == reg && reg'[|reg|].prefix == prefix && reg'[|reg|].target == t
  {
  }
}
