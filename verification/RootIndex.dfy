/** The dictionary `get_api_root_view` hands to the root index view: an
    insertion-ordered map from prefix to URL name. */
module RootIndex {
  import opened Wrappers
  import opened Urls
  import opened Targets
  import opened Registration

  /** An ordered dictionary as its list of items. */
  type Dict = seq<(string, string)>

  /** The root-view name assumed for a router that declares none. */
  const DefaultRootViewName: string := "api-root"

  function Keys(d: Dict): (ks: seq<string>)
    ensures |ks| == |d|
    ensures forall i :: 0 <= i < |d| ==> ks[i] == d[i].0
  {
    if d == [] then [] else [d[0].0] + Keys(d[1..])
  }

  predicate UniqueKeys(d: Dict) {
    var ks := Keys(d);
    forall i, j :: 0 <= i < j < |ks| ==> ks[i] != ks[j]
  }

  /** `d.get(k)` */
  function Lookup(d: Dict, k: string): (r: Option<string>)
    ensures r.None? <==> k !in Keys(d)
    ensures r.Some? ==> (k, r.value) in d
  {
    if d == [] then None
    else if d[0].0 == k then Some(d[0].1)
    else Lookup(d[1..], k)
  }

  /** `d[k] = v` on an ordered dictionary: an existing key keeps its place
      and takes the new value; a new key goes at the end. */
  function Put(d: Dict, k: string, v: string): (r: Dict)
    ensures k in Keys(d) ==> Keys(r) == Keys(d)
    ensures k !in Keys(d) ==> Keys(r) == Keys(d) + [k]
    ensures Lookup(r, k) == Some(v)
    ensures forall k' :: k' != k ==> Lookup(r, k') == Lookup(d, k')
  {
    if d == [] then [(k, v)]
    else if d[0].0 == k then [(k, v)] + d[1..]
    else [d[0]] + Put(d[1..], k, v)
  }

  /** Assigning to an ordered dictionary keeps its keys distinct. */
  lemma PutKeepsKeysUnique(d: Dict, k: string, v: string)
    requires UniqueKeys(d)
    ensures UniqueKeys(Put(d, k, v))
  {
    var ks := Keys(d);
    var ks' := Keys(Put(d, k, v));
    if k !in ks {
      forall i, j | 0 <= i < j < |ks'|
        ensures ks'[i] != ks'[j]
      {
        if j == |ks| {
          assert ks'[i] == ks[i];
        } else {
          assert ks'[i] == ks[i] && ks'[j] == ks[j];
        }
      }
    }
  }

  /** The link one registry entry contributes to the index, if any. */
  function IndexLink(cfg: Config, e: Entry): (r: Option<string>)
    ensures e.prefix == [] ==> r.None?
    ensures e.prefix != [] && Classify(cfg, e.target) == RouterKind ==>
      r == Some(e.basename + ":" + e.target.rootViewName.GetOr(DefaultRootViewName))
    ensures e.prefix != [] && Classify(cfg, e.target) == ViewsetKind ==>
      r == Some(FormatName(cfg.listName, e.basename))
    ensures Classify(cfg, e.target) == UnknownKind ==> r.None?
  {
    match Classify(cfg, e.target)
    case RouterKind =>
      var rootViewName := e.target.rootViewName.GetOr(DefaultRootViewName);
      if e.prefix != [] then Some(e.basename + ":" + rootViewName) else None
    case ViewsetKind =>
      if e.prefix != [] then Some(FormatName(cfg.listName, e.basename)) else None
    case UnknownKind => None
  }

  /** The loop of `get_api_root_view`, over the registry in order. */
  function ApiRootDict(cfg: Config, reg: Registry): Dict
    decreases |reg|
  {
    if reg == [] then []
    else
      var e := reg[|reg| - 1];
      var d := ApiRootDict(cfg, reg[..|reg| - 1]);
      match IndexLink(cfg, e)
      case None => d
      case Some(link) => Put(d, e.prefix, link)
  }

  /** Some router or viewset entry registered under prefix `k` links to the index. */
  predicate Linked(cfg: Config, reg: Registry, k: string) {
    exists i :: 0 <= i < |reg| && reg[i].prefix == k && IndexLink(cfg, reg[i]).Some?
  }

  lemma LinkedSplit(cfg: Config, reg: Registry, k: string)
    requires reg != []
    ensures Linked(cfg, reg, k) <==>
      Linked(cfg, reg[..|reg| - 1], k) || (reg[|reg| - 1].prefix == k && IndexLink(cfg, reg[|reg| - 1]).Some?)
  {
    var init := reg[..|reg| - 1];
    if Linked(cfg, init, k) {
      var i :| 0 <= i < |init| && init[i].prefix == k && IndexLink(cfg, init[i]).Some?;
      assert reg[i] == init[i];
    }
    if Linked(cfg, reg, k) {
      var i :| 0 <= i < |reg| && reg[i].prefix == k && IndexLink(cfg, reg[i]).Some?;
      if i < |init| {
        assert init[i] == reg[i];
      }
    }
  }

  /** The index never lists a prefix twice. */
  lemma {:induction false} ApiRootDictUnique(cfg: Config, reg: Registry)
    ensures UniqueKeys(ApiRootDict(cfg, reg))
    decreases |reg|
  {
    if reg != [] {
      var init := reg[..|reg| - 1];
      ApiRootDictUnique(cfg, init);
      var e := reg[|reg| - 1];
      if IndexLink(cfg, e).Some? {
        PutKeepsKeysUnique(ApiRootDict(cfg, init), e.prefix, IndexLink(cfg, e).value);
      }
    }
  }

  /** The index has one key per prefix that some router or viewset entry
      registered non-empty, and no other key; in particular the empty prefix
      never appears. */
  lemma {:induction false} ApiRootDictKeys(cfg: Config, reg: Registry, k: string)
    ensures k in Keys(ApiRootDict(cfg, reg)) <==> Linked(cfg, reg, k)
    ensures "" !in Keys(ApiRootDict(cfg, reg))
    decreases |reg|
  {
    if reg != [] {
      var init := reg[..|reg| - 1];
      ApiRootDictKeys(cfg, init, k);
      ApiRootDictKeys(cfg, init, "");
      LinkedSplit(cfg, reg, k);
    }
  }

  /** The value under a key comes from the LAST router or viewset entry
      registered with that prefix. */
  lemma {:induction false} ApiRootDictLookup(cfg: Config, reg: Registry, i: nat)
    requires i < |reg| && IndexLink(cfg, reg[i]).Some?
    requires forall j :: i < j < |reg| ==> reg[j].prefix != reg[i].prefix || IndexLink(cfg, reg[j]).None?
    ensures Lookup(ApiRootDict(cfg, reg), reg[i].prefix) == IndexLink(cfg, reg[i])
    decreases |reg|
  {
    var init := reg[..|reg| - 1];
    if i < |reg| - 1 {
      forall j | i < j < |init|
        ensures init[j].prefix != init[i].prefix || IndexLink(cfg, init[j]).None?
      {
        assert init[j] == reg[j];
      }
      ApiRootDictLookup(cfg, init, i);
      assert init[i] == reg[i];
    }
  }

  /** Registering more entries never reorders or drops the keys already in
      the index: the old keys are a prefix of the new ones. */
  lemma ApiRootDictExtends(cfg: Config, reg: Registry, e: Entry)
    ensures var ks := Keys(ApiRootDict(cfg, reg));
      var ks' := Keys(ApiRootDict(cfg, reg + [e]));
      |ks| <= |ks'| && ks'[..|ks|] == ks
  {
    assert (reg + [e])[..|reg + [e]| - 1] == reg;
  }
}
