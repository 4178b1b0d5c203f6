/** Which kinds are cluster-scoped: a cache of discovery answers with statically added entries on top. */
module Scope {
  import opened Strings
  import opened Objects

  datatype ApiResource = ApiResource(kind: string, namespaced: bool)

  /** One entry of the API resource lists; `None` in a list is a nil entry. */
  datatype ResourceList = ResourceList(groupVersion: string, resources: seq<ApiResource>)

  type Lists = seq<Option<ResourceList>>

  /** The discovery client: the answer to each numbered fetch, `None` for an error. */
  type Discovery = nat -> Option<Lists>

  /** The two package-level maps, keyed by the printed GroupKind, and the number of fetches made. */
  datatype Scopes = Scopes(statics: map<string, bool>, dynamics: map<string, bool>, fetches: nat)

  datatype Answer = Scoped(cluster: bool) | DiscoveryFailed | UnknownResource

  /** schema.ParseGroupVersion, group only. */
  function ParseGroup(groupVersion: string): Option<string> {
    var parts := Split(groupVersion, '/');
    if |parts| == 1 then Some("") else if |parts| == 2 then Some(parts[0]) else None
  }

  function LoadResources(dynamics: map<string, bool>, group: string, resources: seq<ApiResource>): map<string, bool> {
    if resources == [] then dynamics
    else
      var r := resources[|resources| - 1];
      LoadResources(dynamics, group, resources[..|resources| - 1])[GroupKind(group, r.kind).ToString() := r.namespaced]
  }

  /** Later entries overwrite earlier ones; an unparsable group version stops the load midway. */
  function LoadLists(dynamics: map<string, bool>, lists: Lists): (map<string, bool>, bool) {
    if lists == [] then (dynamics, true)
    else
      var (d, ok) := LoadLists(dynamics, lists[..|lists| - 1]);
      var last := lists[|lists| - 1];
      if !ok || last.None? then (d, ok)
      else
        var group := ParseGroup(last.value.groupVersion);
        if group.None? then (d, false) else (LoadResources(d, group.value, last.value.resources), true)
  }

  function Discover(discovery: Discovery, s: Scopes): (Scopes, bool) {
    var lists := discovery(s.fetches);
    var asked := s.(fetches := s.fetches + 1);
    if lists.None? then (asked, false)
    else
      var (d, ok) := LoadLists(s.dynamics, lists.value);
      (asked.(dynamics := d), ok)
  }

  /** IsClusterScoped. A fixed table, if given, decides alone. */
  function Lookup(table: Option<set<string>>, discovery: Discovery, s: Scopes, gvk: GVK): (Scopes, Answer) {
    var gk := gvk.Gk().ToString();
    if table.Some? then (s, Scoped(gvk.ApiVersion() + "/" + gvk.kind in table.value))
    else if gk in s.statics then (s, Scoped(!s.statics[gk]))
    else
      var empty := s.dynamics == map[];
      var (s1, ok) := if empty then Discover(discovery, s) else (s, true);
      if !ok then (s1, DiscoveryFailed)
      else if gk in s1.dynamics then (s1, Scoped(!s1.dynamics[gk]))
      else if empty then (s1, UnknownResource)
      else
        var (s2, ok2) := Discover(discovery, s1);
        if !ok2 then (s2, DiscoveryFailed)
        else if gk in s2.dynamics then (s2, Scoped(!s2.dynamics[gk]))
        else (s2, UnknownResource)
  }

  /** The cache in memory. */
  class ScopeCache {
    var statics: map<string, bool>
    var dynamics: map<string, bool>
    var fetches: nat
    const discovery: Discovery

    constructor (discovery: Discovery)
      ensures Value() == Scopes(map[], map[], 0) && this.discovery == discovery
    {
      statics, dynamics, fetches := map[], map[], 0;
      this.discovery := discovery;
    }

    ghost function Value(): Scopes
      reads this
    {
      Scopes(statics, dynamics, fetches)
    }

    method AddStaticResourceScope(gk: GroupKind, namespaced: bool)
      modifies this`statics
      ensures statics == old(statics)[gk.ToString() := namespaced]
    {
      statics := statics[gk.ToString() := namespaced];
    }

    method Load(group: string, resources: seq<ApiResource>)
      modifies this`dynamics
      ensures dynamics == LoadResources(old(dynamics), group, resources)
    {
      for j := 0 to |resources|
        invariant dynamics == LoadResources(old(dynamics), group, resources[..j])
      {
        assert resources[..j + 1][..j] == resources[..j];
        dynamics := dynamics[GroupKind(group, resources[j].kind).ToString() := resources[j].namespaced];
      }
      assert resources[..|resources|] == resources;
    }

    method DiscoverApiResources() returns (ok: bool)
      modifies this`dynamics, this`fetches
      ensures (Value(), ok) == Discover(discovery, old(Value()))
    {
      var lists := discovery(fetches);
      fetches := fetches + 1;
      if lists.None? {
        return false;
      }
      for i := 0 to |lists.value|
        invariant fetches == old(fetches) + 1 && statics == old(statics)
        invariant LoadLists(old(dynamics), lists.value[..i]) == (dynamics, true)
      {
        assert lists.value[..i + 1][..i] == lists.value[..i];
        if lists.value[i].Some? {
          var list := lists.value[i].value;
          var group := ParseGroup(list.groupVersion);
          if group.None? {
            LoadStops(old(dynamics), lists.value, i + 1);
            return false;
          }
          Load(group.value, list.resources);
        }
      }
      assert lists.value[..|lists.value|] == lists.value;
      return true;
    }

    method IsClusterScoped(table: Option<set<string>>, gvk: GVK) returns (answer: Answer)
      modifies this`dynamics, this`fetches
      ensures (Value(), answer) == Lookup(table, discovery, old(Value()), gvk)
    {
      if table.Some? {
        return Scoped(gvk.ApiVersion() + "/" + gvk.kind in table.value);
      }
      var gk := gvk.Gk().ToString();
      if gk in statics {
        return Scoped(!statics[gk]);
      }
      var current := true;
      if dynamics == map[] {
        var ok := DiscoverApiResources();
        if !ok { return DiscoveryFailed; }
      } else {
        current := false;
      }
      if gk in dynamics {
        return Scoped(!dynamics[gk]);
      }
      if !current {
        var ok := DiscoverApiResources();
        if !ok { return DiscoveryFailed; }
      }
      if gk in dynamics {
        return Scoped(!dynamics[gk]);
      }
      return UnknownResource;
    }
  }

  lemma {:induction false} LoadStops(dynamics: map<string, bool>, lists: Lists, i: nat)
    requires i <= |lists| && !LoadLists(dynamics, lists[..i]).1
    ensures LoadLists(dynamics, lists) == LoadLists(dynamics, lists[..i])
  {
    if i == |lists| {
      assert lists[..i] == lists;
    } else {
      assert lists[..|lists| - 1][..i] == lists[..i];
      LoadStops(dynamics, lists[..|lists| - 1], i);
    }
  }

  /** What discovery says about a printed kind. */
  function Table(lists: Lists): map<string, bool> {
    LoadLists(map[], lists).0
  }

  /** Every fetch either fails or returns these lists, all of which parse. */
  ghost predicate Stable(discovery: Discovery, lists: Lists) {
    LoadLists(map[], lists).1 && forall n: nat :: discovery(n).Some? ==> discovery(n).value == lists
  }

  /** The cache holds nothing yet, or exactly what discovery says. */
  ghost predicate Coherent(s: Scopes, lists: Lists) {
    s.dynamics == map[] || s.dynamics == Table(lists)
  }

  lemma {:induction false} LoadResourcesOver(a: map<string, bool>, b: map<string, bool>, group: string,
      resources: seq<ApiResource>)
    ensures LoadResources(a + b, group, resources) == a + LoadResources(b, group, resources)
  {
    if resources != [] {
      LoadResourcesOver(a, b, group, resources[..|resources| - 1]);
    }
  }

  lemma {:induction false} LoadListsOver(a: map<string, bool>, b: map<string, bool>, lists: Lists)
    ensures LoadLists(a + b, lists) == (a + LoadLists(b, lists).0, LoadLists(b, lists).1)
  {
    if lists != [] {
      LoadListsOver(a, b, lists[..|lists| - 1]);
      var last := lists[|lists| - 1];
      if last.Some? && ParseGroup(last.value.groupVersion).Some? {
        LoadResourcesOver(a, LoadLists(b, lists[..|lists| - 1]).0, ParseGroup(last.value.groupVersion).value,
                          last.value.resources);
      }
    }
  }

  /** Loading the same lists again changes nothing. */
  lemma ReloadIsIdempotent(lists: Lists)
    ensures LoadLists(Table(lists), lists).0 == Table(lists)
    ensures LoadLists(Table(lists), lists).1 == LoadLists(map[], lists).1
  {
    LoadListsOver(Table(lists), map[], lists);
    assert Table(lists) + map[] == Table(lists);
    assert Table(lists) + Table(lists) == Table(lists);
  }

  lemma DiscoverKeepsCoherence(discovery: Discovery, s: Scopes, lists: Lists)
    requires Stable(discovery, lists) && Coherent(s, lists)
    ensures var (s', ok) := Discover(discovery, s);
      && Coherent(s', lists) && s'.statics == s.statics && s'.fetches == s.fetches + 1
      && (ok ==> s'.dynamics == Table(lists)) && (ok <==> discovery(s.fetches).Some?)
  {
    ReloadIsIdempotent(lists);
  }

  /** One lookup against a coherent cache: a static entry wins; otherwise the answer is discovery's, and
      "unknown" or a failure is only said after a fetch in this very call, of which there is at most one. */
  lemma LookupAgrees(discovery: Discovery, s: Scopes, lists: Lists, gvk: GVK)
    requires Stable(discovery, lists) && Coherent(s, lists)
    ensures var (s', answer) := Lookup(None, discovery, s, gvk); var gk := gvk.Gk().ToString();
      && Coherent(s', lists) && s'.statics == s.statics && s.fetches <= s'.fetches <= s.fetches + 1
      && (gk in s.statics ==> answer == Scoped(!s.statics[gk]) && s' == s)
      && (gk !in s.statics ==>
            match answer
            case Scoped(cluster) => gk in Table(lists) && cluster == !Table(lists)[gk]
            case UnknownResource => gk !in Table(lists) && s'.fetches == s.fetches + 1
            case DiscoveryFailed => s'.fetches == s.fetches + 1 && discovery(s.fetches).None?)
  {
    DiscoverKeepsCoherence(discovery, s, lists);
  }

  datatype ScopeOp = AddStatic(gk: GroupKind, namespaced: bool) | Ask(gvk: GVK)

  /** The cache after any interleaving of static additions and lookups. */
  function After(discovery: Discovery, s: Scopes, ops: seq<ScopeOp>): Scopes {
    if ops == [] then s
    else
      var q := After(discovery, s, ops[..|ops| - 1]);
      match ops[|ops| - 1]
      case AddStatic(gk, namespaced) => q.(statics := q.statics[gk.ToString() := namespaced])
      case Ask(gvk) => Lookup(None, discovery, q, gvk).0
  }

  /** The cache stays coherent through every interleaving, so LookupAgrees applies to each lookup made. */
  lemma {:induction false} CacheAgreesWithDiscovery(discovery: Discovery, lists: Lists, ops: seq<ScopeOp>)
    requires Stable(discovery, lists)
    ensures var s := After(discovery, Scopes(map[], map[], 0), ops);
      Coherent(s, lists) && s.fetches <= |ops|
  {
    if ops != [] {
      CacheAgreesWithDiscovery(discovery, lists, ops[..|ops| - 1]);
      var q := After(discovery, Scopes(map[], map[], 0), ops[..|ops| - 1]);
      match ops[|ops| - 1]
      case AddStatic(_, _) =>
      case Ask(gvk) => LookupAgrees(discovery, q, lists, gvk);
    }
  }

  /** One list has an entry for the printed kind. */
  ghost predicate ListSays(list: Option<ResourceList>, gk: string, namespaced: bool) {
    list.Some? && ParseGroup(list.value.groupVersion).Some? &&
    exists j :: IsEntry(ParseGroup(list.value.groupVersion).value, list.value.resources, j, gk, namespaced)
  }

  ghost predicate Says(lists: Lists, gk: string, namespaced: bool) {
    exists i :: 0 <= i < |lists| && ListSays(lists[i], gk, namespaced)
  }

  lemma SaysLast(init: Lists, last: Option<ResourceList>, gk: string, namespaced: bool)
    ensures Says(init + [last], gk, namespaced) <==> Says(init, gk, namespaced) || ListSays(last, gk, namespaced)
  {
    var all := init + [last];
    assert all[|init|] == last && forall i :: 0 <= i < |init| ==> all[i] == init[i];
    if i :| 0 <= i < |init| && ListSays(init[i], gk, namespaced) {
      assert ListSays(all[i], gk, namespaced);
    }
  }

  /** The table holds exactly the kinds listed, each with a scope some list gives it: the only one if the
      lists agree with each other. */
  lemma {:induction false} TableMeans(lists: Lists)
    requires LoadLists(map[], lists).1
    ensures forall gk :: gk in Table(lists) ==> Says(lists, gk, Table(lists)[gk])
    ensures forall gk, namespaced :: Says(lists, gk, namespaced) ==> gk in Table(lists)
  {
    if lists != [] {
      var init, last := lists[..|lists| - 1], lists[|lists| - 1];
      assert lists == init + [last];
      TableMeans(init);
      var before, now := Table(init), Table(lists);
      if last.Some? {
        ListMeans(before, last, now);
      }
      forall gk | gk in now ensures Says(lists, gk, now[gk]) {
        SaysLast(init, last, gk, now[gk]);
      }
      forall gk, b | Says(lists, gk, b) ensures gk in now {
        SaysLast(init, last, gk, b);
      }
    }
  }

  lemma ListMeans(before: map<string, bool>, list: Option<ResourceList>, now: map<string, bool>)
    requires list.Some? && ParseGroup(list.value.groupVersion).Some?
    requires now == LoadResources(before, ParseGroup(list.value.groupVersion).value, list.value.resources)
    ensures forall gk :: gk in now ==> (gk in before && now[gk] == before[gk]) || ListSays(list, gk, now[gk])
    ensures forall gk :: gk in before ==> gk in now
    ensures forall gk, b :: ListSays(list, gk, b) ==> gk in now
  {
    ResourcesMean(before, ParseGroup(list.value.groupVersion).value, list.value.resources);
  }

  lemma {:induction false} ResourcesMean(dynamics: map<string, bool>, group: string, resources: seq<ApiResource>)
    ensures var d := LoadResources(dynamics, group, resources);
      && (forall gk :: gk in d ==>
        (gk in dynamics && d[gk] == dynamics[gk]) || exists j :: IsEntry(group, resources, j, gk, d[gk]))
      && (forall gk :: gk in dynamics ==> gk in d)
      && (forall j, gk, b :: IsEntry(group, resources, j, gk, b) ==> gk in d)
  {
    if resources != [] {
      var n := |resources| - 1;
      var init := resources[..n];
      ResourcesMean(dynamics, group, init);
      var d0, d := LoadResources(dynamics, group, init), LoadResources(dynamics, group, resources);
      var last := GroupKind(group, resources[n].kind).ToString();
      assert IsEntry(group, resources, n, last, d[last]);
      forall gk | gk in d && gk != last && !(gk in dynamics && d[gk] == dynamics[gk])
        ensures exists j :: IsEntry(group, resources, j, gk, d[gk])
      {
        var j :| IsEntry(group, init, j, gk, d0[gk]);
        assert IsEntry(group, resources, j, gk, d[gk]);
      }
      forall j, gk, b | IsEntry(group, resources, j, gk, b)
        ensures gk in d
      {
        assert j < n ==> IsEntry(group, init, j, gk, b);
      }
    }
  }

  predicate IsEntry(group: string, resources: seq<ApiResource>, j: int, gk: string, namespaced: bool) {
    0 <= j < |resources| && gk == GroupKind(group, resources[j].kind).ToString()
        && namespaced == resources[j].namespaced
  }

  /** The group of a group version: what stands before its only slash, nothing if it has none; with two slashes it does
      not parse. */
  lemma ParseGroupMeans(group: string, version: string, rest: string)
    requires '/' !in group && '/' !in version
    ensures ParseGroup(version) == Some("")
    ensures ParseGroup(group + "/" + version) == Some(group)
    ensures ParseGroup(group + "/" + version + "/" + rest) == None
  {
    SplitPlain(version, '/');
    SplitHead(group, version, '/');
    assert group + "/" + version == group + (['/'] + version);
    SplitHead(version, rest, '/');
    SplitHead(group, version + (['/'] + rest), '/');
    assert group + "/" + version + "/" + rest == group + (['/'] + (version + (['/'] + rest)));
    assert |Split(rest, '/')| >= 1;
    assert |Split(group + "/" + version + "/" + rest, '/')| >= 3;
  }

  /** The group version that a type's API lists it under gives back its group. */
  lemma ApiVersionParses(gvk: GVK)
    requires '/' !in gvk.group && '/' !in gvk.version
    ensures ParseGroup(gvk.ApiVersion()) == Some(gvk.group)
  {
    ParseGroupMeans(gvk.group, gvk.version, "");
  }

  /** From the API's lists to the answer: a type that is listed under its own API version, with lists that do not
      contradict each other about its kind, is found to have the scope listed, unless a static entry says otherwise. */
  lemma ListedTypeIsFound(discovery: Discovery, s: Scopes, lists: Lists, gvk: GVK, i: nat, j: nat)
    requires Stable(discovery, lists) && Coherent(s, lists) && discovery(s.fetches).Some?
    requires i < |lists| && lists[i].Some? && lists[i].value.groupVersion == gvk.ApiVersion()
    requires '/' !in gvk.group && '/' !in gvk.version
    requires j < |lists[i].value.resources| && lists[i].value.resources[j].kind == gvk.kind
    requires forall b :: Says(lists, gvk.Gk().ToString(), b) ==> b == lists[i].value.resources[j].namespaced
    requires gvk.Gk().ToString() !in s.statics
    ensures Lookup(None, discovery, s, gvk).1 == Scoped(!lists[i].value.resources[j].namespaced)
  {
    ApiVersionParses(gvk);
    var gk := gvk.Gk().ToString();
    assert IsEntry(gvk.group, lists[i].value.resources, j, gk, lists[i].value.resources[j].namespaced);
    assert ListSays(lists[i], gk, lists[i].value.resources[j].namespaced);
    assert Says(lists, gk, lists[i].value.resources[j].namespaced);
    TableMeans(lists);
    assert Says(lists, gk, Table(lists)[gk]);
    LookupAgrees(discovery, s, lists, gvk);
  }

  /** Kinds without a dot print differently unless they are the same GroupKind. */
  lemma PrintedKindsSeparate(a: GroupKind, b: GroupKind)
    requires '.' !in a.kind && '.' !in b.kind && a.ToString() == b.ToString()
    ensures a == b
  {
    PrintedCuts(a);
    PrintedCuts(b);
  }

  lemma PrintedCuts(a: GroupKind)
    requires '.' !in a.kind
    ensures Cut(a.ToString(), '.') == if a.group == "" then [a.kind] else [a.kind, a.group]
  {
    if a.group != "" {
      assert a.kind + "." + a.group == a.kind + (['.'] + a.group);
      CutAppend(a.kind, a.group, '.');
    }
  }
}
