/** The textual identifiers that decide ownership and exclusion from purging. */
module Identity {
  import opened Strings
  import opened Objects

  /** generateComponentID, `None` when the owner or the component has no name. */
  function ComponentID(owner: Owner, component: string): Option<string> {
    if owner.name == "" || component == "" then None
    else
      var ns := if owner.ns != "" then [owner.ns] else [];
      Some(Join([owner.name] + ns + [component, owner.gvk.ApiVersion(), Lower(owner.gvk.kind)], '-'))
  }

  /** generateResourceIDForPurge: the version is left out. */
  function ResourceID(gk: GroupKind, ns: string, name: string): Option<string> {
    if name == "" then None
    else Some(Join([name] + (if ns != "" then [ns] else []) + [Lower(gk.ToString())], '-'))
  }

  function KeyID(key: Key): Option<string> {
    ResourceID(key.gk, key.ns, key.name)
  }

  lemma JoinTwo(a: string, b: string)
    ensures Join([a, b], '-') == a + (['-'] + b)
  {
    assert [a, b][1..] == [b];
    assert a + ['-'] + b == a + (['-'] + b);
  }

  lemma JoinThree(a: string, b: string, c: string)
    ensures Join([a, b, c], '-') == (a + (['-'] + b)) + (['-'] + c)
  {
    assert [a, b, c][1..] == [b, c];
    JoinTwo(b, c);
    assert a + ['-'] + (b + (['-'] + c)) == (a + (['-'] + b)) + (['-'] + c);
  }

  lemma LowerDashFree(s: string)
    requires '-' !in s
    ensures '-' !in Lower(s)
  {
  }

  /** Keys whose identifiers can be taken apart again. */
  predicate DashFree(key: Key) {
    '-' !in key.ns && '-' !in key.gk.ToString()
  }

  predicate SameLowerKind(a: Key, b: Key) {
    Lower(a.gk.ToString()) == Lower(b.gk.ToString())
  }

  /** Scope is a property of the kind: of two objects of one kind, both or neither have a namespace. */
  predicate SameScope(a: Key, b: Key) {
    SameLowerKind(a, b) ==> (a.ns == "" <==> b.ns == "")
  }

  /** Equal resource IDs mean equal name, namespace and lower-cased kind, and the other way round. */
  lemma ResourceIDsSeparate(a: Key, b: Key)
    requires DashFree(a) && DashFree(b) && SameScope(a, b) && a.name != "" && b.name != ""
    ensures KeyID(a) == KeyID(b) <==> a.name == b.name && a.ns == b.ns && SameLowerKind(a, b)
  {
    LowerDashFree(a.gk.ToString());
    LowerDashFree(b.gk.ToString());
    var x := IDHead(a);
    var y := IDHead(b);
    if KeyID(a) == KeyID(b) {
      LastPiece(x, Lower(a.gk.ToString()), y, Lower(b.gk.ToString()), '-');
      if a.ns != "" {
        LastPiece(a.name, a.ns, b.name, b.ns, '-');
      }
    }
  }

  /** The part of a resource ID before the kind. */
  lemma IDHead(k: Key) returns (head: string)
    requires k.name != ""
    ensures KeyID(k) == Some(head + (['-'] + Lower(k.gk.ToString())))
    ensures head == if k.ns == "" then k.name else k.name + (['-'] + k.ns)
  {
    if k.ns == "" {
      head := k.name;
      assert [k.name] + [] + [Lower(k.gk.ToString())] == [k.name, Lower(k.gk.ToString())];
      JoinTwo(k.name, Lower(k.gk.ToString()));
    } else {
      head := k.name + (['-'] + k.ns);
      assert [k.name] + [k.ns] + [Lower(k.gk.ToString())] == [k.name, k.ns, Lower(k.gk.ToString())];
      JoinThree(k.name, k.ns, Lower(k.gk.ToString()));
    }
  }

  /** Without dash-free namespaces two objects of one kind can share an ID. */
  lemma ResourceIDsCollide()
    ensures var gk := GroupKind("", "Secret");
      KeyID(Key(gk, "c", "a-b")) == KeyID(Key(gk, "b-c", "a")) && KeyID(Key(gk, "c", "a-b")).Some?
  {
    var gk := GroupKind("", "Secret");
    var x := IDHead(Key(gk, "c", "a-b"));
    var y := IDHead(Key(gk, "b-c", "a"));
    assert x == y;
  }

  /** Owners of one kind, under one component and with dash-free namespaces, have different component IDs. */
  lemma ComponentIDsSeparate(a: Owner, b: Owner, component: string)
    requires a.gvk == b.gvk && (a.ns == "" <==> b.ns == "")
    requires '-' !in a.ns && '-' !in b.ns
    requires ComponentID(a, component).Some? && ComponentID(a, component) == ComponentID(b, component)
    ensures a.name == b.name && a.ns == b.ns
  {
    var tail := Join([component, a.gvk.ApiVersion(), Lower(a.gvk.kind)], '-');
    var x := OwnerHead(a, component);
    var y := OwnerHead(b, component);
    var id := ComponentID(a, component).value;
    assert |x| == |id| - |tail| - 1 == |y|;
    assert x == id[..|x|] && y == id[..|y|];
    if a.ns != "" {
      LastPiece(a.name, a.ns, b.name, b.ns, '-');
    }
  }

  /** One owner's components have different component IDs, dashes or not. */
  lemma ComponentsSeparate(o: Owner, a: string, b: string)
    requires ComponentID(o, a).Some? && ComponentID(o, a) == ComponentID(o, b)
    ensures a == b
  {
    var last := o.gvk.ApiVersion() + (['-'] + Lower(o.gvk.kind));
    var x := OwnerHead(o, a);
    var y := OwnerHead(o, b);
    JoinTwo(o.gvk.ApiVersion(), Lower(o.gvk.kind));
    JoinCons(a, [o.gvk.ApiVersion(), Lower(o.gvk.kind)]);
    JoinCons(b, [o.gvk.ApiVersion(), Lower(o.gvk.kind)]);
    assert [a] + [o.gvk.ApiVersion(), Lower(o.gvk.kind)] == [a, o.gvk.ApiVersion(), Lower(o.gvk.kind)];
    assert [b] + [o.gvk.ApiVersion(), Lower(o.gvk.kind)] == [b, o.gvk.ApiVersion(), Lower(o.gvk.kind)];
    SameEnds(x, a, b, last);
  }

  /** Texts that agree before and after a middle part agree in that part. */
  lemma SameEnds(head: string, a: string, b: string, tail: string)
    requires head + (['-'] + (a + (['-'] + tail))) == head + (['-'] + (b + (['-'] + tail)))
    ensures a == b
  {
    var s, n := head + (['-'] + (a + (['-'] + tail))), |head| + 1;
    assert |a| == |b|;
    assert a == s[n..n + |a|] && b == s[n..n + |b|];
  }

  lemma OwnerHead(o: Owner, component: string) returns (head: string)
    requires ComponentID(o, component).Some?
    ensures ComponentID(o, component)
      == Some(head + (['-'] + Join([component, o.gvk.ApiVersion(), Lower(o.gvk.kind)], '-')))
    ensures head == if o.ns == "" then o.name else o.name + (['-'] + o.ns)
  {
    var rest := [component, o.gvk.ApiVersion(), Lower(o.gvk.kind)];
    var tail := Join(rest, '-');
    if o.ns == "" {
      head := o.name;
      JoinCons(o.name, rest);
      assert [o.name] + [] + rest == [o.name] + rest;
    } else {
      head := o.name + (['-'] + o.ns);
      JoinCons(o.ns, rest);
      JoinCons(o.name, [o.ns] + rest);
      assert [o.name] + [o.ns] + rest == [o.name] + ([o.ns] + rest);
      assert o.name + (['-'] + (o.ns + (['-'] + tail))) == head + (['-'] + tail);
    }
  }

  lemma JoinCons(head: string, rest: seq<string>)
    requires rest != []
    ensures Join([head] + rest, '-') == head + (['-'] + Join(rest, '-'))
  {
    assert ([head] + rest)[1..] == rest;
    assert head + ['-'] + Join(rest, '-') == head + (['-'] + Join(rest, '-'));
  }

  lemma SameHeadSameID(a: Owner, b: Owner, component: string)
    requires a.gvk == b.gvk && a.name != "" && b.name != "" && a.ns != "" && b.ns != "" && component != ""
    requires a.name + (['-'] + a.ns) == b.name + (['-'] + b.ns)
    ensures ComponentID(a, component) == ComponentID(b, component)
  {
    var x := OwnerHead(a, component);
    var y := OwnerHead(b, component);
  }

  /** Without dash-free namespaces two owners of one kind can share a component ID. */
  lemma ComponentIDsCollide()
    ensures var gvk := GVK("", "v1", "ConfigMap");
      var a, b := Owner(gvk, "c", "a-b", "u1", false), Owner(gvk, "b-c", "a", "u2", false);
      ComponentID(a, "x") == ComponentID(b, "x") && ComponentID(a, "x").Some?
  {
    var gvk := GVK("", "v1", "ConfigMap");
    var a, b := Owner(gvk, "c", "a-b", "u1", false), Owner(gvk, "b-c", "a", "u2", false);
    SameHeadSameID(a, b, "x");
  }
}
