/** What the two namespace passes do to the desired objects once every scope is known. */
module Normalization {
  import opened Objects
  import opened Scope
  import opened InventoryMachine

  /** The known scope of a type: true for cluster-scoped. A fixed table knows every type. */
  function ScopeFor(sc: Scoping, statics: map<string, bool>, lists: Lists, gvk: GVK): Option<bool> {
    var gk := gvk.Gk().ToString();
    if sc.table.Some? then Some(gvk.ApiVersion() + "/" + gvk.kind in sc.table.value)
    else if gk in statics then Some(!statics[gk])
    else if gk in Table(lists) then Some(!Table(lists)[gk])
    else None
  }

  /** Scopes come from a fixed table, or from a discovery that always answers with the same lists. */
  ghost predicate Ready(sc: Scoping, s: Scopes, lists: Lists) {
    sc.table.Some? || (Stable(sc.discovery, lists) && Coherent(s, lists) && forall n: nat :: sc.discovery(n).Some?)
  }

  /** A lookup answers with the known scope, or not with a scope at all. */
  lemma LookupAnswers(sc: Scoping, s: Scopes, lists: Lists, gvk: GVK)
    requires Ready(sc, s, lists)
    ensures var (s', answer) := Lookup(sc.table, sc.discovery, s, gvk);
      var known := ScopeFor(sc, s.statics, lists, gvk);
      && (if known.Some? then answer == Scoped(known.value) else answer == UnknownResource)
      && Ready(sc, s', lists) && s'.statics == s.statics
  {
    if sc.table.None? {
      LookupAgrees(sc.discovery, s, lists, gvk);
    }
  }

  /** The namespace an object ends up with. One of unknown scope keeps its own. */
  function NormalNamespace(cluster: Option<bool>, namespace: string, ns: string): string {
    if cluster == Some(true) then "" else if cluster == Some(false) && ns == "" then namespace else ns
  }

  function Cleared(sc: Scoping, statics: map<string, bool>, lists: Lists, o: Obj): Obj {
    if ScopeFor(sc, statics, lists, o.gvk) == Some(true) then o.(ns := "") else o
  }

  function Filled(sc: Scoping, statics: map<string, bool>, lists: Lists, namespace: string, o: Obj): Obj {
    if ScopeFor(sc, statics, lists, o.gvk) == Some(false) && o.ns == "" then o.(ns := namespace) else o
  }

  function Normal(sc: Scoping, statics: map<string, bool>, lists: Lists, namespace: string, o: Obj): Obj {
    o.(ns := NormalNamespace(ScopeFor(sc, statics, lists, o.gvk), namespace, o.ns))
  }

  lemma {:induction false} SanitizePass(sc: Scoping, s: Scopes, lists: Lists, heap: Heap, objects: seq<RuntimeObject>)
    requires Held(objects, heap) && Ready(sc, s, lists)
    ensures var (s', h') := Pass(Sanitizer(sc), s, heap, objects);
      && Ready(sc, s', lists) && s'.statics == s.statics
      && forall o :: o in heap ==> h'[o] == if o in objects then Cleared(sc, s.statics, lists, heap[o]) else heap[o]
  {
    if objects != [] {
      var init, last := objects[..|objects| - 1], objects[|objects| - 1];
      assert objects == init + [last];
      SanitizePass(sc, s, lists, heap, init);
      var (s1, h1) := Pass(Sanitizer(sc), s, heap, init);
      LookupAnswers(sc, s1, lists, h1[last].gvk);
    }
  }

  lemma {:induction false} NamespacePass(sc: Scoping, namespace: string, s: Scopes, lists: Lists, heap: Heap,
                                         objects: seq<RuntimeObject>)
    requires Held(objects, heap) && Ready(sc, s, lists)
    ensures var (s', h') := Pass(NamespaceEnsurer(sc, namespace), s, heap, objects);
      && Ready(sc, s', lists) && s'.statics == s.statics
      && forall o :: o in heap ==>
        h'[o] == if o in objects then Filled(sc, s.statics, lists, namespace, heap[o]) else heap[o]
  {
    if objects != [] {
      var init, last := objects[..|objects| - 1], objects[|objects| - 1];
      assert objects == init + [last];
      NamespacePass(sc, namespace, s, lists, heap, init);
      var (s1, h1) := Pass(NamespaceEnsurer(sc, namespace), s, heap, init);
      LookupAnswers(sc, s1, lists, h1[last].gvk);
    }
  }

  /** Both passes together give every listed object, however often it is listed, its normal namespace and
      change nothing else. */
  lemma NormalizeMeans(sc: Scoping, namespace: string, s: Scopes, lists: Lists, heap: Heap, objects: seq<RuntimeObject>)
    requires Held(objects, heap) && Ready(sc, s, lists)
    ensures var (s', h') := Normalize(sc, namespace, s, heap, objects);
      && Ready(sc, s', lists) && s'.statics == s.statics
      && forall o :: o in heap ==>
        h'[o] == if o in objects then Normal(sc, s.statics, lists, namespace, heap[o]) else heap[o]
  {
    SanitizePass(sc, s, lists, heap, objects);
    var (s1, h1) := Pass(Sanitizer(sc), s, heap, objects);
    NamespacePass(sc, namespace, s1, lists, h1, objects);
  }

  /** A cluster-scoped object ends up without a namespace, a namespaced one keeps an explicit namespace and otherwise
      gets the target's, one of unknown scope is left as it is, and normalising again changes nothing. */
  lemma NormalizedObjects(sc: Scoping, namespace: string, s: Scopes, lists: Lists, heap: Heap,
                          objects: seq<RuntimeObject>)
    requires Held(objects, heap) && Ready(sc, s, lists)
    ensures var (s', h') := Normalize(sc, namespace, s, heap, objects);
      && (forall o :: o in objects ==>
            && h'[o] == heap[o].(ns := h'[o].ns)
            && match ScopeFor(sc, s.statics, lists, heap[o].gvk)
               case Some(true) => h'[o].ns == ""
               case Some(false) => h'[o].ns == (if heap[o].ns != "" then heap[o].ns else namespace)
               case None => h'[o].ns == heap[o].ns)
      && (forall o :: o in heap && o !in objects ==> h'[o] == heap[o])
      && Normalize(sc, namespace, s', h', objects).1 == h'
  {
    NormalizeMeans(sc, namespace, s, lists, heap, objects);
    NormalizingAgain(sc, namespace, s, lists, heap, objects);
  }

  lemma NormalizingAgain(sc: Scoping, namespace: string, s: Scopes, lists: Lists, heap: Heap,
                         objects: seq<RuntimeObject>)
    requires Held(objects, heap) && Ready(sc, s, lists)
    ensures var (s', h') := Normalize(sc, namespace, s, heap, objects);
      Normalize(sc, namespace, s', h', objects).1 == h'
  {
    NormalizeMeans(sc, namespace, s, lists, heap, objects);
    var (s', h') := Normalize(sc, namespace, s, heap, objects);
    NormalizeMeans(sc, namespace, s', lists, h', objects);
    var h2 := Normalize(sc, namespace, s', h', objects).1;
    forall o | o in heap ensures h2[o] == h'[o] {
      NormalAgain(sc, s.statics, lists, namespace, heap[o]);
    }
  }

  lemma NormalAgain(sc: Scoping, statics: map<string, bool>, lists: Lists, namespace: string, o: Obj)
    ensures var n := Normal(sc, statics, lists, namespace, o); Normal(sc, statics, lists, namespace, n) == n
  {
  }
}
