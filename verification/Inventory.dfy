/** The stateful inventory (Inventory): it reads the recorded objects, normalises the desired ones in place and
    hands the purge types to the reconcile run. */
module Inventory {
  import opened Objects
  import opened Cluster
  import opened DesiredStates
  import opened Scope
  import opened InventoryText
  import opened NativeMachine
  import opened InventoryMachine
  import Machine = InventoryMachine

  class ObjectInventory {
    const client: Client
    const cache: ScopeCache
    const table: Option<set<string>>
    var current: seq<Ref>
    var desired: seq<RuntimeObject>
    var toDelete: seq<Ref>

    constructor (client: Client, cache: ScopeCache, table: Option<set<string>>)
      ensures this.client == client && this.cache == cache && this.table == table
      ensures current == [] && desired == [] && toDelete == []
    {
      this.client, this.cache, this.table := client, cache, table;
      current, desired, toDelete := [], [], [];
    }

    function Scoping(): Scoping {
      Machine.Scoping(table, cache.discovery)
    }

    ghost function Now(objects: set<RuntimeObject>): World
      reads this, client, cache, objects
    {
      World(client.server, cache.Value(), Snapshot(objects), Book(current, desired, toDelete))
    }

    method SanitizeObject(o: RuntimeObject)
      modifies cache`dynamics, cache`fetches, o
      ensures (cache.Value(), o.val) == Sanitize(Scoping(), old(cache.Value()), old(o.val))
    {
      var answer := cache.IsClusterScoped(table, o.val.gvk);
      if answer == Scoped(true) && o.val.ns != "" {
        o.val := o.val.(ns := "");
      }
    }

    method EnsureNamespaceOf(namespace: string, o: RuntimeObject)
      modifies cache`dynamics, cache`fetches, o
      ensures (cache.Value(), o.val) == Machine.EnsureNamespace(Scoping(), namespace, old(cache.Value()), old(o.val))
    {
      var answer := cache.IsClusterScoped(table, o.val.gvk);
      if answer == Scoped(false) && o.val.ns == "" {
        o.val := o.val.(ns := namespace);
      }
    }

    method SanitizeNext(targets: seq<RuntimeObject>, i: nat, ghost scopes: Scopes, ghost start: Heap,
                        ghost objects: set<RuntimeObject>)
      requires i < |targets| && start.Keys == objects && Held(targets, start)
      requires (cache.Value(), Snapshot(objects)) == Pass(Sanitizer(Scoping()), scopes, start, targets[..i])
      modifies cache`dynamics, cache`fetches, targets[i]
      ensures (cache.Value(), Snapshot(objects)) == Pass(Sanitizer(Scoping()), scopes, start, targets[..i + 1])
    {
      ghost var heap := Snapshot(objects);
      SanitizeObject(targets[i]);
      assert Snapshot(objects) == heap[targets[i] := targets[i].val];
      PassNext(Sanitizer(Scoping()), scopes, start, targets, i);
    }

    method EnsureNext(namespace: string, targets: seq<RuntimeObject>, i: nat, ghost scopes: Scopes, ghost start: Heap,
                      ghost objects: set<RuntimeObject>)
      requires i < |targets| && start.Keys == objects && Held(targets, start)
      requires (cache.Value(), Snapshot(objects))
        == Pass(NamespaceEnsurer(Scoping(), namespace), scopes, start, targets[..i])
      modifies cache`dynamics, cache`fetches, targets[i]
      ensures (cache.Value(), Snapshot(objects))
        == Pass(NamespaceEnsurer(Scoping(), namespace), scopes, start, targets[..i + 1])
    {
      ghost var heap := Snapshot(objects);
      EnsureNamespaceOf(namespace, targets[i]);
      assert Snapshot(objects) == heap[targets[i] := targets[i].val];
      PassNext(NamespaceEnsurer(Scoping(), namespace), scopes, start, targets, i);
    }

    method SanitizeDesiredObjects(targets: seq<RuntimeObject>, ghost objects: set<RuntimeObject>)
      requires forall i :: 0 <= i < |targets| ==> targets[i] in objects
      modifies cache`dynamics, cache`fetches, targets
      ensures (cache.Value(), Snapshot(objects))
        == Pass(Sanitizer(Scoping()), old(cache.Value()), old(Snapshot(objects)), targets)
    {
      ghost var step, scopes, start := Sanitizer(Scoping()), cache.Value(), Snapshot(objects);
      for i := 0 to |targets|
        invariant (cache.Value(), Snapshot(objects)) == Pass(step, scopes, start, targets[..i])
      {
        SanitizeNext(targets, i, scopes, start, objects);
      }
      assert targets[..|targets|] == targets;
    }

    method EnsureNamespaces(namespace: string, targets: seq<RuntimeObject>, ghost objects: set<RuntimeObject>)
      requires forall i :: 0 <= i < |targets| ==> targets[i] in objects
      modifies cache`dynamics, cache`fetches, targets
      ensures (cache.Value(), Snapshot(objects))
        == Pass(NamespaceEnsurer(Scoping(), namespace), old(cache.Value()), old(Snapshot(objects)), targets)
    {
      ghost var step, scopes, start := NamespaceEnsurer(Scoping(), namespace), cache.Value(), Snapshot(objects);
      for i := 0 to |targets|
        invariant (cache.Value(), Snapshot(objects)) == Pass(step, scopes, start, targets[..i])
      {
        EnsureNext(namespace, targets, i, scopes, start, objects);
      }
      assert targets[..|targets|] == targets;
    }

    method NormalizeDesired(namespace: string, targets: seq<RuntimeObject>, ghost objects: set<RuntimeObject>)
      requires forall i :: 0 <= i < |targets| ==> targets[i] in objects
      modifies cache`dynamics, cache`fetches, targets
      ensures (cache.Value(), Snapshot(objects))
        == Normalize(Scoping(), namespace, old(cache.Value()), old(Snapshot(objects)), targets)
    {
      SanitizeDesiredObjects(targets, objects);
      EnsureNamespaces(namespace, targets, objects);
    }

    method Record(ns: string, name: string, targets: seq<RuntimeObject>, ghost objects: set<RuntimeObject>)
      returns (inventory: Obj)
      requires forall i :: 0 <= i < |targets| ==> targets[i] in objects
      ensures inventory == InventoryObject(ns, name, RefsOf(targets, Snapshot(objects)))
    {
      var refs := seq(|targets|, i requires 0 <= i < |targets| reads targets => RefOf(targets[i].val));
      assert refs == RefsOf(targets, Snapshot(objects));
      var text := CreateReferences(refs);
      return Obj(CONFIG_MAP, ns, name, Content(map[], map[], "", ConfigMapBody(map[REFERENCES_KEY := text])), 0);
    }

    method Collect(builders: seq<Builder>) returns (all: Option<Yield>)
      ensures all == Gather(builders)
      ensures all.Some? ==> forall i :: 0 <= i < |all.value.objects| ==> all.value.objects[i] in ObjectsOf(builders)
    {
      var found: seq<RuntimeObject> := [];
      var nilled := false;
      for i := 0 to |builders|
        invariant Gather(builders[..i]) == Some(Yield(found, nilled))
      {
        assert builders[..i + 1][..i] == builders[..i];
        match builders[i] {
          case Fails =>
            GatherStops(builders, i + 1);
            return None;
          case Nothing(ds) =>
            nilled := nilled || !IsAbsent(ds);
          case Builds(o, ds) =>
            if !IsAbsent(ds) && !nilled {
              found := found + [o];
            }
        }
      }
      assert builders[..|builders|] == builders;
      return Some(Yield(found, nilled));
    }

    method ReadCurrentObjects(key: Key, ghost objects: set<RuntimeObject>) returns (ending: Ending)
      modifies this`current, client`server
      ensures (Now(objects), ending) == ReadCurrent(client.env, old(Now(objects)), key)
    {
      var got := client.Get(CONFIG_MAP, key);
      if got.Err? && got.error != NoMatch && got.error != NotFound {
        return Failed;
      }
      var read := ReadReferences(if got.Ok? then ReferenceText(got.value.content) else "");
      if read.None? {
        return Panicked;
      }
      current := read.value;
      return Completed;
    }

    method RecordDesiredObjects(ns: string, name: string, builders: seq<Builder>, ghost objects: set<RuntimeObject>)
      returns (inventory: Draft)
      requires ObjectsOf(builders) <= objects
      modifies this`desired, cache`dynamics, cache`fetches, ObjectsOf(builders)
      ensures (Now(objects), inventory) == RecordDesired(Scoping(), old(Now(objects)), ns, name, builders)
      ensures inventory.Draft? ==> forall i :: 0 <= i < |desired| ==> desired[i] in objects
    {
      var all := Collect(builders);
      if all.None? {
        return NoDraft;
      }
      if all.value.nilled {
        SanitizeDesiredObjects(all.value.objects, objects);
        return Panic;
      }
      inventory := RecordTargets(ns, name, all.value.objects, objects);
    }

    method RecordTargets(ns: string, name: string, targets: seq<RuntimeObject>, ghost objects: set<RuntimeObject>)
      returns (inventory: Draft)
      requires forall i :: 0 <= i < |targets| ==> targets[i] in objects
      modifies this`desired, cache`dynamics, cache`fetches, targets
      ensures desired == targets && cache.statics == old(cache.statics)
      ensures (cache.Value(), Snapshot(objects))
        == Normalize(Scoping(), ns, old(cache.Value()), old(Snapshot(objects)), targets)
      ensures inventory == Draft(InventoryObject(ns, name, RefsOf(targets, Snapshot(objects))))
    {
      var cm := NormalizeAndRecord(ns, name, targets, objects);
      SetDesired(targets, objects);
      return Draft(cm);
    }

    method SetDesired(targets: seq<RuntimeObject>, ghost objects: set<RuntimeObject>)
      modifies this`desired
      ensures desired == targets && Snapshot(objects) == old(Snapshot(objects)) && cache.Value() == old(cache.Value())
    {
      desired := targets;
    }

    method NormalizeAndRecord(ns: string, name: string, targets: seq<RuntimeObject>, ghost objects: set<RuntimeObject>)
      returns (cm: Obj)
      requires forall i :: 0 <= i < |targets| ==> targets[i] in objects
      modifies cache`dynamics, cache`fetches, targets
      ensures (cache.Value(), Snapshot(objects))
        == Normalize(Scoping(), ns, old(cache.Value()), old(Snapshot(objects)), targets)
      ensures cm == InventoryObject(ns, name, RefsOf(targets, Snapshot(objects)))
    {
      NormalizeDesired(ns, targets, objects);
      cm := Record(ns, name, targets, objects);
    }

    method PrepareDesiredObjects(ns: string, component: string, parent: Owner, builders: seq<Builder>,
                                 ghost objects: set<RuntimeObject>)
      returns (inventory: Draft)
      requires ObjectsOf(builders) <= objects
      modifies this`current, this`desired, client`server, cache`dynamics, cache`fetches, ObjectsOf(builders)
      ensures (Now(objects), inventory)
        == PrepareDesired(client.env, Scoping(), old(Now(objects)), ns, component, parent, builders)
      ensures inventory.Draft? ==> forall i :: 0 <= i < |desired| ==> desired[i] in objects
    {
      var ending := ReadCurrentObjects(InventoryKey(parent, ns, component), objects);
      match ending {
        case Completed => inventory := RecordDesiredObjects(ns, InventoryName(parent, ns, component), builders,
                                                            objects);
        case Failed => inventory := NoDraft;
        case Panicked => inventory := Panic;
      }
    }

    method JudgeReference(r: Ref, wanted: seq<Ref>) returns (verdict: Verdict)
      modifies client`server, cache`dynamics, cache`fetches
      ensures (client.server, cache.Value(), verdict) ==
        Judge(client.env, Scoping(), old(client.server), old(cache.Value()), wanted, r)
    {
      var answer := cache.IsClusterScoped(table, r.gvk);
      if !answer.Scoped? || (!answer.cluster && r.ns == "") {
        return Spare;
      }
      var got := client.Get(r.gvk, r.Id());
      if got.Err? && got.error != NoMatch && got.error != NotFound {
        return ReadFailed;
      }
      if (got.Ok? && got.value.deleting) || Untouchable(r.gvk.kind) || r in wanted {
        return Spare;
      }
      return Mark;
    }

    method FindDeletable(wanted: seq<Ref>) returns (found: Option<seq<Ref>>)
      modifies client`server, cache`dynamics, cache`fetches
      ensures (client.server, cache.Value(), found) ==
        Deletable(client.env, Scoping(), old(client.server), old(cache.Value()), wanted, current)
    {
      ghost var s, scopes := client.server, cache.Value();
      var refs := current;
      var marked: seq<Ref> := [];
      for i := 0 to |refs|
        invariant (client.server, cache.Value(), Some(marked))
          == Deletable(client.env, Scoping(), s, scopes, wanted, refs[..i])
      {
        DeletableNext(client.env, Scoping(), s, scopes, wanted, refs, i);
        var verdict := JudgeReference(refs[i], wanted);
        if verdict == ReadFailed {
          DeletableStops(client.env, Scoping(), s, scopes, wanted, refs, i + 1);
          return None;
        }
        if verdict == Mark {
          marked := marked + [refs[i]];
        }
      }
      assert refs[..|refs|] == refs;
      return Some(marked);
    }

    method PrepareDeletableObjects(ghost objects: set<RuntimeObject>) returns (ok: bool)
      requires forall i :: 0 <= i < |desired| ==> desired[i] in objects
      modifies this`toDelete, client`server, cache`dynamics, cache`fetches
      ensures (Now(objects), ok) == PrepareDeletable(client.env, Scoping(), old(Now(objects)))
    {
      var wanted := seq(|desired|, i requires 0 <= i < |desired| reads this, desired => RefOf(desired[i].val));
      assert wanted == RefsOf(desired, Snapshot(objects));
      var found := FindDeletable(wanted);
      if found.None? {
        return false;
      }
      toDelete := found.value;
      return true;
    }

    method TypesToPurge() returns (types: seq<GVK>)
      ensures IsTypes(toDelete, types)
    {
      var dict: set<GVK> := {};
      for i := 0 to |toDelete|
        invariant forall g :: g in dict <==> !Untouchable(g.kind) && exists r :: r in toDelete[..i] && r.gvk == g
      {
        assert toDelete[..i + 1] == toDelete[..i] + [toDelete[i]];
        if !Untouchable(toDelete[i].gvk.kind) {
          dict := dict + {toDelete[i].gvk};
        }
      }
      assert toDelete[..|toDelete|] == toDelete;
      types := [];
      ghost var all := dict;
      while dict != {}
        invariant dict <= all
        invariant forall g :: g in types <==> g in all && g !in dict
        invariant forall i, j :: 0 <= i < j < |types| ==> types[i] != types[j]
        decreases dict
      {
        var g :| g in dict;
        types, dict := types + [g], dict - {g};
      }
    }

    /** The inventory becomes one more object to apply, unless it should not be created. */
    method AddInventory(leaving: bool, inventory: Obj, builders: seq<Builder>, box: RuntimeObject,
                        ghost objects: set<RuntimeObject>)
      returns (all: seq<Builder>, ghost objects': set<RuntimeObject>)
      requires ObjectsOf(builders) == objects && box !in objects
      modifies box
      ensures objects' <= objects + {box} && ObjectsOf(all) == objects'
      ensures (Now(objects'), all) == AppendInventory(old(Now(objects)), leaving, inventory, builders, box)
    {
      if leaving || ReferenceText(inventory.content) == "" {
        return builders, objects;
      }
      ghost var heap := Snapshot(objects);
      box.val := inventory;
      objects' := objects + {box};
      assert Snapshot(objects') == heap[box := inventory];
      all := builders + [Builds(box, Static(StatePresent))];
      ObjectsOfLast(builders, Builds(box, Static(StatePresent)));
    }

    method Append(ns: string, component: string, parent: Owner, builders: seq<Builder>,
                  ghost objects: set<RuntimeObject>)
      returns (all: seq<Builder>, ending: Ending, box: RuntimeObject, ghost objects': set<RuntimeObject>)
      requires ObjectsOf(builders) == objects
      modifies this`current, this`desired, this`toDelete, client`server, cache`dynamics, cache`fetches, objects
      ensures fresh(box) && objects' <= objects + {box} && ObjectsOf(all) == objects'
      ensures (Now(objects'), all, ending)
        == Machine.Append(client.env, Scoping(), old(Now(objects)), ns, component, parent, builders, box)
    {
      all, objects' := builders, objects;
      box := new RuntimeObject(InventoryObject(ns, InventoryName(parent, ns, component), []));
      var namespace := client.Get(NAMESPACE_GVK, Key(NAMESPACE_GVK.Gk(), "", ns));
      if namespace.Err? && namespace.error != NotFound {
        ending := Failed;
        return;
      }
      var leaving := (namespace.Ok? && namespace.value.deleting) || parent.deleting;
      var inventory := PrepareDesiredObjects(ns, component, parent, builders, objects);
      match inventory {
        case Panic => ending := Panicked;
        case NoDraft => ending := Completed;
        case Draft(cm) => all, ending, objects' := MarkAndAppend(leaving, cm, builders, box, objects);
      }
    }

    /** Append once the new inventory is drafted. */
    method MarkAndAppend(leaving: bool, cm: Obj, builders: seq<Builder>, box: RuntimeObject,
                         ghost objects: set<RuntimeObject>)
      returns (all: seq<Builder>, ending: Ending, ghost objects': set<RuntimeObject>)
      requires ObjectsOf(builders) == objects && box !in objects
      requires forall i :: 0 <= i < |desired| ==> desired[i] in objects
      modifies this`toDelete, client`server, cache`dynamics, cache`fetches, box
      ensures objects' <= objects + {box} && ObjectsOf(all) == objects'
      ensures (Now(objects'), all, ending)
        == Machine.MarkAndAppend(client.env, Scoping(), old(Now(objects)), leaving, cm, builders, box)
    {
      all, objects' := builders, objects;
      var ok := PrepareDeletableObjects(objects);
      ending := if ok then Completed else Failed;
      if ok {
        all, objects' := AddInventory(leaving, cm, builders, box, objects);
      }
    }
  }

  lemma ObjectsOfLast(init: seq<Builder>, last: Builder)
    requires last.Builds?
    ensures ObjectsOf(init + [last]) == ObjectsOf(init) + {last.target}
  {
    var all := init + [last];
    assert all[|init|] == last;
    forall o | o in ObjectsOf(init)
      ensures o in ObjectsOf(all)
    {
      var i :| 0 <= i < |init| && init[i].Builds? && init[i].target == o;
      assert all[i] == init[i];
    }
  }

  lemma {:induction false} GatherStops(builders: seq<Builder>, i: nat)
    requires i <= |builders| && Gather(builders[..i]).None?
    ensures Gather(builders).None?
  {
    if i == |builders| {
      assert builders[..i] == builders;
    } else {
      assert builders[..|builders| - 1][..i] == builders[..i];
      GatherStops(builders[..|builders| - 1], i);
    }
  }

  lemma DeletableNext(env: Env, sc: Scoping, s: Server, scopes: Scopes, desired: seq<Ref>, current: seq<Ref>, i: nat)
    requires i < |current| && Deletable(env, sc, s, scopes, desired, current[..i]).2.Some?
    ensures var (s1, scopes1, init) := Deletable(env, sc, s, scopes, desired, current[..i]);
      var (s2, scopes2, verdict) := Judge(env, sc, s1, scopes1, desired, current[i]);
      Deletable(env, sc, s, scopes, desired, current[..i + 1]) ==
        (s2, scopes2,
         match verdict case Spare => init case Mark => Some(init.value + [current[i]]) case ReadFailed => None)
  {
    assert current[..i + 1][..i] == current[..i];
  }

  lemma {:induction false} DeletableStops(env: Env, sc: Scoping, s: Server, scopes: Scopes, desired: seq<Ref>,
                                          current: seq<Ref>, i: nat)
    requires i <= |current| && Deletable(env, sc, s, scopes, desired, current[..i]).2.None?
    ensures Deletable(env, sc, s, scopes, desired, current) == Deletable(env, sc, s, scopes, desired, current[..i])
  {
    if i == |current| {
      assert current[..i] == current;
    } else {
      assert current[..|current| - 1][..i] == current[..i];
      DeletableStops(env, sc, s, scopes, desired, current[..|current| - 1], i);
    }
  }
}
