/** The reconciler of one component (NativeReconciler): its loop over builders and its purge. */
module NativeReconciler {
  import opened Strings
  import opened Objects
  import opened Cluster
  import opened DesiredStates
  import opened ResourceMachine
  import opened ResourceReconciler
  import opened Results
  import opened Identity
  import opened Sort
  import opened NativeMachine

  class ComponentReconciler {
    const name: string
    const resource: GenericResourceReconciler
    const controllerRef: bool
    const modifiers: seq<(Obj, Owner) -> Option<Content>>
    const mapper: Option<GVK -> Mapping>
    var present: seq<Obj>
    var absent: seq<Obj>
    var purged: seq<Obj>

    constructor (name: string, resource: GenericResourceReconciler, controllerRef: bool,
                 modifiers: seq<(Obj, Owner) -> Option<Content>>, mapper: Option<GVK -> Mapping>)
      ensures this.name == name && this.resource == resource
      ensures this.controllerRef == controllerRef && this.modifiers == modifiers && this.mapper == mapper
      ensures present == absent == purged == []
    {
      this.name, this.resource := name, resource;
      this.controllerRef, this.modifiers, this.mapper := controllerRef, modifiers, mapper;
      present, absent, purged := [], [], [];
    }

    function ConfigFor(owner: Owner): Config
      requires ComponentID(owner, name).Some?
    {
      Config(ComponentID(owner, name).value, owner, controllerRef, modifiers, resource.opts, mapper)
    }

    ghost function Now(objects: set<RuntimeObject>, visited: set<string>, combined: Combined): Progress
      reads this, resource.client, objects
    {
      Progress(resource.client.server, Snapshot(objects), visited, present, absent, purged, combined)
    }

    method GenerateComponentID(owner: Owner) returns (id: Option<string>)
      ensures id == ComponentID(owner, name)
    {
      var identifiers := [];
      if owner.name == "" { return None; }
      identifiers := identifiers + [owner.name];
      if owner.ns != "" {
        identifiers := identifiers + [owner.ns];
      }
      if name == "" { return None; }
      identifiers := identifiers + [name];
      identifiers := identifiers + [owner.gvk.ApiVersion(), Lower(owner.gvk.kind)];
      assert identifiers
        == [owner.name] + (if owner.ns != "" then [owner.ns] else [])
            + [name, owner.gvk.ApiVersion(), Lower(owner.gvk.kind)];
      return Some(Join(identifiers, '-'));
    }

    /** Prepare one built object in place. */
    method PrepareObject(o: RuntimeObject, owner: Owner) returns (error: Option<Error>)
      requires ComponentID(owner, name).Some?
      modifies o
      ensures Prepared(o.val, error) == Prepare(ConfigFor(owner), old(o.val))
    {
      var id := ComponentID(owner, name).value;
      if MANAGED_COMPONENT in o.val.content.annotations {
        if o.val.content.annotations[MANAGED_COMPONENT] != id {
          return Some(ForeignComponent);
        }
      } else {
        o.val := WithAnnotation(o.val, MANAGED_COMPONENT, id);
      }
      o.val := WithAnnotation(o.val, RELATED_TO, RelatedTo(owner));
      if controllerRef && Controllable(owner, o.val) {
        var controlled := SetController(owner, o.val);
        if controlled.None? {
          return Some(ControllerRefRefused);
        }
        o.val := controlled.value;
      }
      ghost var start := o.val;
      for i := 0 to |modifiers|
        invariant Modify(modifiers[..i], owner, start) == Prepared(o.val, None)
      {
        assert modifiers[..i + 1][..i] == modifiers[..i];
        var c := modifiers[i](o.val, owner);
        if c.None? {
          ModifyStops(modifiers, i + 1, owner, start);
          return Some(ModifierFailed);
        }
        o.val := o.val.(content := c.value);
      }
      assert modifiers[..|modifiers|] == modifiers;
      return None;
    }

    method Reconcile(owner: Owner, builders: seq<Builder>, types: seq<GVK>)
      returns (result: Option<Requeue>, errors: seq<Error>, ghost plan: seq<Obj>, ghost end: Progress)
      modifies resource.client`server, this`present, this`absent, this`purged, ObjectsOf(builders)
      ensures ComponentID(owner, name).None? ==>
        result == None && errors == [NameMissing] && resource.client.server == old(resource.client.server)
      ensures ComponentID(owner, name).Some? ==>
        && IsRun(resource.client.env, ConfigFor(owner), old(Now(ObjectsOf(builders), {}, NOTHING)), builders, types,
                 plan, end)
        && result == Some(end.combined.result) && errors == end.combined.errors
        && Now(ObjectsOf(builders), end.visited, end.combined) == end
    {
      plan := [];
      ghost var objects := ObjectsOf(builders);
      end := Now(objects, {}, NOTHING);
      var id := GenerateComponentID(owner);
      if id.None? {
        return None, [NameMissing], plan, end;
      }
      var combined := new CombinedResult();
      plan, end := Run(owner, id.value, builders, types, combined, objects);
      result, errors := Some(combined.result), combined.errors;
    }

    /** The apply loop and, if it went without an error, the purge. */
    method Run(owner: Owner, id: string, builders: seq<Builder>, types: seq<GVK>, combined: CombinedResult,
               ghost objects: set<RuntimeObject>)
      returns (ghost plan: seq<Obj>, ghost end: Progress)
      requires ComponentID(owner, name) == Some(id) && objects == ObjectsOf(builders)
      modifies resource.client`server, this`present, this`absent, this`purged, combined, objects
      ensures IsRun(resource.client.env, ConfigFor(owner), old(Now(objects, {}, combined.Value())), builders, types,
                    plan, end)
      ensures end == Now(objects, end.visited, combined.Value())
    {
      plan := [];
      ghost var start := Now(objects, {}, combined.Value());
      var visited := ApplyBuilders(owner, builders, combined, objects);
      ghost var applied := Now(objects, visited, combined.Value());
      if combined.errors == [] {
        plan := Purge(visited, id, types, combined, objects, ConfigFor(owner));
      }
      end := Now(objects, visited, combined.Value());
      RunsTo(resource.client.env, ConfigFor(owner), start, applied, builders, types, plan, end);
    }

    /** The apply loop. */
    method ApplyBuilders(owner: Owner, builders: seq<Builder>, combined: CombinedResult,
                         ghost objects: set<RuntimeObject>)
      returns (visited: set<string>)
      requires ComponentID(owner, name).Some? && objects == ObjectsOf(builders)
      modifies resource.client`server, this`present, this`absent, combined, objects
      ensures InHeap(builders, old(Snapshot(objects)))
      ensures Now(objects, visited, combined.Value()) ==
              ApplyAll(resource.client.env, ConfigFor(owner), old(Now(objects, {}, combined.Value())), builders)
    {
      ghost var cfg, start := ConfigFor(owner), Now(objects, {}, combined.Value());
      visited := {};
      for i := 0 to |builders|
        invariant Now(objects, visited, combined.Value()) == ApplyAll(resource.client.env, cfg, start, builders[..i])
      {
        assert builders[..i + 1][..i] == builders[..i];
        assert builders[i].Builds? ==> builders[i].target in objects;
        visited := VisitBuilder(owner, builders[i], visited, combined, objects);
      }
      assert builders[..|builders|] == builders;
    }

    /** One turn of the apply loop. */
    method VisitBuilder(owner: Owner, b: Builder, visited: set<string>, combined: CombinedResult,
                        ghost objects: set<RuntimeObject>)
      returns (visited': set<string>)
      requires ComponentID(owner, name).Some? && (b.Builds? ==> b.target in objects)
      modifies resource.client`server, this`present, this`absent, combined, if b.Builds? then {b.target} else {}
      ensures Now(objects, visited', combined.Value()) ==
              Step(resource.client.env, ConfigFor(owner), old(Now(objects, visited, combined.Value())), b)
    {
      visited' := visited;
      match b {
        case Fails =>
          combined.CombineErr(Some(BuilderFailed));
        case Nothing(_) =>
        case Builds(o, ds) =>
          if !ds.NoState? {
            visited' := VisitObject(owner, o, ds, visited, combined, objects);
          }
      }
    }

    method VisitObject(owner: Owner, o: RuntimeObject, ds: DesiredState, visited: set<string>,
                       combined: CombinedResult, ghost objects: set<RuntimeObject>)
      returns (visited': set<string>)
      requires ComponentID(owner, name).Some? && o in objects
      modifies resource.client`server, this`present, this`absent, combined, o
      ensures Now(objects, visited', combined.Value()) ==
              Visit(resource.client.env, ConfigFor(owner), old(Now(objects, visited, combined.Value())), o, ds)
    {
      visited' := visited;
      ghost var heap := Snapshot(objects);
      var e := PrepareObject(o, owner);
      assert Snapshot(objects) == heap[o := o.val];
      if e.Some? {
        combined.CombineErr(e);
        return;
      }
      visited' := ApplyObject(o, Effective(o.val, ds), visited, combined, objects);
    }

    method ApplyObject(o: RuntimeObject, state: DesiredState, visited: set<string>, combined: CombinedResult,
                       ghost objects: set<RuntimeObject>)
      returns (visited': set<string>)
      requires o in objects
      modifies resource.client`server, this`present, this`absent, combined, o
      ensures Now(objects, visited', combined.Value()) ==
              Apply(resource.client.env, resource.opts, old(Now(objects, visited, combined.Value())), o, state)
    {
      visited' := visited;
      ghost var heap := Snapshot(objects);
      var result, error := resource.ReconcileResource(o, state);
      assert Snapshot(objects) == heap[o := o.val];
      if error.Some? {
        combined.Combine(result, error);
        return;
      }
      visited' := RecordVisit(o, state, result, visited, combined);
    }

    /** After a success: exclude the object from the purge, report it, combine the result. */
    method RecordVisit(o: RuntimeObject, state: DesiredState, result: Option<Requeue>, visited: set<string>,
                       combined: CombinedResult)
      returns (visited': set<string>)
      modifies this`present, this`absent, combined
      ensures var id := KeyID(o.val.Id());
        if id.None? then
          visited' == visited && present == old(present) && absent == old(absent)
          && combined.Value() == WithError(old(combined.Value()), NameMissing)
        else
          && visited' == visited + {id.value}
          && present == (if IsAbsent(state) then old(present) else old(present) + [o.val])
          && absent == (if IsAbsent(state) then old(absent) + [o.val] else old(absent))
          && combined.Value() == WithSub(old(combined.Value()), Sub(result, None))
    {
      visited' := visited;
      var id := KeyID(o.val.Id());
      if id.None? {
        combined.CombineErr(Some(NameMissing));
        return;
      }
      visited' := visited + {id.value};
      if IsAbsent(state) {
        absent := absent + [o.val];
      } else {
        present := present + [o.val];
      }
      combined.Combine(result, None);
    }

    method Purge(visited: set<string>, id: string, types: seq<GVK>, combined: CombinedResult,
                 ghost objects: set<RuntimeObject>, ghost cfg: Config)
      returns (plan: seq<Obj>)
      requires cfg.id == id && cfg.mapper == mapper
      modifies resource.client`server, this`purged, combined
      ensures IsPurge(resource.client.env, cfg, old(Now(objects, visited, combined.Value())), types, plan,
                      Now(objects, visited, combined.Value()))
    {
      var found, _ := Collect(visited, id, types);
      plan := SortForRemoval(found);
      assert forall o :: o in plan <==> o in multiset(plan);
      assert forall o :: o in found <==> o in multiset(found);
      DeleteEach(plan, visited, combined, objects);
    }

    /** List every purge type and pick out what must go. Types that cannot be listed are skipped. */
    method Collect(visited: set<string>, id: string, types: seq<GVK>) returns (found: seq<Obj>, ghost listed: seq<GVK>)
      modifies resource.client`server
      ensures Listing(resource.client.env, mapper, old(resource.client.server.calls), types)
        == (resource.client.server.calls, listed)
      ensures resource.client.server == old(resource.client.server).(calls := resource.client.server.calls)
      ensures forall o :: o in found <==> Purgeable(id, old(resource.client.server), visited, listed, o)
    {
      found, listed := [], [];
      ghost var s := resource.client.server;
      for i := 0 to |types|
        invariant resource.client.server == s.(calls := resource.client.server.calls)
        invariant Listing(resource.client.env, mapper, s.calls, types[..i]) == (resource.client.server.calls, listed)
        invariant forall o :: o in found <==> Purgeable(id, s, visited, listed, o)
      {
        assert types[..i + 1][..i] == types[..i];
        if GvkExists(mapper, types[i]) {
          var ok, items := resource.client.List(types[i]);
          if ok {
            listed := listed + [types[i]];
            var chosen := Choose(items, visited, id);
            found := found + chosen;
          }
        }
      }
      assert types[..|types|] == types;
    }

    method DeleteEach(plan: seq<Obj>, visited: set<string>, combined: CombinedResult, ghost objects: set<RuntimeObject>)
      modifies resource.client`server, this`purged, combined
      ensures Now(objects, visited, combined.Value()) ==
              DeleteAll(resource.client.env, old(Now(objects, visited, combined.Value())), plan)
    {
      for i := 0 to |plan|
        invariant Now(objects, visited, combined.Value())
          == DeleteAll(resource.client.env, old(Now(objects, visited, combined.Value())), plan[..i])
      {
        assert plan[..i + 1][..i] == plan[..i] && plan[..i + 1][i] == plan[i];
        var reply := resource.client.Delete(plan[i].gvk, plan[i].Id(), false);
        if reply.Err? && reply.error != NotFound {
          combined.CombineErr(Some(Api(reply.error)));
        } else {
          purged := purged + [plan[i]];
        }
      }
      assert plan[..|plan|] == plan;
    }

    method SortForRemoval(found: seq<Obj>) returns (plan: seq<Obj>)
      ensures Sorted(ScoreOf(UninstallOrder), plan)
      ensures multiset(plan) == multiset(found)
    {
      var a := new Obj[|found|](i requires 0 <= i < |found| => found[i]);
      assert a[..] == found;
      SortObjects(a, UninstallOrder);
      plan := a[..];
    }
  }

  lemma RunsTo(env: Env, cfg: Config, p: Progress, m: Progress, builders: seq<Builder>, types: seq<GVK>,
               plan: seq<Obj>, q: Progress)
    requires InHeap(builders, p.heap) && m == ApplyAll(env, cfg, p, builders)
    requires if m.combined.errors != [] then plan == [] && q == m else IsPurge(env, cfg, m, types, plan, q)
    ensures IsRun(env, cfg, p, builders, types, plan, q)
  {
  }

  /** The listed objects to purge. */
  method Choose(items: seq<Obj>, visited: set<string>, id: string) returns (chosen: seq<Obj>)
    requires forall o :: o in items ==> o.name != ""
    ensures forall o :: o in chosen <==>
      && o in items && KeyID(o.Id()).value !in visited
      && MANAGED_COMPONENT in o.content.annotations && o.content.annotations[MANAGED_COMPONENT] == id
  {
    chosen := [];
    for i := 0 to |items|
      invariant forall o :: o in chosen <==>
        && o in items[..i] && KeyID(o.Id()).value !in visited
        && MANAGED_COMPONENT in o.content.annotations && o.content.annotations[MANAGED_COMPONENT] == id
    {
      var o := items[i];
      if KeyID(o.Id()).value in visited {
        continue;
      }
      if MANAGED_COMPONENT in o.content.annotations && o.content.annotations[MANAGED_COMPONENT] == id {
        chosen := chosen + [o];
      }
    }
  }

  /** A failing modifier ends the preparation of the object. */
  lemma {:induction false} ModifyStops(modifiers: seq<(Obj, Owner) -> Option<Content>>, i: nat, owner: Owner, d: Obj)
    requires i <= |modifiers| && Modify(modifiers[..i], owner, d).error.Some?
    ensures Modify(modifiers, owner, d) == Modify(modifiers[..i], owner, d)
  {
    if i == |modifiers| {
      assert modifiers[..i] == modifiers;
    } else {
      var init := modifiers[..|modifiers| - 1];
      assert init[..i] == modifiers[..i];
      ModifyStops(init, i, owner, d);
    }
  }
}
