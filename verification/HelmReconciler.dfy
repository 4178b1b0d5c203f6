/** One round of a Helm component: render, take stock, override, reconcile, purge (HelmReconciler.reconcile). */
module HelmReconciler {
  import opened Objects
  import opened DesiredStates
  import opened ResourceMachine
  import opened ResourceReconciler
  import opened Results
  import opened Identity
  import opened Sort
  import opened NativeMachine
  import opened InventoryMachine
  import opened NativeReconciler
  import opened Inventory
  import Machine = InventoryMachine

  /** A release's object modifiers rewrite contents, or fail. */
  type Modifier = Obj -> Option<Content>

  /** What is rendered for a release: objects, modifiers, and patch layers as modifiers, `None` where a layer
      cannot be read. */
  datatype Chart = Chart(objects: seq<RuntimeObject>, modifiers: seq<Modifier>, layers: seq<Option<Modifier>>)

  /** Each object with the state, wrapped with the library's own hooks. */
  function Wrapped(targets: seq<RuntimeObject>, state: DesiredState): (r: seq<Builder>)
    ensures |r| == |targets|
    ensures forall i :: 0 <= i < |r| ==> r[i] == Builds(targets[i], Dynamic(state, STANDARD_HOOKS))
  {
    seq(|targets|, i requires 0 <= i < |targets| => Builds(targets[i], Dynamic(state, STANDARD_HOOKS)))
  }

  /** One object under all modifiers, up to the first that fails. */
  function Rewrite(modifiers: seq<Modifier>, o: Obj): (r: (Obj, bool))
    ensures r.0.SameIdentity(o)
  {
    if modifiers == [] then (o, true)
    else
      var (o1, ok) := Rewrite(modifiers[..|modifiers| - 1], o);
      if !ok then (o1, false)
      else
        var c := modifiers[|modifiers| - 1](o1);
        if c.None? then (o1, false) else (o1.(content := c.value), true)
  }

  /** All objects in order, up to the first that a modifier refuses. */
  function RewriteAll(modifiers: seq<Modifier>, heap: Heap, targets: seq<RuntimeObject>): (r: (Heap, bool))
    requires forall i :: 0 <= i < |targets| ==> targets[i] in heap
    ensures r.0.Keys == heap.Keys
  {
    if targets == [] then (heap, true)
    else
      var (h, ok) := RewriteAll(modifiers, heap, targets[..|targets| - 1]);
      if !ok then (h, false)
      else
        var o := targets[|targets| - 1];
        var (v, done) := Rewrite(modifiers, h[o]);
        (h[o := v], done)
  }

  lemma {:induction false} RewriteStops(modifiers: seq<Modifier>, o: Obj, i: nat)
    requires i <= |modifiers| && !Rewrite(modifiers[..i], o).1
    ensures Rewrite(modifiers, o) == Rewrite(modifiers[..i], o)
  {
    if i == |modifiers| {
      assert modifiers[..i] == modifiers;
    } else {
      assert modifiers[..|modifiers| - 1][..i] == modifiers[..i];
      RewriteStops(modifiers[..|modifiers| - 1], o, i);
    }
  }

  lemma {:induction false} RewriteAllStops(modifiers: seq<Modifier>, heap: Heap, targets: seq<RuntimeObject>, i: nat)
    requires i <= |targets| && forall k :: 0 <= k < |targets| ==> targets[k] in heap
    requires !RewriteAll(modifiers, heap, targets[..i]).1
    ensures RewriteAll(modifiers, heap, targets) == RewriteAll(modifiers, heap, targets[..i])
  {
    if i == |targets| {
      assert targets[..i] == targets;
    } else {
      assert targets[..|targets| - 1][..i] == targets[..i];
      RewriteAllStops(modifiers, heap, targets[..|targets| - 1], i);
    }
  }

  /** Modifiers run in their order, each on what the earlier ones left, and none after a refusal. */
  lemma {:induction false} RewritesRunInOrder(a: seq<Modifier>, b: seq<Modifier>, o: Obj)
    ensures Rewrite(a + b, o) == if !Rewrite(a, o).1 then Rewrite(a, o) else Rewrite(b, Rewrite(a, o).0)
  {
    if b == [] {
      assert a + b == a;
    } else {
      assert (a + b)[..|a + b| - 1] == a + b[..|b| - 1];
      RewritesRunInOrder(a, b[..|b| - 1], o);
    }
  }

  lemma OneRewrite(modifier: Modifier, o: Obj)
    ensures Rewrite([modifier], o)
      == if modifier(o).None? then (o, false) else (o.(content := modifier(o).value), true)
  {
    assert [modifier][..0] == [];
  }

  /** Of different objects each is rewritten for itself, if none is refused; nothing else changes. */
  lemma {:induction false} EachIsRewritten(modifiers: seq<Modifier>, heap: Heap, targets: seq<RuntimeObject>)
    requires forall i :: 0 <= i < |targets| ==> targets[i] in heap
    requires forall i, j :: 0 <= i < j < |targets| ==> targets[i] != targets[j]
    ensures var (h, ok) := RewriteAll(modifiers, heap, targets);
      && (ok <==> forall i :: 0 <= i < |targets| ==> Rewrite(modifiers, heap[targets[i]]).1)
      && (ok ==> forall i :: 0 <= i < |targets| ==> h[targets[i]] == Rewrite(modifiers, heap[targets[i]]).0)
      && (forall o :: o in heap && o !in targets ==> h[o] == heap[o])
  {
    if targets != [] {
      var init, last := targets[..|targets| - 1], targets[|targets| - 1];
      assert targets == init + [last];
      assert forall i :: 0 <= i < |init| ==> init[i] == targets[i];
      EachIsRewritten(modifiers, heap, init);
    }
  }

  method RewriteObject(modifiers: seq<Modifier>, o: RuntimeObject) returns (ok: bool)
    modifies o
    ensures (o.val, ok) == Rewrite(modifiers, old(o.val))
  {
    for i := 0 to |modifiers|
      invariant Rewrite(modifiers[..i], old(o.val)) == (o.val, true)
    {
      assert modifiers[..i + 1][..i] == modifiers[..i];
      var c := modifiers[i](o.val);
      if c.None? {
        RewriteStops(modifiers, old(o.val), i + 1);
        return false;
      }
      o.val := o.val.(content := c.value);
    }
    assert modifiers[..|modifiers|] == modifiers;
    return true;
  }

  ghost function PointedTo(objects: seq<RuntimeObject>, heap: Heap): (values: seq<Obj>)
    requires forall i :: 0 <= i < |objects| ==> objects[i] in heap
    ensures |values| == |objects| && forall i :: 0 <= i < |objects| ==> values[i] == heap[objects[i]]
  {
    seq(|objects|, i requires 0 <= i < |objects| => heap[objects[i]])
  }

  /** The pointers of `after` are those of `before`, in install order of the objects they point to. */
  ghost predicate Rearranged(before: seq<RuntimeObject>, after: seq<RuntimeObject>, heap: Heap) {
    && multiset(after) == multiset(before)
    && (forall i :: 0 <= i < |after| ==> after[i] in heap)
    && Sorted(ScoreOf(InstallOrder), PointedTo(after, heap))
  }

  /** The first `n` objects are modified, and it is known whether that succeeded. */
  ghost predicate Rewritten(modifiers: seq<Modifier>, start: Heap, targets: seq<RuntimeObject>, n: nat, heap: Heap,
                            ok: bool) {
    && n <= |targets| && (forall k :: 0 <= k < |targets| ==> targets[k] in start)
    && RewriteAll(modifiers, start, targets[..n]) == (heap, ok)
  }

  lemma NothingRewritten(modifiers: seq<Modifier>, start: Heap, targets: seq<RuntimeObject>)
    requires forall k :: 0 <= k < |targets| ==> targets[k] in start
    ensures Rewritten(modifiers, start, targets, 0, start, true)
  {
    assert targets[..0] == [];
  }

  lemma AllRewritten(modifiers: seq<Modifier>, start: Heap, targets: seq<RuntimeObject>, n: nat, heap: Heap, ok: bool)
    requires Rewritten(modifiers, start, targets, n, heap, ok) && (ok ==> n == |targets|)
    ensures RewriteAll(modifiers, start, targets) == (heap, ok)
  {
    if ok {
      assert targets[..n] == targets;
    } else {
      RewriteAllStops(modifiers, start, targets, n);
    }
  }

  method ModifyOne(modifiers: seq<Modifier>, ghost start: Heap, targets: seq<RuntimeObject>, i: nat,
                   ghost objects: set<RuntimeObject>)
    returns (ok: bool)
    requires i < |targets| && targets[i] in objects && Rewritten(modifiers, start, targets, i, Snapshot(objects), true)
    modifies targets[i]
    ensures Rewritten(modifiers, start, targets, i + 1, Snapshot(objects), ok)
  {
    assert targets[..i + 1][..i] == targets[..i];
    ghost var heap := Snapshot(objects);
    ok := RewriteObject(modifiers, targets[i]);
    assert Snapshot(objects) == heap[targets[i] := targets[i].val];
  }

  /** The loop over the sorted slice: modify each object, add its builder. */
  method ModifyAndWrap(targets: seq<RuntimeObject>, state: DesiredState, modifiers: seq<Modifier>,
                       ghost objects: set<RuntimeObject>)
    returns (builders: Option<seq<Builder>>)
    requires forall i :: 0 <= i < |targets| ==> targets[i] in objects
    modifies objects
    ensures (Snapshot(objects), builders.Some?) == RewriteAll(modifiers, old(Snapshot(objects)), targets)
    ensures builders.Some? ==> builders.value == Wrapped(targets, state)
  {
    ghost var start := Snapshot(objects);
    NothingRewritten(modifiers, start, targets);
    var all: seq<Builder>, ok, i := [], true, 0;
    while i < |targets| && ok
      invariant 0 <= i <= |targets| && Rewritten(modifiers, start, targets, i, Snapshot(objects), ok)
      invariant ok ==> WrappedSoFar(all, targets, state, i)
    {
      ok := ModifyOne(modifiers, start, targets, i, objects);
      if ok {
        all := AddWrapped(all, targets, state, i);
      }
      i := i + 1;
    }
    AllRewritten(modifiers, start, targets, i, Snapshot(objects), ok);
    if !ok {
      return None;
    }
    AllWrapped(all, targets, state);
    return Some(all);
  }

  ghost predicate WrappedSoFar(all: seq<Builder>, targets: seq<RuntimeObject>, state: DesiredState, n: nat) {
    n <= |targets| && |all| == n && forall i :: 0 <= i < n ==>
      all[i] == Builds(targets[i], Dynamic(state, STANDARD_HOOKS))
  }

  lemma AllWrapped(all: seq<Builder>, targets: seq<RuntimeObject>, state: DesiredState)
    requires WrappedSoFar(all, targets, state, |targets|)
    ensures all == Wrapped(targets, state)
  {
  }

  method AddWrapped(all: seq<Builder>, targets: seq<RuntimeObject>, state: DesiredState, i: nat)
    returns (more: seq<Builder>)
    requires i < |targets| && WrappedSoFar(all, targets, state, i)
    ensures WrappedSoFar(more, targets, state, i + 1)
  {
    more := all + [Builds(targets[i], Dynamic(state, STANDARD_HOOKS))];
  }

  /** GetResourceBuildersFromObjects: sort the slice in place, modify every object, wrap the state. */
  method GetResourceBuildersFromObjects(targets: array<RuntimeObject>, state: DesiredState, modifiers: seq<Modifier>,
                                        ghost objects: set<RuntimeObject>)
    returns (builders: Option<seq<Builder>>, ghost order: seq<RuntimeObject>)
    requires forall o :: o in targets[..] ==> o in objects
    modifies targets, objects
    ensures order == targets[..] && Rearranged(old(targets[..]), order, old(Snapshot(objects)))
    ensures (Snapshot(objects), builders.Some?) == RewriteAll(modifiers, old(Snapshot(objects)), order)
    ensures builders.Some? ==> builders.value == Wrapped(order, state)
  {
    ghost var heap := Snapshot(objects);
    SortPointers(targets, InstallOrder);
    order := targets[..];
    forall o | o in order ensures o in objects {
      assert o in multiset(order);
    }
    assert Values(order) == PointedTo(order, heap);
    builders := ModifyAndWrap(targets[..], state, modifiers, objects);
  }

  /** The release's modifiers followed by its layers; `None` if a layer cannot be read. */
  function AllModifiers(modifiers: seq<Modifier>, layers: seq<Option<Modifier>>): Option<seq<Modifier>> {
    if layers == [] then Some(modifiers)
    else
      var init := AllModifiers(modifiers, layers[..|layers| - 1]);
      var last := layers[|layers| - 1];
      if init.None? || last.None? then None else Some(init.value + [last.value])
  }

  /** The layers come after the release's own modifiers, in order; one that cannot be read spoils them all. */
  lemma {:induction false} LayersComeLast(modifiers: seq<Modifier>, layers: seq<Option<Modifier>>)
    ensures var all := AllModifiers(modifiers, layers);
      && (all.Some? <==> forall i :: 0 <= i < |layers| ==> layers[i].Some?)
      && (all.Some? ==>
        && |all.value| == |modifiers| + |layers| && all.value[..|modifiers|] == modifiers
        && forall i :: 0 <= i < |layers| ==> all.value[|modifiers| + i] == layers[i].value)
  {
    if layers != [] {
      LayersComeLast(modifiers, layers[..|layers| - 1]);
    }
  }

  lemma {:induction false} LayersStop(modifiers: seq<Modifier>, layers: seq<Option<Modifier>>, i: nat)
    requires i <= |layers| && AllModifiers(modifiers, layers[..i]).None?
    ensures AllModifiers(modifiers, layers).None?
  {
    if i == |layers| {
      assert layers[..i] == layers;
    } else {
      assert layers[..|layers| - 1][..i] == layers[..i];
      LayersStop(modifiers, layers[..|layers| - 1], i);
    }
  }

  method CollectModifiers(modifiers: seq<Modifier>, layers: seq<Option<Modifier>>) returns (all: Option<seq<Modifier>>)
    ensures all == AllModifiers(modifiers, layers)
  {
    var found := modifiers;
    for i := 0 to |layers|
      invariant AllModifiers(modifiers, layers[..i]) == Some(found)
    {
      assert layers[..i + 1][..i] == layers[..i];
      if layers[i].None? {
        LayersStop(modifiers, layers, i + 1);
        return None;
      }
      found := found + [layers[i].value];
    }
    assert layers[..|layers|] == layers;
    return Some(found);
  }

  /** The builders of a round before the inventory: the managed namespace, then the chart if it is enabled. */
  function RoundBuilders(namespace: Option<RuntimeObject>, enabled: bool, chart: seq<RuntimeObject>): seq<Builder> {
    (if namespace.Some? then Wrapped([namespace.value], Static(StateCreated)) else [])
    + (if enabled then Wrapped(chart, Static(StatePresent)) else [])
  }

  /** What rendering does to the objects in memory, and whether it succeeds; `order` is the sorted chart. */
  function Rendered(enabled: bool, chart: Chart, order: seq<RuntimeObject>, heap: Heap): (r: (Heap, bool))
    requires forall i :: 0 <= i < |order| ==> order[i] in heap
    ensures r.0.Keys == heap.Keys
  {
    if !enabled then (heap, true)
    else
      var modifiers := AllModifiers(chart.modifiers, chart.layers);
      if modifiers.None? then (heap, false) else RewriteAll(modifiers.value, heap, order)
  }

  lemma SameRoundObjects(namespace: Option<RuntimeObject>, enabled: bool, a: seq<RuntimeObject>, b: seq<RuntimeObject>)
    requires enabled ==> multiset(a) == multiset(b)
    ensures ObjectsOf(RoundBuilders(namespace, enabled, a)) == ObjectsOf(RoundBuilders(namespace, enabled, b))
  {
    RoundObjects(namespace, enabled, a);
    RoundObjects(namespace, enabled, b);
    if enabled {
      assert forall o :: o in a <==> o in multiset(a);
      assert forall o :: o in b <==> o in multiset(b);
    }
  }

  lemma RoundObjects(namespace: Option<RuntimeObject>, enabled: bool, chart: seq<RuntimeObject>)
    ensures forall o :: o in ObjectsOf(RoundBuilders(namespace, enabled, chart)) <==>
      (namespace.Some? && o == namespace.value) || (enabled && o in chart)
  {
    var builders := RoundBuilders(namespace, enabled, chart);
    var n := if namespace.Some? then 1 else 0;
    if namespace.Some? {
      assert builders[0].Builds? && builders[0].target == namespace.value;
    }
    forall o | enabled && o in chart ensures o in ObjectsOf(builders) {
      var i :| 0 <= i < |chart| && chart[i] == o;
      assert builders[n + i].Builds? && builders[n + i].target == o;
    }
  }

  class ReleaseReconciler {
    const resource: GenericResourceReconciler
    const inventory: ObjectInventory
    const overrides: Overrides
    const controllerRef: bool
    const modifiers: seq<(Obj, Owner) -> Option<Content>>
    const mapper: Option<GVK -> Mapping>

    constructor (resource: GenericResourceReconciler, inventory: ObjectInventory, overrides: Overrides,
                 controllerRef: bool, modifiers: seq<(Obj, Owner) -> Option<Content>>, mapper: Option<GVK -> Mapping>)
      ensures this.resource == resource && this.inventory == inventory && this.overrides == overrides
      ensures this.controllerRef == controllerRef && this.modifiers == modifiers && this.mapper == mapper
    {
      this.resource, this.inventory, this.overrides := resource, inventory, overrides;
      this.controllerRef, this.modifiers, this.mapper := controllerRef, modifiers, mapper;
    }

    method ToSlice(chart: seq<RuntimeObject>) returns (slice: array<RuntimeObject>)
      ensures fresh(slice) && slice[..] == chart
    {
      slice := new RuntimeObject[|chart|](i requires 0 <= i < |chart| => chart[i]);
      assert slice[..] == chart;
    }

    method BuildChart(chart: seq<RuntimeObject>, modifiers: seq<Modifier>, ghost objects: set<RuntimeObject>)
      returns (builders: Option<seq<Builder>>, ghost order: seq<RuntimeObject>)
      requires forall o :: o in chart ==> o in objects
      modifies objects
      ensures Rearranged(chart, order, old(Snapshot(objects)))
      ensures (Snapshot(objects), builders.Some?) == RewriteAll(modifiers, old(Snapshot(objects)), order)
      ensures builders.Some? ==> builders.value == Wrapped(order, Static(StatePresent))
    {
      var slice := ToSlice(chart);
      builders, order := GetResourceBuildersFromObjects(slice, Static(StatePresent), modifiers, objects);
    }

    /** `order` is the chart as sorted. */
    method GetResourceBuilders(namespace: Option<RuntimeObject>, enabled: bool, chart: Chart,
                               ghost objects: set<RuntimeObject>)
      returns (builders: Option<seq<Builder>>, ghost order: seq<RuntimeObject>)
      requires objects == ObjectsOf(RoundBuilders(namespace, enabled, chart.objects))
      modifies objects
      ensures multiset(order) == multiset(chart.objects) && forall o :: o in order && enabled ==> o in objects
      ensures enabled && AllModifiers(chart.modifiers, chart.layers).Some? ==>
        Rearranged(chart.objects, order, old(Snapshot(objects)))
      ensures enabled ==> (Snapshot(objects), builders.Some?) == Rendered(true, chart, order, old(Snapshot(objects)))
      ensures !enabled ==> builders.Some? && Snapshot(objects) == old(Snapshot(objects))
      ensures builders.Some? ==> builders.value == RoundBuilders(namespace, enabled, order)
      ensures enabled && (exists i :: 0 <= i < |chart.layers| && chart.layers[i].None?) ==>
        builders == None && Snapshot(objects) == old(Snapshot(objects))
    {
      LayersComeLast(chart.modifiers, chart.layers);
      order := chart.objects;
      RoundObjects(namespace, enabled, chart.objects);
      var first: seq<Builder> := [];
      if namespace.Some? {
        first := Wrapped([namespace.value], Static(StateCreated));
      }
      if !enabled {
        return Some(first), order;
      }
      var modifiers := CollectModifiers(chart.modifiers, chart.layers);
      if modifiers.None? {
        return None, order;
      }
      var rendered;
      rendered, order := BuildChart(chart.objects, modifiers.value, objects);
      return if rendered.None? then None else Some(first + rendered.value), order;
    }

    method SetDesiredStateOverrides(builders: seq<Builder>, ghost objects: set<RuntimeObject>)
      returns (all: seq<Builder>)
      requires ObjectsOf(builders) <= objects
      ensures all == WithOverrides(overrides, builders, Snapshot(objects))
      ensures |all| == |builders| && forall i :: 0 <= i < |builders| ==>
        if builders[i].Builds? then
          && all[i].Builds? && all[i].target == builders[i].target
          && Overrode(overrides, builders[i].target.val, builders[i].state, all[i].state)
        else all[i] == Fails
    {
      all := [];
      ghost var heap := Snapshot(objects);
      for i := 0 to |builders|
        invariant |all| == i
        invariant forall j :: 0 <= j < i ==> all[j] == WithOverrides(overrides, builders, heap)[j]
      {
        match builders[i] {
          case Builds(o, ds) =>
            assert o in objects by { assert builders[i].Builds?; assert builders[i].target in ObjectsOf(builders); }
            var override := OverrideFor(overrides, o.val);
            all := all + [Builds(o, if override.Some? then Stacked(ds, override.value) else ds)];
          case _ =>
            all := all + [Fails];
        }
      }
    }

    /** Stock is taken and the overrides are stacked. */
    method TakeStock(parent: Owner, ns: string, release: string, rendered: seq<Builder>,
                     ghost objects: set<RuntimeObject>)
      returns (ending: Ending, builders: seq<Builder>, types: seq<GVK>, box: RuntimeObject, ghost w: World)
      requires inventory.client == resource.client && objects == ObjectsOf(rendered)
      modifies resource.client`server, inventory`current, inventory`desired, inventory`toDelete
      modifies inventory.cache`dynamics, inventory.cache`fetches, objects
      ensures fresh(box) && ObjectsOf(builders) <= objects + {box}
      ensures var (w1, all, ending1) := Machine.Append(resource.client.env, inventory.Scoping(),
                                                       old(inventory.Now(objects)),
          ns, release, parent, rendered, box);
        && ending == ending1 && w == w1 && resource.client.server == w1.server
        && (ending == Completed ==>
              && w1.heap == Snapshot(ObjectsOf(builders))
              && builders == WithOverrides(overrides, all, w1.heap)
              && IsTypes(w1.book.toDelete, types))
    {
      var all, done, appended, objects' := inventory.Append(ns, release, parent, rendered, objects);
      ending, box, w, builders, types := done, appended, inventory.Now(objects'), [], [];
      if ending == Completed {
        builders := SetDesiredStateOverrides(all, objects');
        types := inventory.TypesToPurge();
        SameObjects(all, builders);
      }
    }

    /** A fresh reconciler makes the run. */
    method RunOnce(component: string, parent: Owner, builders: seq<Builder>, types: seq<GVK>)
      returns (result: Option<Requeue>, errors: seq<Error>, ghost plan: seq<Obj>, ghost end: Progress)
      requires ComponentID(parent, component).Some?
      modifies resource.client`server, ObjectsOf(builders)
      ensures IsRun(resource.client.env,
                    Config(ComponentID(parent, component).value, parent, controllerRef, modifiers, resource.opts,
                           mapper),
                    Progress(old(resource.client.server), old(Snapshot(ObjectsOf(builders))), {}, [], [], [], NOTHING),
                        builders, types, plan, end)
      ensures resource.client.server == end.server && result == Some(end.combined.result)
      ensures errors == end.combined.errors
    {
      var native := new ComponentReconciler(component, resource, controllerRef, modifiers, mapper);
      result, errors, plan, end := native.Reconcile(parent, builders, types);
    }

    /** A round from what was rendered. Nothing is applied if stock cannot be taken. */
    method RunRound(component: string, parent: Owner, ns: string, release: string, rendered: seq<Builder>,
                    ghost objects: set<RuntimeObject>)
      returns (ending: Ending, result: Option<Requeue>, errors: seq<Error>, ghost round: Round, ghost end: Progress)
      requires ComponentID(parent, component).Some? && inventory.client == resource.client
      requires objects == ObjectsOf(rendered)
      modifies resource.client`server, inventory`current, inventory`desired, inventory`toDelete
      modifies inventory.cache`dynamics, inventory.cache`fetches, objects
      ensures InHeap(rendered, old(Snapshot(objects)))
      ensures IsRoundOf(round, component, parent, ns, release, rendered)
      ensures ending == RoundAppend(round, old(inventory.Now(objects))).2
      ensures if ending == Completed then
          && IsRound(round, old(inventory.Now(objects)), end)
          && resource.client.server == end.server && result == Some(end.combined.result)
          && errors == end.combined.errors
        else resource.client.server == RoundAppend(round, old(inventory.Now(objects))).0.server
    {
      var done, builders, types, box, w := TakeStock(parent, ns, release, rendered, objects);
      ghost var cfg := Config(ComponentID(parent, component).value, parent, controllerRef, modifiers, resource.opts,
                              mapper);
      ending, result, errors, end := done, None, [], RoundStart(w);
      round := Round(resource.client.env, inventory.Scoping(), cfg, ns, release, rendered, overrides, box, types, []);
      if ending == Completed {
        ghost var plan;
        result, errors, plan, end := RunOnce(component, parent, builders, types);
        round := round.(plan := plan);
      }
    }

    /** The inputs of a round are this reconciler's. */
    ghost predicate IsRoundOf(round: Round, component: string, parent: Owner, ns: string, release: string,
                              builders: seq<Builder>)
      requires ComponentID(parent, component).Some?
      reads this, resource, resource.client, inventory
    {
      && round.ns == ns && round.release == release && round.builders == builders
      && round.env == resource.client.env && round.sc == inventory.Scoping() && round.overrides == overrides
      && round.cfg
        == Config(ComponentID(parent, component).value, parent, controllerRef, modifiers, resource.opts, mapper)
    }

    /** HelmReconciler.reconcile: `None` if rendering fails, and then the cluster is as before. */
    method Reconcile(component: string, parent: Owner, ns: string, release: string, namespace: Option<RuntimeObject>,
                     enabled: bool, chart: Chart, ghost objects: set<RuntimeObject>)
      returns (ending: Option<Ending>, result: Option<Requeue>, errors: seq<Error>,
               ghost order: seq<RuntimeObject>, ghost w: World, ghost round: Option<Round>, ghost end: Progress)
      requires ComponentID(parent, component).Some? && inventory.client == resource.client
      requires objects == ObjectsOf(RoundBuilders(namespace, enabled, chart.objects))
      modifies resource.client`server, inventory`current, inventory`desired, inventory`toDelete
      modifies inventory.cache`dynamics, inventory.cache`fetches, objects
      ensures multiset(order) == multiset(chart.objects) && forall o :: o in order && enabled ==> o in objects
      ensures enabled && AllModifiers(chart.modifiers, chart.layers).Some? ==>
        Rearranged(chart.objects, order, old(Snapshot(objects)))
      ensures w == old(inventory.Now(objects)).(heap := w.heap)
      ensures (w.heap, ending.Some?) == if enabled then Rendered(true, chart, order, old(Snapshot(objects)))
          else (old(Snapshot(objects)), true)
      ensures ending.None? ==> resource.client.server == old(resource.client.server)
      ensures ending.Some? ==>
        && round.Some? && InHeap(round.value.builders, w.heap)
        && IsRoundOf(round.value, component, parent, ns, release, RoundBuilders(namespace, enabled, order))
        && ending.value == RoundAppend(round.value, w).2
        && if ending.value == Completed then
             && IsRound(round.value, w, end)
             && resource.client.server == end.server && result == Some(end.combined.result)
             && errors == end.combined.errors
           else resource.client.server == RoundAppend(round.value, w).0.server
    {
      var rendered, sorted := GetResourceBuilders(namespace, enabled, chart, objects);
      order, w := sorted, inventory.Now(objects);
      if rendered.None? {
        ending, result, errors, round, end := None, None, [], None, RoundStart(w);
        return;
      }
      SameRoundObjects(namespace, enabled, chart.objects, order);
      var done;
      ghost var made;
      done, result, errors, made, end := RunRound(component, parent, ns, release, rendered.value, objects);
      ending, round := Some(done), Some(made);
    }
  }

  lemma SameObjects(a: seq<Builder>, b: seq<Builder>)
    requires |a| == |b|
    requires forall i :: 0 <= i < |a| ==>
      (a[i].Builds? <==> b[i].Builds?) && (a[i].Builds? ==> a[i].target == b[i].target)
    ensures ObjectsOf(a) == ObjectsOf(b)
  {
  }
}
