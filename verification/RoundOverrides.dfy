/** What a state override comes to in the cluster, and what the release's own states do without one. */
module RoundOverrides {
  import opened Objects
  import opened Cluster
  import opened DesiredStates
  import opened ResourceProperties
  import opened Convergence
  import opened NativeMachine
  import opened RunFrames
  import opened PurgeProperties
  import opened RunConvergence
  import opened InventoryMachine
  import opened NoLeak
  import opened Coexistence
  import opened Stacks
  import opened HelmReconciler

  /** The entry that counts for an object: the exact one, or without one the type's. */
  ghost predicate Overriding(overrides: Overrides, o: Obj, ds: DesiredState) {
    || overrides(o.gvk, o.ns, o.name) == Some(ds)
    || (overrides(o.gvk, o.ns, o.name) == None && overrides(o.gvk, "", "") == Some(ds))
  }

  /** The builder of the run for an object that is overridden. */
  lemma OverriddenState(r: Round, w: World, i: nat, ds: DesiredState)
    requires InHeap(r.builders, w.heap) && i < |FinalBuilders(r, w)| && FinalBuilders(r, w)[i].Builds?
    requires Overriding(r.overrides, StartWorld(r, w).heap[FinalBuilders(r, w)[i].target], ds) && !ds.NoState?
    ensures var final := FinalBuilders(r, w)[i];
      Takes(final) && Resolve(final.state) == Resolve(ds) && !IsPresent(final.state) && !IsAbsent(final.state)
  {
    LastDecides(FinalBuilders(r, w)[i].state);
  }

  /** The override decides, whatever state the object was built with. After a clean round over distinct objects, one
      overridden to be absent is not alive, one overridden to be created is there and, if it was there before, exactly
      as it was, and one under any other override is alive. */
  lemma OverrideDecides(r: Round, w: World, end: Progress, i: nat, ds: DesiredState)
    requires IsRound(r, w, end) && Clean(end.combined)
    requires Orderly(r.env, FinalBuilders(r, w), StartWorld(r, w).heap)
    requires i < |FinalBuilders(r, w)| && FinalBuilders(r, w)[i].Builds?
    requires Overriding(r.overrides, StartWorld(r, w).heap[FinalBuilders(r, w)[i].target], ds) && !ds.NoState?
    ensures var key := StartWorld(r, w).heap[FinalBuilders(r, w)[i].target].Id();
      match Resolve(ds)
      case Remove => !Alive(end.server, key)
      case CreateOnly => key in end.server.live
          && (key in w.server.live ==> end.server.live[key] == w.server.live[key])
      case Converge => Alive(end.server, key)
  {
    var p, final := RoundStart(StartWorld(r, w)), FinalBuilders(r, w);
    OverriddenState(r, w, i, ds);
    AppendOnlyReads(r, w);
    RunConverges(r.env, r.cfg, p, final, r.types, r.plan, end);
    StaysInForce(r.cfg, p.heap[final[i].target], final[i].state);
  }

  /** Without an override: the managed namespace comes first, is only ever created, and has no state that an
      annotation could change; then the chart's objects in order, if the component is enabled, each to converge under
      the three hooks. */
  lemma BuiltStates(namespace: Option<RuntimeObject>, enabled: bool, chart: seq<RuntimeObject>)
    ensures var builders, n := RoundBuilders(namespace, enabled, chart), if namespace.Some? then 1 else 0;
      && |builders| == n + (if enabled then |chart| else 0)
      && (namespace.Some? ==>
        && builders[0].Builds? && builders[0].target == namespace.value
        && Resolve(builders[0].state) == CreateOnly && !IsPresent(builders[0].state) && !IsAbsent(builders[0].state))
      && (forall i :: n <= i < |builders| ==>
        && builders[i].Builds? && builders[i].target == chart[i - n]
        && Resolve(builders[i].state) == Converge && Hooked(builders[i].state)
        && IsPresent(builders[i].state) && !IsAbsent(builders[i].state))
      && (forall i :: 0 <= i < |builders| ==> Plain(builders[i].state))
  {
  }

  /** So a run over them, nothing overridden, leaves an existing namespace as it is. */
  lemma ManagedNamespaceStays(env: Env, cfg: Config, p: Progress, namespace: RuntimeObject, enabled: bool,
                              chart: seq<RuntimeObject>)
    requires InHeap(RoundBuilders(Some(namespace), enabled, chart), p.heap) && namespace in p.heap
    requires p.heap[namespace].Id() in p.server.live
    requires enabled ==> forall o :: o in chart ==> o in p.heap && p.heap[o].Id() != p.heap[namespace].Id()
    ensures var q := ApplyAll(env, cfg, p, RoundBuilders(Some(namespace), enabled, chart));
      Live(q.server, p.heap[namespace].Id()) == Live(p.server, p.heap[namespace].Id())
  {
    CreatedStays(env, cfg, p, RoundBuilders(Some(namespace), enabled, chart), p.heap[namespace].Id());
  }

  ghost predicate OnlyCreated(builders: seq<Builder>, heap: Heap, key: Key)
    requires InHeap(builders, heap)
  {
    forall i :: 0 <= i < |builders| && Takes(builders[i]) && heap[builders[i].target].Id() == key ==>
      Resolve(builders[i].state) == CreateOnly && !IsPresent(builders[i].state)
  }

  lemma OnlyCreatedParts(init: seq<Builder>, last: Builder, heap: Heap, key: Key)
    requires InHeap(init + [last], heap) && OnlyCreated(init + [last], heap, key)
    ensures InHeap(init, heap) && OnlyCreated(init, heap, key)
    ensures Takes(last) ==> last.target in heap
    ensures Takes(last) && heap[last.target].Id() == key ==> Resolve(last.state) == CreateOnly && !IsPresent(last.state)
  {
    var all := init + [last];
    assert all[|init|] == last && forall i :: 0 <= i < |init| ==> all[i] == init[i];
  }

  /** An object that its builders only ever want created stays as it is once it is there. */
  lemma {:induction false} CreatedStays(env: Env, cfg: Config, p: Progress, builders: seq<Builder>, key: Key)
    requires InHeap(builders, p.heap) && key in p.server.live && OnlyCreated(builders, p.heap, key)
    ensures Live(ApplyAll(env, cfg, p, builders).server, key) == Live(p.server, key)
  {
    if builders != [] {
      var init, last := builders[..|builders| - 1], builders[|builders| - 1];
      assert builders == init + [last];
      OnlyCreatedParts(init, last, p.heap, key);
      CreatedStays(env, cfg, p, init, key);
      IdentitiesStay(env, cfg, p, init);
      StepLeavesCreated(env, cfg, ApplyAll(env, cfg, p, init), last, key);
    }
  }

  lemma StepLeavesCreated(env: Env, cfg: Config, m: Progress, b: Builder, key: Key)
    requires (b.Builds? ==> b.target in m.heap) && key in m.server.live
    requires Takes(b) && m.heap[b.target].Id() == key ==> Resolve(b.state) == CreateOnly && !IsPresent(b.state)
    ensures Live(Step(env, cfg, m, b).server, key) == Live(m.server, key)
  {
    if Takes(b) {
      VisitLeavesCreated(env, cfg, m, b.target, b.state, key);
    }
  }

  lemma VisitLeavesCreated(env: Env, cfg: Config, m: Progress, o: RuntimeObject, ds: DesiredState, key: Key)
    requires o in m.heap && key in m.server.live
    requires m.heap[o].Id() == key ==> Resolve(ds) == CreateOnly && !IsPresent(ds)
    ensures Live(Visit(env, cfg, m, o, ds).server, key) == Live(m.server, key)
  {
    VisitTouches(env, cfg, m, o, ds);
    if m.heap[o].Id() != key {
      TouchesOther(m.server, Visit(env, cfg, m, o, ds).server, m.heap[o].Id(), key);
    } else {
      PrepareKeepsIdentity(cfg, m.heap[o]);
      VisitReconciles(env, cfg, m, o, ds);
      StaysInForce(cfg, m.heap[o], ds);
      CreateOnlyLeavesExisting(env, cfg.opts, m.server, Desired(cfg, m.heap[o]), ds);
    }
  }

  lemma StaysInForce(cfg: Config, was: Obj, ds: DesiredState)
    requires !IsPresent(ds)
    ensures StateFor(cfg, was, ds) == ds
  {
  }
}
