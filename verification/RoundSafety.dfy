/** What rounds and runs never purge: definitions and namespaces, objects of other owners, and objects whose API
    version merely changed. */
module RoundSafety {
  import opened Strings
  import opened Objects
  import opened Cluster
  import opened DesiredStates
  import opened ResourceMachine
  import opened Identity
  import opened Scope
  import opened InventoryText
  import opened NativeMachine
  import opened InventoryMachine
  import opened Convergence
  import opened RunFrames
  import opened PurgeProperties
  import opened RunConvergence
  import opened RunHistories
  import opened RoundFacts
  import opened NoLeak

  /** A round driven by the inventory purges no CustomResourceDefinition and no Namespace. */
  lemma DefinitionsAreSpared(r: Round, w: World, end: Progress)
    requires IsRound(r, w, end)
    ensures forall o :: o in r.plan ==> o.gvk.kind != "CustomResourceDefinition" && o.gvk.kind != "Namespace"
  {
    PurgeIsPlanned(r.env, r.cfg, RoundStart(StartWorld(r, w)), FinalBuilders(r, w), r.types, r.plan, end);
  }

  /** An object recorded under another API version than the one now wanted puts its old type among the purge
      types, and yet is not purged: the purge leaves it exactly as the apply loop did. */
  lemma VersionBumpIsHarmless(r: Round, w: World, end: Progress, lists: Lists, scope: GVK -> bool, was: Ref, now: Ref)
    requires GoodRound(r, w, end, lists, scope)
    requires Recorded(w.server, InvKey(r)).Some? && was in Recorded(w.server, InvKey(r)).value && now in Wanted(r, w)
    requires was.Id() == now.Id() && was !in Wanted(r, w) && Stale(w.server, scope, Wanted(r, w), was)
    requires StatesGiven(r.builders)
    ensures was.gvk in r.types && was.gvk.version != now.gvk.version
    ensures !Planned(r.plan, was.Id()) && Live(end.server, was.Id()) == Live(AppliedIn(r, w).server, was.Id())
  {
    MarkedForDeletion(r, w, lists, scope);
    WantedIsNamed(r, w, end, lists, scope, now);
    var p, final := RoundStart(StartWorld(r, w)), FinalBuilders(r, w);
    CleanRun(r.env, r.cfg, p, final, r.types, r.plan, end);
    CleanApplyVisitsAll(r.env, r.cfg, p, final);
    VisitedSurvivesPurge(r.env, r.cfg, p, final, r.types, r.plan, end, now.Id());
  }

  /** Owners of one kind under one component and with dash-free namespaces never purge each other's objects. */
  lemma PurgesNeverCross(r: Run, mine: Owner, other: Owner, component: string, key: Key)
    requires Happened(r) && r.cfg.owner == mine && ComponentID(mine, component) == Some(r.cfg.id)
    requires mine.gvk == other.gvk && (mine.ns == "" <==> other.ns == "") && '-' !in mine.ns && '-' !in other.ns
    requires mine.name != other.name || mine.ns != other.ns
    requires ComponentID(other, component).Some? && key in Middle(r).live
    requires MANAGED_COMPONENT in Middle(r).live[key].content.annotations
    requires Middle(r).live[key].content.annotations[MANAGED_COMPONENT] == ComponentID(other, component).value
    ensures !Planned(r.plan, key)
  {
    PurgeIsPlanned(r.env, r.cfg, r.start, r.builders, r.types, r.plan, r.end);
    forall o | o in r.plan && o.Id() == key
      ensures ComponentID(mine, component) == ComponentID(other, component)
    {
    }
    if ComponentID(mine, component) == ComponentID(other, component) {
      ComponentIDsSeparate(mine, other, component);
    }
  }

  /** What the purge of a round reaches: an unvisited object of the component, of a type that can be listed, is
      purged iff a reference marked for deletion has its type. */
  lemma PurgedIffTypeIsMarked(r: Round, w: World, end: Progress, o: Obj)
    requires IsRound(r, w, end) && AppliedIn(r, w).combined.errors == []
    requires AllListed(r.env, r.cfg, AppliedIn(r, w).server.calls, r.types) && MapperAdmits(r.cfg.mapper, o.gvk)
    requires Listable(AppliedIn(r, w).server, o) && KeyID(o.Id()).value !in AppliedIn(r, w).visited
    requires MANAGED_COMPONENT in o.content.annotations && o.content.annotations[MANAGED_COMPONENT] == r.cfg.id
    ensures o in r.plan <==>
      && o.gvk.kind != CUSTOM_RESOURCE_DEFINITION && o.gvk.kind != NAMESPACE
      && exists x :: x in StartWorld(r, w).book.toDelete && x.gvk == o.gvk
  {
    var m := AppliedIn(r, w);
    PurgeIsPlanned(r.env, r.cfg, RoundStart(StartWorld(r, w)), FinalBuilders(r, w), r.types, r.plan, end);
    AllListedMeans(r.env, r.cfg, m.server.calls, r.types);
  }

  /** An object of the component that nothing in a run names survives it iff no purge type has its kind. */
  lemma LeftoverSurvivesRunIff(env: Env, cfg: Config, p: Progress, builders: seq<Builder>, types: seq<GVK>,
                               plan: seq<Obj>, end: Progress, k: Key)
    requires IsRun(env, cfg, p, builders, types, plan, end) && end.combined.errors == [] && p.visited == {}
    requires !Named(builders, p.heap, k) && Owned(p.server, cfg.id, k)
    requires AllListed(env, cfg, ApplyAll(env, cfg, p, builders).server.calls, types)
    requires forall g :: g in types ==> MapperAdmits(cfg.mapper, g)
    requires forall k' :: Named(builders, p.heap, k') && KeyID(k) == KeyID(k') ==> k == k'
    ensures Alive(end.server, k) <==> !exists g :: g in types && g.Gk() == k.gk
  {
    var m := ApplyAll(env, cfg, p, builders);
    CleanRun(env, cfg, p, builders, types, plan, end);
    PlannedIffAlive(env, cfg, p, builders, types, plan, end, k);
    AllListedMeans(env, cfg, m.server.calls, types);
    if g :| g in types && g.Gk() == k.gk {
      LeftoverIsPlanned(env, cfg, p, builders, types, plan, end, g, k);
    } else {
      PurgeIsPlanned(env, cfg, p, builders, types, plan, end);
      PlannedIsTyped(plan, types, k);
    }
  }

  lemma PlannedIsTyped(plan: seq<Obj>, types: seq<GVK>, k: Key)
    requires forall o :: o in plan ==> o.gvk in types
    ensures Planned(plan, k) ==> exists g :: g in types && g.Gk() == k.gk
  {
    if o :| o in plan && o.Id() == k {
      assert o.gvk in types && o.gvk.Gk() == k.gk;
    }
  }

  lemma PlannedIffAlive(env: Env, cfg: Config, p: Progress, builders: seq<Builder>, types: seq<GVK>, plan: seq<Obj>,
                        end: Progress, k: Key)
    requires IsRun(env, cfg, p, builders, types, plan, end) && end.combined.errors == []
    requires !Named(builders, p.heap, k) && Alive(p.server, k)
    ensures Live(ApplyAll(env, cfg, p, builders).server, k) == Live(p.server, k)
    ensures Alive(end.server, k) <==> !Planned(plan, k)
  {
    var m := ApplyAll(env, cfg, p, builders);
    CleanRun(env, cfg, p, builders, types, plan, end);
    ApplyTouches(env, cfg, p, builders);
    PurgeEmpties(env, cfg, m, types, plan, end);
    assert Live(m.server, k) == Live(p.server, k);
    assert !Planned(plan, k) ==> Live(end.server, k) == Live(m.server, k);
  }

  lemma TypesAreOfMarkable(r: Round, w: World, end: Progress, lists: Lists, scope: GVK -> bool, gk: GroupKind)
    requires GoodRound(r, w, end, lists, scope) && !Untouchable(gk.kind)
    ensures Recorded(w.server, InvKey(r)).Some?
    ensures (exists g :: g in r.types && g.Gk() == gk) <==>
      exists x ::
        x in Recorded(w.server, InvKey(r)).value && Markable(r.env, w.server, scope, Wanted(r, w), x)
            && x.gvk.Gk() == gk
  {
    MarkedForDeletion(r, w, lists, scope);
    var marked := RoundAppend(r, w).0.book.toDelete;
    if g :| g in r.types && g.Gk() == gk {
      var x :| x in marked && x.gvk == g;
      assert x.gvk.Gk() == gk;
    }
  }

  /** A leftover in terms of what was there before the round. An object of the component that nothing in a good
      round names survives it iff no markable recorded reference has its kind. Whether it is itself recorded plays
      no part beyond that: one that the inventory has forgotten needs such company to be purged. */
  lemma LeftoverSurvivesIff(r: Round, w: World, end: Progress, lists: Lists, scope: GVK -> bool, k: Key)
    requires GoodRound(r, w, end, lists, scope) && Owned(w.server, r.cfg.id, k)
    requires !Named(FinalBuilders(r, w), StartWorld(r, w).heap, k)
    ensures Recorded(w.server, InvKey(r)).Some?
    ensures Alive(end.server, k) <==>
      !exists x ::
        x in Recorded(w.server, InvKey(r)).value && Markable(r.env, w.server, scope, Wanted(r, w), x)
            && x.gvk.Gk() == k.gk
  {
    StockTaken(r, w, lists, scope);
    TypesAreOfMarkable(r, w, end, lists, scope, k.gk);
    LeftoverSurvivesRunIff(r.env, r.cfg, RoundStart(StartWorld(r, w)), FinalBuilders(r, w), r.types, r.plan, end, k);
  }

  /** What Append finds when it reads the namespace, and then the inventory. */
  ghost function NamespaceRead(r: Round, w: World): Reply<Stored> {
    GetCall(r.env, w.server, NAMESPACE_GVK, Key(NAMESPACE_GVK.Gk(), "", r.ns)).1
  }

  ghost function InventoryRead(r: Round, w: World): Reply<Stored> {
    GetCall(r.env, AfterNamespace(r, w).server, CONFIG_MAP, InvKey(r)).1
  }

  ghost predicate Fatal(read: Reply<Stored>) {
    read.Err? && read.error != NoMatch && read.error != NotFound
  }

  /** The stored inventory has an entry of fewer than five parts. */
  ghost predicate Garbled(read: Reply<Stored>) {
    read.Ok? && exists item :: item in Split(ReferenceText(read.value.content), ',') && Short(item)
  }

  ghost predicate SomeFails(builders: seq<Builder>) {
    exists i :: 0 <= i < |builders| && builders[i].Fails?
  }

  ghost predicate SomeNil(builders: seq<Builder>) {
    exists i :: 0 <= i < |builders| && builders[i].Nothing? && !IsAbsent(builders[i].state)
  }

  lemma {:induction false} GatherMeans(builders: seq<Builder>)
    ensures Gather(builders).None? <==> SomeFails(builders)
    ensures Gather(builders).Some? ==> (Gather(builders).value.nilled <==> SomeNil(builders))
  {
    if builders != [] {
      var init := builders[..|builders| - 1];
      GatherMeans(init);
      assert forall i :: 0 <= i < |init| ==> init[i] == builders[i];
    }
  }

  /** How drafting the new inventory ends, in terms of what it reads and of the builders. */
  lemma DraftMeans(r: Round, w: World)
    requires InHeap(r.builders, w.heap)
    ensures var draft := InventoryPrepared(r, w).1; var read := InventoryRead(r, w);
      && (draft.Panic? <==> Garbled(read) || (!Fatal(read) && !SomeFails(r.builders) && SomeNil(r.builders)))
      && (draft.NoDraft? <==> Fatal(read) || (!Garbled(read) && SomeFails(r.builders)))
  {
    GatherMeans(r.builders);
    var read := InventoryRead(r, w);
    ParsePanics(if read.Ok? then ReferenceText(read.value.content) else "");
    assert Split("", ',') == [""];
  }

  /** Exactly when an error in drafting is swallowed. If the inventory cannot be read, or a builder fails, Append
      still completes: with the builders as they were, no inventory object, and whatever was marked before. A
      garbled inventory or a nil object is a panic instead. */
  lemma SwallowedIff(r: Round, w: World)
    requires InHeap(r.builders, w.heap)
    ensures var (w1, all, ending) := RoundAppend(r, w); var drafted := InventoryPrepared(r, w).1.Draft?;
      var refused := NamespaceRead(r, w).Err? && NamespaceRead(r, w).error != NotFound; var read := InventoryRead(r, w);
      && (ending == Panicked <==>
        !refused && (Garbled(read) || (!Fatal(read) && !SomeFails(r.builders) && SomeNil(r.builders))))
      && (ending == Completed && !drafted <==> !refused && (Fatal(read) || (!Garbled(read) && SomeFails(r.builders))))
      && (ending == Completed && !drafted ==>
            && all == r.builders && w1.book.toDelete == w.book.toDelete && w1.heap == w.heap
            && w1.server == w.server.(calls := w.server.calls + 2))
  {
    DraftMeans(r, w);
  }

  /** A wrapped absence: the object is deleted, and yet recorded among the objects present. Of the states that delete,
      the static one alone is recorded as absent. */
  lemma WrappedAbsenceIsRecordedPresent(env: Env, opts: Options, p: Progress, o: RuntimeObject, state: DesiredState)
    requires o in p.heap && p.heap[o].gvk in env.served && Plain(state) && Resolve(state) == Remove
    requires Apply(env, opts, p, o, state).combined.errors == []
    ensures var q := Apply(env, opts, p, o, state);
      && !Alive(q.server, p.heap[o].Id())
      && (state == Static(StateAbsent) ==> q.present == p.present && q.absent == p.absent + [p.heap[o]])
      && (state != Static(StateAbsent) ==> q.present == p.present + [p.heap[o]] && q.absent == p.absent)
  {
    SuccessSettles(env, opts, p.server, p.heap[o], state);
  }
}
