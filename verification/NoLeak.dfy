/** No object of a component is ever lost: whatever the rounds want, what they no longer want is purged. */
module NoLeak {
  import opened Objects
  import opened Cluster
  import opened DesiredStates
  import opened Identity
  import opened Scope
  import opened InventoryText
  import opened NativeMachine
  import opened InventoryMachine
  import opened Convergence
  import opened RunFrames
  import opened PurgeProperties
  import opened Normalization
  import opened RoundFacts

  /** A live, purgeable object of the component. */
  predicate Owned(s: Server, id: string, key: Key) {
    && Alive(s, key) && key.name != "" && !Untouchable(key.gk.kind)
    && MANAGED_COMPONENT in s.live[key].content.annotations && s.live[key].content.annotations[MANAGED_COMPONENT] == id
  }

  /** The invariant between rounds: the stored inventory is readable, names cluster-scoped objects without a
      namespace and no others, and lists every object of the component but itself. */
  ghost predicate Accounted(s: Server, id: string, inventory: Key, scope: GVK -> bool) {
    && Recorded(s, inventory).Some?
    && (forall r :: r in Recorded(s, inventory).value && r.ns == "" ==> scope(r.gvk))
    && (forall k :: Owned(s, id, k) ==> k == inventory || Listed(Recorded(s, inventory).value, k))
  }

  /** What the no-leak argument needs to know of one round, in terms of the run alone: `recorded` is what the
      inventory said before, `wanted` what it will say. */
  ghost predicate Covered(env: Env, cfg: Config, p: Progress, builders: seq<Builder>, types: seq<GVK>, inventory: Key,
                          recorded: seq<Ref>, wanted: seq<Ref>, scope: GVK -> bool)
  {
    && InHeap(builders, p.heap) && p.visited == {}
    // what builders name is wanted, or the inventory, or to be absent
    && (forall i :: 0 <= i < |builders| && Takes(builders[i]) ==>
          Expected(env, builders[i], p.heap[builders[i].target], inventory, wanted))
    // recorded leftovers are purged by type
    && (forall x :: x in recorded && x.ns == "" ==> scope(x.gvk))
    && (forall x :: x in recorded && Stale(p.server, scope, wanted, x) ==> x.gvk in types)
    // everything of the component is recorded
    && (forall k :: Owned(p.server, cfg.id, k) ==> k == inventory || Listed(recorded, k))
    // and told apart from what the builders name
    && (forall k, k' :: Owned(p.server, cfg.id, k) && Named(builders, p.heap, k') && KeyID(k) == KeyID(k') ==> k == k')
  }

  ghost predicate Expected(env: Env, b: Builder, o: Obj, inventory: Key, wanted: seq<Ref>)
    requires b.Builds?
  {
    o.Id() == inventory || Listed(wanted, o.Id()) || (IsAbsent(b.state) && o.gvk in env.served)
  }

  /** An object that some builder names is wanted, or the inventory, or gone. */
  lemma NamedIsWantedOrGone(env: Env, cfg: Config, p: Progress, builders: seq<Builder>, types: seq<GVK>,
                            plan: seq<Obj>, end: Progress,
                            inventory: Key, recorded: seq<Ref>, wanted: seq<Ref>, scope: GVK -> bool, k: Key)
    requires IsRun(env, cfg, p, builders, types, plan, end) && end.combined.errors == []
    requires Covered(env, cfg, p, builders, types, inventory, recorded, wanted, scope)
    requires Named(builders, p.heap, k)
    ensures k == inventory || Listed(wanted, k) || !Alive(end.server, k)
  {
    CleanRun(env, cfg, p, builders, types, plan, end);
    CleanApplyVisitsAll(env, cfg, p, builders);
    VisitedSurvivesPurge(env, cfg, p, builders, types, plan, end, k);
    if k != inventory && !Listed(wanted, k) {
      forall i | 0 <= i < |builders| && Takes(builders[i]) && p.heap[builders[i].target].Id() == k
        ensures IsAbsent(builders[i].state) && p.heap[builders[i].target].gvk in env.served
      {
        assert Expected(env, builders[i], p.heap[builders[i].target], inventory, wanted);
      }
      OnlyAbsentIsGone(env, cfg, p, builders, k);
    }
  }

  /** A run without an error had none in its apply loop. */
  lemma CleanRun(env: Env, cfg: Config, p: Progress, builders: seq<Builder>, types: seq<GVK>, plan: seq<Obj>,
                 end: Progress)
    requires IsRun(env, cfg, p, builders, types, plan, end) && end.combined.errors == []
    ensures ApplyAll(env, cfg, p, builders).combined.errors == []
  {
  }

  /** What no builder names and the run leaves alive was there before, and was not purged. */
  lemma UnnamedIsOld(env: Env, cfg: Config, p: Progress, builders: seq<Builder>, types: seq<GVK>, plan: seq<Obj>,
                     end: Progress, k: Key)
    requires IsRun(env, cfg, p, builders, types, plan, end) && end.combined.errors == []
    requires !Named(builders, p.heap, k) && Alive(end.server, k)
    ensures var m := ApplyAll(env, cfg, p, builders);
      Live(end.server, k) == Live(m.server, k) == Live(p.server, k) && !Planned(plan, k)
  {
    var m := ApplyAll(env, cfg, p, builders);
    CleanRun(env, cfg, p, builders, types, plan, end);
    ApplyTouches(env, cfg, p, builders);
    DeleteAllEffect(env, m.(server := m.server.(calls := Listing(env, cfg.mapper, m.server.calls, types).0)), plan);
  }

  /** Leftovers are purged: an object of the component that is unnamed, alive after the apply loop, and of a
      type that could be listed. */
  lemma LeftoverIsPlanned(env: Env, cfg: Config, p: Progress, builders: seq<Builder>, types: seq<GVK>, plan: seq<Obj>,
                          end: Progress, gvk: GVK, k: Key)
    requires IsRun(env, cfg, p, builders, types, plan, end) && end.combined.errors == [] && p.visited == {}
    requires !Named(builders, p.heap, k) && Owned(p.server, cfg.id, k) && gvk.Gk() == k.gk
    requires Live(ApplyAll(env, cfg, p, builders).server, k) == Live(p.server, k)
    requires gvk in Listing(env, cfg.mapper, ApplyAll(env, cfg, p, builders).server.calls, types).1
    requires forall k' :: Named(builders, p.heap, k') && KeyID(k) == KeyID(k') ==> k == k'
    ensures Planned(plan, k)
  {
    var m := ApplyAll(env, cfg, p, builders);
    CleanRun(env, cfg, p, builders, types, plan, end);
    CleanApplyVisitsAll(env, cfg, p, builders);
    PurgeIsPlanned(env, cfg, p, builders, types, plan, end);
    var o := Shown(gvk, k, m.server.live[k]);
    assert o.Id() == k;
    assert o in plan;
  }

  /** After a covered run every live object of the component is wanted, or is the inventory. */
  lemma CoveredRunLeavesNoLeak(env: Env, cfg: Config, p: Progress, builders: seq<Builder>, types: seq<GVK>,
                               plan: seq<Obj>, end: Progress,
                               inventory: Key, recorded: seq<Ref>, wanted: seq<Ref>, scope: GVK -> bool, k: Key)
    requires IsRun(env, cfg, p, builders, types, plan, end) && end.combined.errors == []
    requires Covered(env, cfg, p, builders, types, inventory, recorded, wanted, scope)
    requires AllListed(env, cfg, ApplyAll(env, cfg, p, builders).server.calls, types)
    requires forall g :: g in types ==> MapperAdmits(cfg.mapper, g)
    requires Owned(end.server, cfg.id, k)
    ensures k == inventory || Listed(wanted, k)
  {
    if Named(builders, p.heap, k) {
      NamedIsWantedOrGone(env, cfg, p, builders, types, plan, end, inventory, recorded, wanted, scope, k);
    } else {
      UnnamedIsOld(env, cfg, p, builders, types, plan, end, k);
      if k != inventory {
        assert Owned(p.server, cfg.id, k);
        var x :| x in recorded && x.Id() == k;
        if x in wanted {
          assert Listed(wanted, k);
        } else {
          assert Stale(p.server, scope, wanted, x);
          AllListedMeans(env, cfg, ApplyAll(env, cfg, p, builders).server.calls, types);
          LeftoverIsPlanned(env, cfg, p, builders, types, plan, end, x.gvk, k);
        }
      }
    }
  }

  /** The world in which the run of a round starts, and its builders with overrides stacked. */
  ghost function StartWorld(r: Round, w: World): World
    requires InHeap(r.builders, w.heap)
  {
    RoundAppend(r, w).0
  }

  ghost function FinalBuilders(r: Round, w: World): (final: seq<Builder>)
    requires InHeap(r.builders, w.heap)
    ensures InHeap(final, StartWorld(r, w).heap)
  {
    WithOverrides(r.overrides, RoundAppend(r, w).1, StartWorld(r, w).heap)
  }

  ghost function AppliedIn(r: Round, w: World): Progress
    requires InHeap(r.builders, w.heap)
  {
    ApplyAll(r.env, r.cfg, RoundStart(StartWorld(r, w)), FinalBuilders(r, w))
  }

  /** A round that goes well: it ends without an error and without one of the failures the code swallows, and every
      purge type is one that the mapper does not rule out and whose list is answered. */
  ghost predicate WentWell(r: Round, w: World, end: Progress) {
    && IsRound(r, w, end) && end.combined.errors == []
    && CONFIG_MAP in r.env.served && InventoryPrepared(r, w).1.Draft? && NothingLeaves(r, w)
    && AllListed(r.env, r.cfg, AppliedIn(r, w).server.calls, r.types)
    && forall g :: g in r.types ==> MapperAdmits(r.cfg.mapper, g)
  }

  /** Wanted objects can be written down, and live objects of the component do not share a resource ID with a
      different object of the round. */
  ghost predicate NamesWell(r: Round, w: World)
    requires InHeap(r.builders, w.heap) && CollectDesired(r.builders).Some?
  {
    && r.ns != ""
    && (forall x :: x in Wanted(r, w) ==> Clean(x))
    && (forall k, k' :: Owned(w.server, r.cfg.id, k) && KeyID(k) == KeyID(k') ==>
          Named(FinalBuilders(r, w), StartWorld(r, w).heap, k') ==> k == k')
  }

  /** The inventory object belongs to the round alone: no other builder names it, nothing overrides or rewrites
      it, it is not terminating, and config maps are not recreated. */
  ghost predicate InventoryUndisturbed(r: Round, w: World)
    requires InHeap(r.builders, w.heap) && CollectDesired(r.builders).Some?
  {
    && (InvKey(r) in w.server.live ==> !w.server.live[InvKey(r)].deleting)
    && (forall i :: 0 <= i < |r.builders| && r.builders[i].Builds? ==>
      Normalized(r, w)[r.builders[i].target].Id() != InvKey(r))
    && OverrideFor(r.overrides, NewInventory(r, w)).None?
    && InventoryKept(r.cfg, NewInventory(r, w))
    && forall st :: !r.cfg.opts.recreatable(CONFIG_MAP, st)
  }

  /** What is built absent is not overridden, and its type is served. */
  ghost predicate AbsenceStands(r: Round, w: World)
    requires InHeap(r.builders, w.heap) && CollectDesired(r.builders).Some?
  {
    forall i :: 0 <= i < |r.builders| && r.builders[i].Builds? && IsAbsent(r.builders[i].state) ==>
      var o := Normalized(r, w)[r.builders[i].target];
      OverrideFor(r.overrides, o).None? && o.gvk in r.env.served
  }

  ghost predicate GoodRound(r: Round, w: World, end: Progress, lists: Lists, scope: GVK -> bool) {
    && WentWell(r, w, end)
    && ScopesKnown(r, w, lists, scope)
    && CollectDesired(r.builders).Some?
    && NamesWell(r, w) && InventoryUndisturbed(r, w) && AbsenceStands(r, w)
  }

  lemma {:induction false} CollectedIsIn(builders: seq<Builder>, i: nat)
    requires CollectDesired(builders).Some? && i < |builders| && builders[i].Builds? && !IsAbsent(builders[i].state)
    ensures builders[i].target in CollectDesired(builders).value
  {
    if i < |builders| - 1 {
      CollectedIsIn(builders[..|builders| - 1], i);
    }
  }

  /** The given builders, with overrides stacked, stay within what is wanted. */
  lemma GivenIsExpected(env: Env, overrides: Overrides, builders: seq<Builder>, heap: Heap, inventory: Key, i: nat)
    requires InHeap(builders, heap) && CollectDesired(builders).Some? && i < |builders| && builders[i].Builds?
    requires IsAbsent(builders[i].state) ==>
      OverrideFor(overrides, heap[builders[i].target]).None? && heap[builders[i].target].gvk in env.served
    ensures Held(CollectDesired(builders).value, heap)
    ensures Expected(env, WithOverrides(overrides, builders, heap)[i], heap[builders[i].target], inventory,
                     RefsOf(CollectDesired(builders).value, heap))
  {
    var wanted := RefsOf(CollectDesired(builders).value, heap);
    if !IsAbsent(builders[i].state) {
      CollectedIsIn(builders, i);
      var j :| 0 <= j < |CollectDesired(builders).value| && CollectDesired(builders).value[j] == builders[i].target;
      assert wanted[j] in wanted && wanted[j].Id() == heap[builders[i].target].Id();
      assert Listed(wanted, heap[builders[i].target].Id());
    }
  }

  /** No builder hands out an object with a nil state. */
  predicate StatesGiven(builders: seq<Builder>) {
    forall i :: 0 <= i < |builders| && builders[i].Builds? ==> !builders[i].state.NoState?
  }

  lemma WantedHasBuilder(builders: seq<Builder>, heap: Heap, x: Ref) returns (j: nat)
    requires InHeap(builders, heap) && CollectDesired(builders).Some?
    requires Held(CollectDesired(builders).value, heap) && x in RefsOf(CollectDesired(builders).value, heap)
    ensures j < |builders| && builders[j].Builds? && heap[builders[j].target].Id() == x.Id()
  {
    var wanted := CollectDesired(builders).value;
    var i :| 0 <= i < |wanted| && RefsOf(wanted, heap)[i] == x;
    j :| 0 <= j < |builders| && BuildsThis(builders[j], wanted[i]);
  }

  /** Whatever is wanted is named by a builder of the run. */
  lemma WantedIsNamedBy(overrides: Overrides, builders: seq<Builder>, heap: Heap, box: RuntimeObject, cm: Obj,
                        all: seq<Builder>, heap': Heap, x: Ref)
    requires InHeap(builders, heap) && CollectDesired(builders).Some? && box !in heap && StatesGiven(builders)
    requires Held(CollectDesired(builders).value, heap) && x in RefsOf(CollectDesired(builders).value, heap)
    requires (all == builders && heap' == heap)
        || (all == builders + [Builds(box, Static(StatePresent))] && heap' == heap[box := cm])
    requires InHeap(all, heap')
    ensures Named(WithOverrides(overrides, all, heap'), heap', x.Id())
  {
    var j := WantedHasBuilder(builders, heap, x);
    assert all[j] == builders[j];
    assert Takes(WithOverrides(overrides, all, heap')[j]);
  }

  /** When no builder asks for absence, none of the run does. */
  lemma NoneIsAbsent(overrides: Overrides, builders: seq<Builder>, box: RuntimeObject, all: seq<Builder>, heap': Heap,
                     i: nat)
    requires forall j :: 0 <= j < |builders| && builders[j].Builds? ==> !IsAbsent(builders[j].state)
    requires all == builders || all == builders + [Builds(box, Static(StatePresent))]
    requires InHeap(all, heap') && i < |all| && all[i].Builds?
    ensures !IsAbsent(WithOverrides(overrides, all, heap')[i].state)
  {
    assert i < |builders| ==> all[i] == builders[i];
  }

  /** So do all of them once the inventory object is added. */
  lemma AllAreExpected(env: Env, overrides: Overrides, builders: seq<Builder>, heap: Heap, box: RuntimeObject, cm: Obj,
                       all: seq<Builder>, heap': Heap, i: nat)
    requires InHeap(builders, heap) && CollectDesired(builders).Some? && box !in heap
    requires forall j :: 0 <= j < |builders| && builders[j].Builds? && IsAbsent(builders[j].state) ==>
      OverrideFor(overrides, heap[builders[j].target]).None? && heap[builders[j].target].gvk in env.served
    requires (all == builders && heap' == heap)
        || (all == builders + [Builds(box, Static(StatePresent))] && heap' == heap[box := cm])
    requires InHeap(all, heap') && i < |all| && Takes(WithOverrides(overrides, all, heap')[i])
    ensures Held(CollectDesired(builders).value, heap)
    ensures Expected(env, WithOverrides(overrides, all, heap')[i], heap'[all[i].target], cm.Id(),
                     RefsOf(CollectDesired(builders).value, heap))
  {
    if i < |builders| {
      assert all[i] == builders[i];
      GivenIsExpected(env, overrides, builders, heap, cm.Id(), i);
    } else {
      assert CollectDesired(builders).Some? && Held(CollectDesired(builders).value, heap);
    }
  }

  lemma FinalIsExpected(r: Round, w: World, end: Progress, lists: Lists, scope: GVK -> bool, i: nat)
    requires GoodRound(r, w, end, lists, scope)
    requires i < |FinalBuilders(r, w)| && Takes(FinalBuilders(r, w)[i])
    ensures var b := FinalBuilders(r, w)[i];
      Expected(r.env, b, StartWorld(r, w).heap[b.target], InvKey(r), Wanted(r, w))
  {
    StockTaken(r, w, lists, scope);
    AllAreExpected(r.env, r.overrides, r.builders, Normalized(r, w), r.box, NewInventory(r, w), RoundAppend(r, w).1,
                   StartWorld(r, w).heap, i);
  }

  /** What is recorded of a round is applied in it. */
  lemma WantedIsNamed(r: Round, w: World, end: Progress, lists: Lists, scope: GVK -> bool, x: Ref)
    requires GoodRound(r, w, end, lists, scope) && StatesGiven(r.builders) && x in Wanted(r, w)
    ensures Named(FinalBuilders(r, w), StartWorld(r, w).heap, x.Id())
  {
    StockTaken(r, w, lists, scope);
    WantedIsNamedBy(r.overrides, r.builders, Normalized(r, w), r.box, NewInventory(r, w), RoundAppend(r, w).1,
                    StartWorld(r, w).heap, x);
  }

  /** The keys recorded are the keys applied, apart from the inventory's own, when no builder asks for absence. */
  lemma RecordedKeysAreAppliedKeys(r: Round, w: World, end: Progress, lists: Lists, scope: GVK -> bool, k: Key)
    requires GoodRound(r, w, end, lists, scope) && StatesGiven(r.builders) && k != InvKey(r)
    requires forall i :: 0 <= i < |r.builders| && r.builders[i].Builds? ==> !IsAbsent(r.builders[i].state)
    ensures Named(FinalBuilders(r, w), StartWorld(r, w).heap, k) <==> Listed(Wanted(r, w), k)
  {
    if Listed(Wanted(r, w), k) {
      var x :| x in Wanted(r, w) && x.Id() == k;
      WantedIsNamed(r, w, end, lists, scope, x);
    }
    var final, heap := FinalBuilders(r, w), StartWorld(r, w).heap;
    if i :| 0 <= i < |final| && Takes(final[i]) && heap[final[i].target].Id() == k {
      FinalIsExpected(r, w, end, lists, scope, i);
      FinalIsNotAbsent(r, w, end, lists, scope, i);
    }
  }

  lemma FinalIsNotAbsent(r: Round, w: World, end: Progress, lists: Lists, scope: GVK -> bool, i: nat)
    requires GoodRound(r, w, end, lists, scope)
    requires forall i :: 0 <= i < |r.builders| && r.builders[i].Builds? ==> !IsAbsent(r.builders[i].state)
    requires i < |FinalBuilders(r, w)| && Takes(FinalBuilders(r, w)[i])
    ensures !IsAbsent(FinalBuilders(r, w)[i].state)
  {
    StockTaken(r, w, lists, scope);
    NoneIsAbsent(r.overrides, r.builders, r.box, RoundAppend(r, w).1, StartWorld(r, w).heap, i);
  }

  lemma RoundIsCovered(r: Round, w: World, end: Progress, lists: Lists, scope: GVK -> bool)
    requires GoodRound(r, w, end, lists, scope) && Accounted(w.server, r.cfg.id, InvKey(r), scope)
    ensures Recorded(w.server, InvKey(r)).Some?
    ensures Covered(r.env, r.cfg, RoundStart(StartWorld(r, w)), FinalBuilders(r, w), r.types, InvKey(r),
                    Recorded(w.server, InvKey(r)).value, Wanted(r, w), scope)
  {
    var p, final := RoundStart(StartWorld(r, w)), FinalBuilders(r, w);
    StockTaken(r, w, lists, scope);
    MarkedForDeletion(r, w, lists, scope);
    forall i | 0 <= i < |final| && Takes(final[i])
      ensures Expected(r.env, final[i], p.heap[final[i].target], InvKey(r), Wanted(r, w))
    {
      FinalIsExpected(r, w, end, lists, scope, i);
    }
    forall x | x in Recorded(w.server, InvKey(r)).value && Stale(p.server, scope, Wanted(r, w), x)
      ensures x.gvk in r.types
    {
      assert Stale(w.server, scope, Wanted(r, w), x);
    }
    forall k
      ensures Owned(p.server, r.cfg.id, k) <==> Owned(w.server, r.cfg.id, k)
    {
    }
  }

  /** After a good round every live object of the component is wanted, or is the inventory. */
  lemma RoundLeavesNoLeak(r: Round, w: World, end: Progress, lists: Lists, scope: GVK -> bool)
    requires GoodRound(r, w, end, lists, scope) && Accounted(w.server, r.cfg.id, InvKey(r), scope)
    ensures forall k :: Owned(end.server, r.cfg.id, k) ==> k == InvKey(r) || Listed(Wanted(r, w), k)
  {
    RoundIsCovered(r, w, end, lists, scope);
    forall k | Owned(end.server, r.cfg.id, k)
      ensures k == InvKey(r) || Listed(Wanted(r, w), k)
    {
      CoveredRunLeavesNoLeak(r.env, r.cfg, RoundStart(StartWorld(r, w)), FinalBuilders(r, w), r.types, r.plan, end,
                             InvKey(r), Recorded(w.server, InvKey(r)).value, Wanted(r, w), scope, k);
    }
  }

  lemma NormalRefsAreScoped(sc: Scoping, namespace: string, s: Scopes, lists: Lists, scope: GVK -> bool, heap: Heap,
                            objects: seq<RuntimeObject>)
    requires Held(objects, heap) && Ready(sc, s, lists) && namespace != ""
    requires forall i :: 0 <= i < |objects| ==>
      ScopeFor(sc, s.statics, lists, heap[objects[i]].gvk) == Some(scope(heap[objects[i]].gvk))
    ensures forall x :: x in RefsOf(objects, Normalize(sc, namespace, s, heap, objects).1) ==>
      (x.ns == "" <==> scope(x.gvk))
  {
    NormalizedObjects(sc, namespace, s, lists, heap, objects);
    var refs := RefsOf(objects, Normalize(sc, namespace, s, heap, objects).1);
    forall x | x in refs
      ensures x.ns == "" <==> scope(x.gvk)
    {
      var i :| 0 <= i < |objects| && refs[i] == x;
      assert objects[i] in objects;
    }
  }

  /** Wanted references name cluster-scoped objects, and only those, without a namespace. */
  lemma WantedIsScoped(r: Round, w: World, end: Progress, lists: Lists, scope: GVK -> bool)
    requires GoodRound(r, w, end, lists, scope)
    ensures forall x :: x in Wanted(r, w) ==> (x.ns == "" <==> scope(x.gvk))
  {
    NormalRefsAreScoped(r.sc, r.ns, w.scopes, lists, scope, w.heap, CollectDesired(r.builders).value);
  }

  /** With nothing wanted the stored inventory keeps its text, or is purged with everything else. */
  lemma OldInventoryStays(r: Round, w: World, end: Progress, lists: Lists, scope: GVK -> bool)
    requires GoodRound(r, w, end, lists, scope) && Wanted(r, w) == []
    ensures Recorded(end.server, InvKey(r)) == Recorded(w.server, InvKey(r))
        || Recorded(end.server, InvKey(r)) == Some([])
  {
    StockTaken(r, w, lists, scope);
    UnrecordedInventoryIsUnnamed(r, w);
    TextStays(r.env, r.cfg, RoundStart(StartWorld(r, w)), FinalBuilders(r, w), r.types, r.plan, end, InvKey(r));
  }

  lemma UnrecordedInventoryIsUnnamed(r: Round, w: World)
    requires InHeap(r.builders, w.heap) && CollectDesired(r.builders).Some? && InventoryUndisturbed(r, w)
    requires RoundAppend(r, w).1 == r.builders && StartWorld(r, w).heap == Normalized(r, w)
    ensures !Named(FinalBuilders(r, w), StartWorld(r, w).heap, InvKey(r))
  {
  }

  /** A run leaves the text of an inventory that it does not name, unless it purges it. */
  lemma TextStays(env: Env, cfg: Config, p: Progress, builders: seq<Builder>, types: seq<GVK>, plan: seq<Obj>,
                  end: Progress, key: Key)
    requires IsRun(env, cfg, p, builders, types, plan, end) && end.combined.errors == []
    requires !Named(builders, p.heap, key)
    ensures Recorded(end.server, key) == Recorded(p.server, key) || Recorded(end.server, key) == Some([])
  {
    var m := ApplyAll(env, cfg, p, builders);
    CleanRun(env, cfg, p, builders, types, plan, end);
    ApplyTouches(env, cfg, p, builders);
    DeleteAllKeepsContent(env, m.(server := m.server.(calls := Listing(env, cfg.mapper, m.server.calls, types).0)),
                          plan, key);
    ParseUndoesPrint([]);
  }

  /** The inventory object, applied last and without an error, is stored and survives the purge. */
  lemma InventorySurvives(env: Env, cfg: Config, p: Progress, init: seq<Builder>, box: RuntimeObject, types: seq<GVK>,
                          plan: seq<Obj>, end: Progress)
    requires IsRun(env, cfg, p, init + [Builds(box, Static(StatePresent))], types, plan, end)
    requires end.combined.errors == []
    requires InHeap(init, p.heap) && box in p.heap && InventoryKept(cfg, p.heap[box])
    requires p.heap[box].gvk == CONFIG_MAP && p.heap[box].content.body.ConfigMapBody?
    requires !Named(init, p.heap, p.heap[box].Id())
    requires p.heap[box].Id() in p.server.live ==> !p.server.live[p.heap[box].Id()].deleting
    requires forall st :: !cfg.opts.recreatable(CONFIG_MAP, st)
    ensures var key := p.heap[box].Id();
      key in end.server.live && end.server.live[key].content.body == p.heap[box].content.body
  {
    var final := init + [Builds(box, Static(StatePresent))];
    CleanRun(env, cfg, p, final, types, plan, end);
    InventoryStored(env, cfg, p, init, box);
    assert Named(final, p.heap, p.heap[box].Id()) by { assert Takes(final[|init|]); }
    CleanApplyVisitsAll(env, cfg, p, final);
    VisitedSurvivesPurge(env, cfg, p, final, types, plan, end, p.heap[box].Id());
  }

  /** Adding the inventory object last, without an override of its own, and stacking the overrides. */
  lemma RecordingBuilders(overrides: Overrides, builders: seq<Builder>, heap: Heap, box: RuntimeObject, cm: Obj)
    requires InHeap(builders, heap) && box !in heap && OverrideFor(overrides, cm).None?
    requires forall i :: 0 <= i < |builders| && builders[i].Builds? ==> heap[builders[i].target].Id() != cm.Id()
    ensures var init, heap' := WithOverrides(overrides, builders, heap), heap[box := cm];
      && InHeap(builders + [Builds(box, Static(StatePresent))], heap')
      && WithOverrides(overrides, builders + [Builds(box, Static(StatePresent))], heap')
        == init + [Builds(box, Static(StatePresent))]
      && InHeap(init, heap') && !Named(init, heap', cm.Id())
  {
  }

  lemma RecordedText(s: Server, key: Key, ns: string, name: string, refs: seq<Ref>)
    requires key in s.live && s.live[key].content.body == InventoryObject(ns, name, refs).content.body
    requires forall x :: x in refs ==> Clean(x)
    ensures Recorded(s, key) == Some(refs)
  {
    ParseUndoesPrint(refs);
  }

  /** Otherwise the stored inventory now says exactly what is wanted. */
  lemma NewInventoryIsStored(r: Round, w: World, end: Progress, lists: Lists, scope: GVK -> bool)
    requires GoodRound(r, w, end, lists, scope) && Wanted(r, w) != []
    ensures Recorded(end.server, InvKey(r)) == Some(Wanted(r, w))
  {
    StockTaken(r, w, lists, scope);
    RecordingBuilders(r.overrides, r.builders, Normalized(r, w), r.box, NewInventory(r, w));
    InventorySurvives(r.env, r.cfg, RoundStart(StartWorld(r, w)),
                      WithOverrides(r.overrides, r.builders, Normalized(r, w)), r.box, r.types, r.plan, end);
    RecordedText(end.server, InvKey(r), r.ns, InvKey(r).name, Wanted(r, w));
  }

  /** A good round keeps the books: the invariant holds again for the next round. */
  lemma RoundKeepsAccounts(r: Round, w: World, end: Progress, lists: Lists, scope: GVK -> bool)
    requires GoodRound(r, w, end, lists, scope) && Accounted(w.server, r.cfg.id, InvKey(r), scope)
    ensures Accounted(end.server, r.cfg.id, InvKey(r), scope)
  {
    RoundLeavesNoLeak(r, w, end, lists, scope);
    if Wanted(r, w) == [] {
      OldInventoryStays(r, w, end, lists, scope);
    } else {
      NewInventoryIsStored(r, w, end, lists, scope);
      WantedIsScoped(r, w, end, lists, scope);
    }
  }

  /** One finished round, with the world it started from. */
  datatype Finished = Finished(round: Round, before: World, end: Progress, lists: Lists)

  /** What others may do between two rounds: anything that neither creates, marks nor revives an object of the
      component and that leaves the stored inventory's text alone. */
  ghost predicate Undisturbed(s: Server, s': Server, id: string, inventory: Key) {
    && (forall k :: Owned(s', id, k) ==> Owned(s, id, k))
    && Recorded(s', inventory) == Recorded(s, inventory)
  }

  ghost predicate Rounds(history: seq<Finished>, id: string, inventory: Key, scope: GVK -> bool) {
    && (forall i :: 0 <= i < |history| ==>
          && GoodRound(history[i].round, history[i].before, history[i].end, history[i].lists, scope)
          && history[i].round.cfg.id == id && InvKey(history[i].round) == inventory)
    && (forall i :: 0 < i < |history| ==>
      Undisturbed(history[i - 1].end.server, history[i].before.server, id, inventory))
  }

  /** No leak over whole histories. Start where the stored inventory, if there is one, accounts for every object of
      the component. Then after every round of any sequence of good rounds, with arbitrary wanted objects in each,
      all live objects of the component are the ones wanted in that round and the inventory. */
  lemma {:induction false} NothingEverLeaks(history: seq<Finished>, id: string, inventory: Key, scope: GVK -> bool,
      n: nat)
    requires Rounds(history, id, inventory, scope) && n < |history|
    requires Accounted(history[0].before.server, id, inventory, scope)
    ensures forall k :: Owned(history[n].end.server, id, k) ==>
      k == inventory || Listed(Wanted(history[n].round, history[n].before), k)
    ensures Accounted(history[n].end.server, id, inventory, scope)
  {
    var h := history[n];
    if n > 0 {
      NothingEverLeaks(history, id, inventory, scope, n - 1);
    }
    assert Accounted(h.before.server, id, inventory, scope);
    RoundLeavesNoLeak(h.round, h.before, h.end, h.lists, scope);
    RoundKeepsAccounts(h.round, h.before, h.end, h.lists, scope);
  }

  /** A start without any object of the component and without an inventory will do. */
  lemma NothingLeaksFromScratch(history: seq<Finished>, id: string, inventory: Key, scope: GVK -> bool, n: nat)
    requires Rounds(history, id, inventory, scope) && n < |history|
    requires inventory !in history[0].before.server.live && forall k :: !Owned(history[0].before.server, id, k)
    ensures forall k :: Owned(history[n].end.server, id, k) ==>
      k == inventory || Listed(Wanted(history[n].round, history[n].before), k)
  {
    ParseUndoesPrint([]);
    NothingEverLeaks(history, id, inventory, scope, n);
  }
}
