/** Running again after a clean run asks the API server for no write, whatever it answers. */
module Quiescence {
  import opened Objects
  import opened Cluster
  import opened DesiredStates
  import opened Identity
  import opened Convergence
  import opened NativeMachine
  import opened RunFrames
  import opened PurgeProperties
  import opened RunConvergence

  ghost predicate NeedsNothing(cfg: Config, s: Server, d: Obj, ds: DesiredState) {
    Prepare(cfg, d).error.None? && InSync(StateFor(cfg, d, ds), Live(s, d.Id()), Desired(cfg, d).content)
  }

  /** Preparing an object anew only restores its component annotation. */
  lemma PrepareAgain(cfg: Config, was: Obj, again: Obj)
    requires cfg.modifiers == [] && Prepare(cfg, was).error.None? && again.SameIdentity(was)
    requires RELATED_TO in again.content.annotations && again.content.annotations[RELATED_TO] == RelatedTo(cfg.owner)
    requires MANAGED_COMPONENT in again.content.annotations ==> again.content.annotations[MANAGED_COMPONENT] == cfg.id
    requires again.content.controller == Desired(cfg, was).content.controller
    ensures Prepare(cfg, again) == Prepared(WithAnnotation(again, MANAGED_COMPONENT, cfg.id), None)
  {
    var annotated := AddComponentID(again, cfg.id).value;
    assert annotated.content.annotations == again.content.annotations[MANAGED_COMPONENT := cfg.id];
    assert annotated.content.annotations[RELATED_TO := RelatedTo(cfg.owner)] == annotated.content.annotations;
  }

  /** What preparing without modifiers puts into the annotations. */
  lemma PreparedMeta(cfg: Config, was: Obj)
    requires cfg.modifiers == [] && Prepare(cfg, was).error.None?
    ensures var a := Desired(cfg, was).content.annotations;
      && MANAGED_COMPONENT in a && a[MANAGED_COMPONENT] == cfg.id
      && RELATED_TO in a && a[RELATED_TO] == RelatedTo(cfg.owner)
      && a - {MANAGED_COMPONENT, RELATED_TO} == was.content.annotations - {MANAGED_COMPONENT, RELATED_TO}
  {
  }

  /** A desired annotation reaches the stored object, the component's own if the object has one at all. */
  lemma LandedAnnotation(ds: DesiredState, before: Option<Content>, d: Content, after: Content, key: string)
    requires Landed(ds, before, d, after) && key in d.annotations
    ensures key in after.annotations ==> after.annotations[key] == d.annotations[key]
    ensures key != MANAGED_COMPONENT ==> key in after.annotations
  {
    LandedMeta(ds, before, d, after);
  }

  /** The original objects, built afresh, need nothing after a clean run. */
  lemma FreshNeedsNothing(cfg: Config, before: Server, after: Server, was: Obj, now: Obj, ds: DesiredState)
    requires Plain(ds) && Done(cfg, before, after, was, now, ds)
    requires was.Id() in after.live ==> !after.live[was.Id()].deleting
    requires Resolve(StateFor(cfg, was, ds)) == Converge ==>
      AllocationSafe(StateFor(cfg, was, ds), Desired(cfg, was).content.body)
    ensures NeedsNothing(cfg, after, was, ds)
  {
    var d, state := Desired(cfg, was), StateFor(cfg, was, ds);
    var b := Live(before, was.Id());
    PrepareKeepsIdentity(cfg, was);
    if Resolve(state) == Converge && MANAGED_COMPONENT in d.content.annotations {
      LandedAnnotation(state, if b.Some? then Some(b.value.content)
          else None, d.content, after.live[was.Id()].content, MANAGED_COMPONENT);
    }
    SettledIsInSync(state, b, d, Live(after, was.Id()), d.content);
  }

  /** What was stored for a prepared object is accepted by preparing it once more, which restates it. */
  lemma StoredIsPreparable(cfg: Config, state: DesiredState, before: Option<Content>, was: Obj, stored: Content)
    requires cfg.modifiers == [] && Prepare(cfg, was).error.None?
    requires Landed(state, before, Desired(cfg, was).content, stored)
    ensures RELATED_TO in stored.annotations && stored.annotations[RELATED_TO] == RelatedTo(cfg.owner)
    ensures MANAGED_COMPONENT in stored.annotations ==> stored.annotations[MANAGED_COMPONENT] == cfg.id
    ensures stored.controller == Desired(cfg, was).content.controller
    ensures Restates(stored.(annotations := stored.annotations[MANAGED_COMPONENT := cfg.id]),
                     Desired(cfg, was).content, stored)
  {
    var d := Desired(cfg, was).content;
    PreparedMeta(cfg, was);
    LandedMeta(state, before, d, stored);
    LandedAnnotation(state, before, d, stored, MANAGED_COMPONENT);
    LandedAnnotation(state, before, d, stored, RELATED_TO);
    var again := stored.annotations[MANAGED_COMPONENT := cfg.id];
    assert again - {MANAGED_COMPONENT} == stored.annotations - {MANAGED_COMPONENT};
  }

  /** An object that the first run left in memory as it is stored needs nothing. */
  lemma StoredNeedsNothing(cfg: Config, before: Server, after: Server, was: Obj, now: Obj, ds: DesiredState)
    requires Plain(ds) && Done(cfg, before, after, was, now, ds) && cfg.modifiers == [] && now.SameIdentity(was)
    requires was.Id() in after.live ==> !after.live[was.Id()].deleting
    requires AllocationSafe(StateFor(cfg, was, ds), Desired(cfg, was).content.body)
    requires Resolve(StateFor(cfg, was, ds)) == Converge
    ensures NeedsNothing(cfg, after, now, ds)
  {
    var d, state := Desired(cfg, was), StateFor(cfg, was, ds);
    var b := Live(before, was.Id());
    StoredIsPreparable(cfg, state, if b.Some? then Some(b.value.content) else None, was, now.content);
    PrepareAgain(cfg, was, now);
    StillConverges(cfg, was, ds);
    SettledIsInSync(state, b, d, Live(after, was.Id()), Desired(cfg, now).content);
  }

  lemma StillConverges(cfg: Config, was: Obj, ds: DesiredState)
    requires Resolve(StateFor(cfg, was, ds)) == Converge
    ensures StateFor(cfg, was, ds) == ds
  {
  }

  /** Nor does one that was only to be created or removed. */
  lemma UntouchedNeedsNothing(cfg: Config, before: Server, after: Server, was: Obj, now: Obj, ds: DesiredState)
    requires Plain(ds) && Done(cfg, before, after, was, now, ds) && cfg.modifiers == [] && now.SameIdentity(was)
    requires was.Id() in after.live ==> !after.live[was.Id()].deleting
    requires Resolve(StateFor(cfg, was, ds)) != Converge
    ensures NeedsNothing(cfg, after, now, ds)
  {
    PreparedMeta(cfg, was);
    PrepareAgain(cfg, was, now);
    SameMark(Desired(cfg, was), Desired(cfg, now), ds);
  }

  lemma SameMark(d: Obj, e: Obj, ds: DesiredState)
    requires DESIRED_STATE_CREATED in d.content.annotations <==> DESIRED_STATE_CREATED in e.content.annotations
    ensures Effective(d, ds) == Effective(e, ds)
  {
  }

  /** So the objects as the first run left them in memory need nothing either. */
  lemma MutatedNeedsNothing(cfg: Config, before: Server, after: Server, was: Obj, now: Obj, ds: DesiredState)
    requires Plain(ds) && Done(cfg, before, after, was, now, ds) && cfg.modifiers == [] && now.SameIdentity(was)
    requires was.Id() in after.live ==> !after.live[was.Id()].deleting
    requires Resolve(StateFor(cfg, was, ds)) == Converge ==>
      AllocationSafe(StateFor(cfg, was, ds), Desired(cfg, was).content.body)
    ensures NeedsNothing(cfg, after, now, ds)
  {
    if Resolve(StateFor(cfg, was, ds)) == Converge {
      StoredNeedsNothing(cfg, before, after, was, now, ds);
    } else {
      UntouchedNeedsNothing(cfg, before, after, was, now, ds);
    }
  }

  /** An apply loop over objects that need nothing writes nothing. */
  lemma {:induction false} QuietApply(env: Env, cfg: Config, p: Progress, builders: seq<Builder>)
    requires InHeap(builders, p.heap) && PlainBuilders(builders) && DistinctKeys(builders, p.heap)
    requires forall i :: 0 <= i < |builders| && Takes(builders[i]) ==>
      NeedsNothing(cfg, p.server, p.heap[builders[i].target], builders[i].state)
    ensures var q := ApplyAll(env, cfg, p, builders); q.server.live == p.server.live && q.server.log == p.server.log
  {
    if builders != [] {
      var init, last := builders[..|builders| - 1], builders[|builders| - 1];
      assert builders == init + [last];
      QuietParts(cfg, p.server, init, last, p.heap);
      QuietApply(env, cfg, p, init);
      if Takes(last) {
        NewKey(init, last, p.heap);
        HeapUntouched(env, cfg, p, init, last.target);
        QuietVisit(env, cfg, ApplyAll(env, cfg, p, init), last.target, last.state);
      }
    }
  }

  lemma QuietParts(cfg: Config, s: Server, init: seq<Builder>, last: Builder, heap: Heap)
    requires InHeap(init + [last], heap) && PlainBuilders(init + [last]) && DistinctKeys(init + [last], heap)
    requires forall i :: 0 <= i < |init + [last]| && Takes((init + [last])[i]) ==>
      NeedsNothing(cfg, s, heap[(init + [last])[i].target], (init + [last])[i].state)
    ensures InHeap(init, heap) && PlainBuilders(init) && DistinctKeys(init, heap)
    ensures forall i :: 0 <= i < |init| && Takes(init[i]) ==> NeedsNothing(cfg, s, heap[init[i].target], init[i].state)
    ensures Takes(last) ==>
      last.target in heap && Plain(last.state) && NeedsNothing(cfg, s, heap[last.target], last.state)
  {
    var all := init + [last];
    assert all[|init|] == last && forall i :: 0 <= i < |init| ==> all[i] == init[i];
  }

  lemma QuietVisit(env: Env, cfg: Config, m: Progress, o: RuntimeObject, ds: DesiredState)
    requires o in m.heap && Plain(ds) && NeedsNothing(cfg, m.server, m.heap[o], ds)
    ensures var q := Visit(env, cfg, m, o, ds); q.server.live == m.server.live && q.server.log == m.server.log
  {
    PrepareKeepsIdentity(cfg, m.heap[o]);
    VisitReconciles(env, cfg, m, o, ds);
    InSyncWritesNothing(env, cfg.opts, m.server, Desired(cfg, m.heap[o]), StateFor(cfg, m.heap[o], ds));
  }

  /** The second run's builders return the first run's objects: built anew as they were, or (without modifiers)
      the very objects the first run changed. */
  ghost predicate SameBuilders(cfg: Config, builders: seq<Builder>, first: Heap, left: Heap, second: Heap) {
    && InHeap(builders, first) && InHeap(builders, left) && InHeap(builders, second)
    && forall i :: 0 <= i < |builders| && Takes(builders[i]) ==>
         var o := builders[i].target;
         second[o] == first[o] || (cfg.modifiers == [] && second[o] == left[o])
  }

  ghost predicate AllocationsSafe(cfg: Config, builders: seq<Builder>, heap: Heap)
    requires InHeap(builders, heap)
  {
    forall i :: 0 <= i < |builders| && Takes(builders[i]) ==>
      var was := heap[builders[i].target];
      var state := StateFor(cfg, was, builders[i].state);
      Resolve(state) == Converge ==> AllocationSafe(state, Desired(cfg, was).content.body)
  }

  lemma SameNames(builders: seq<Builder>, a: Heap, b: Heap, key: Key)
    requires InHeap(builders, a) && InHeap(builders, b)
    requires forall i :: 0 <= i < |builders| && Takes(builders[i]) ==>
      a[builders[i].target].Id() == b[builders[i].target].Id()
    ensures Named(builders, a, key) <==> Named(builders, b, key)
  {
  }

  /** Quiescence. Take a clean run over distinct objects that could list all its purge types and left nothing of
      the component terminating. A second run with the same builders and purge types creates, updates and
      deletes nothing, whatever the API server answers to its reads. */
  lemma SecondRunIsQuiet(env: Env, env2: Env, cfg: Config, builders: seq<Builder>, types: seq<GVK>,
                         p: Progress, plan: seq<Obj>, q: Progress, p2: Progress, plan2: seq<Obj>, q2: Progress)
    requires IsRun(env, cfg, p, builders, types, plan, q) && p.visited == {}
    requires Orderly(env, builders, p.heap)
    requires Clean(q.combined)
    requires AllListed(env, cfg, ApplyAll(env, cfg, p, builders).server.calls, types)
    requires forall k :: k in q.server.live && (Named(builders, p.heap, k) || Planned(plan, k)) ==>
      !q.server.live[k].deleting
    requires AllocationsSafe(cfg, builders, p.heap)
    requires IsRun(env2, cfg, p2, builders, types, plan2, q2) && p2.visited == {} && p2.server == q.server
    requires SameBuilders(cfg, builders, p.heap, q.heap, p2.heap)
    ensures q2.server.live == q.server.live && q2.server.log == q.server.log
  {
    RunConverges(env, cfg, p, builders, types, plan, q);
    ApplyTouches(env, cfg, p, builders);
    RunKeepsIdentities(env, cfg, p, builders, types, plan, q);
    SecondApplyIsQuiet(cfg, builders, p, q, p2, env2);
    var m2 := ApplyAll(env2, cfg, p2, builders);
    if m2.combined.errors == [] {
      PurgeIsPlanned(env2, cfg, p2, builders, types, plan2, q2);
      VisitedAgain(env, env2, cfg, builders, p, p2);
      var listed := Listing(env2, cfg.mapper, m2.server.calls, types).1;
      ListedAreTypes(env2, cfg.mapper, m2.server.calls, types);
      forall o: Obj | o.gvk in listed && IsOwn(cfg.id, q.server, o)
        ensures KeyID(o.Id()).value in m2.visited
      {
        ComponentObjectsAreVisited(env, cfg, builders, types, p, plan, q, o);
      }
      NothingToPlan(cfg.id, q.server, m2.server, m2.visited, listed, plan2);
    }
  }

  /** A list shows the object, and it carries the component's ID. */
  predicate IsOwn(id: string, s: Server, o: Obj) {
    Listable(s, o) && MANAGED_COMPONENT in o.content.annotations && o.content.annotations[MANAGED_COMPONENT] == id
  }

  lemma NothingToPlan(id: string, s: Server, s2: Server, visited: set<string>, listed: seq<GVK>, plan: seq<Obj>)
    requires IsPlan(id, s2, visited, listed, plan) && s2.live == s.live
    requires forall o: Obj :: o.gvk in listed && IsOwn(id, s, o) ==> KeyID(o.Id()).value in visited
    ensures plan == []
  {
    if plan != [] {
      assert plan[0] in plan && Purgeable(id, s2, visited, listed, plan[0]);
      assert IsOwn(id, s, plan[0]);
      assert false;
    }
  }

  lemma RunKeepsIdentities(env: Env, cfg: Config, p: Progress, builders: seq<Builder>, types: seq<GVK>, plan: seq<Obj>,
                           q: Progress)
    requires IsRun(env, cfg, p, builders, types, plan, q)
    ensures SameIdentities(p.heap, q.heap)
  {
    var m := ApplyAll(env, cfg, p, builders);
    ApplyTouches(env, cfg, p, builders);
    DeleteAllEffect(env, m.(server := m.server.(calls := Listing(env, cfg.mapper, m.server.calls, types).0)), plan);
  }

  /** A clean run leaves every builder's object, built anew or reused, in need of nothing. */
  lemma BuildersNeedNothing(cfg: Config, builders: seq<Builder>, p: Progress, q: Progress, p2: Progress)
    requires AllDone(cfg, p, q, builders) && SameIdentities(p.heap, q.heap) && PlainBuilders(builders)
    requires forall k :: k in q.server.live && Named(builders, p.heap, k) ==> !q.server.live[k].deleting
    requires AllocationsSafe(cfg, builders, p.heap) && SameBuilders(cfg, builders, p.heap, q.heap, p2.heap)
    ensures forall i :: 0 <= i < |builders| && Takes(builders[i]) ==>
      && NeedsNothing(cfg, q.server, p2.heap[builders[i].target], builders[i].state)
      && p2.heap[builders[i].target].Id() == p.heap[builders[i].target].Id()
  {
    forall i | 0 <= i < |builders| && Takes(builders[i])
      ensures NeedsNothing(cfg, q.server, p2.heap[builders[i].target], builders[i].state)
      ensures p2.heap[builders[i].target].Id() == p.heap[builders[i].target].Id()
    {
      var o, ds := builders[i].target, builders[i].state;
      assert Named(builders, p.heap, p.heap[o].Id());
      if p2.heap[o] == p.heap[o] {
        FreshNeedsNothing(cfg, p.server, q.server, p.heap[o], q.heap[o], ds);
      } else {
        MutatedNeedsNothing(cfg, p.server, q.server, p.heap[o], q.heap[o], ds);
      }
    }
  }

  lemma SecondApplyIsQuiet(cfg: Config, builders: seq<Builder>, p: Progress, q: Progress, p2: Progress, env2: Env)
    requires AllDone(cfg, p, q, builders) && SameIdentities(p.heap, q.heap)
    requires PlainBuilders(builders) && DistinctKeys(builders, p.heap)
    requires forall k :: k in q.server.live && Named(builders, p.heap, k) ==> !q.server.live[k].deleting
    requires AllocationsSafe(cfg, builders, p.heap)
    requires p2.server == q.server && SameBuilders(cfg, builders, p.heap, q.heap, p2.heap)
    ensures var m2 := ApplyAll(env2, cfg, p2, builders);
      m2.server.live == q.server.live && m2.server.log == q.server.log
  {
    BuildersNeedNothing(cfg, builders, p, q, p2);
    QuietApply(env2, cfg, p2, builders);
  }

  /** Two clean apply loops with the same builders visit the same IDs. */
  lemma VisitedAgain(env: Env, env2: Env, cfg: Config, builders: seq<Builder>, p: Progress, p2: Progress)
    requires InHeap(builders, p.heap) && InHeap(builders, p2.heap) && p.visited == {}
    requires forall i :: 0 <= i < |builders| && Takes(builders[i]) ==>
      p.heap[builders[i].target].Id() == p2.heap[builders[i].target].Id()
    requires ApplyAll(env, cfg, p, builders).combined.errors == []
    requires ApplyAll(env2, cfg, p2, builders).combined.errors == []
    ensures ApplyAll(env, cfg, p, builders).visited <= ApplyAll(env2, cfg, p2, builders).visited
  {
    CleanApplyVisitsAll(env, cfg, p, builders);
    CleanApplyVisitsAll(env2, cfg, p2, builders);
    forall id | id in ApplyAll(env, cfg, p, builders).visited
      ensures id in ApplyAll(env2, cfg, p2, builders).visited
    {
      var k :| Named(builders, p.heap, k) && KeyID(k) == Some(id);
      SameNames(builders, p.heap, p2.heap, k);
    }
  }

  /** What is left of the component after a clean run are visited objects. */
  lemma ComponentObjectsAreVisited(env: Env, cfg: Config, builders: seq<Builder>, types: seq<GVK>, p: Progress,
                                   plan: seq<Obj>, q: Progress, o: Obj)
    requires IsRun(env, cfg, p, builders, types, plan, q) && p.visited == {}
    requires Orderly(env, builders, p.heap)
    requires Clean(q.combined)
    requires AllListed(env, cfg, ApplyAll(env, cfg, p, builders).server.calls, types)
    requires Planned(plan, o.Id()) && o.Id() in q.server.live ==> !q.server.live[o.Id()].deleting
    requires o.gvk in types && MapperAdmits(cfg.mapper, o.gvk) && Listable(q.server, o)
    requires MANAGED_COMPONENT in o.content.annotations && o.content.annotations[MANAGED_COMPONENT] == cfg.id
    ensures KeyID(o.Id()).value in ApplyAll(env, cfg, p, builders).visited
  {
    var m := ApplyAll(env, cfg, p, builders);
    RunConverges(env, cfg, p, builders, types, plan, q);
    AllListedMeans(env, cfg, m.server.calls, types);
    assert !Planned(plan, o.Id());
    DeleteAllEffect(env, m.(server := m.server.(calls := Listing(env, cfg.mapper, m.server.calls, types).0)), plan);
    assert Listable(m.server, o);
    assert o !in plan;
  }
}
