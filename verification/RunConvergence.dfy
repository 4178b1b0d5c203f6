/** One clean run brings the cluster to the desired state, and the next one has nothing left to do. */
module RunConvergence {
  import opened Objects
  import opened Cluster
  import opened DesiredStates
  import opened ResourceMachine
  import opened Results
  import opened Identity
  import opened Convergence
  import opened NativeMachine
  import opened RunFrames
  import opened PurgeProperties

  function Desired(cfg: Config, d: Obj): Obj {
    Prepare(cfg, d).desired
  }

  function StateFor(cfg: Config, d: Obj, ds: DesiredState): DesiredState {
    Effective(Desired(cfg, d), ds)
  }

  ghost predicate PlainBuilders(builders: seq<Builder>) {
    forall i :: 0 <= i < |builders| && Takes(builders[i]) ==> Plain(builders[i].state)
  }

  ghost predicate DistinctKeys(builders: seq<Builder>, heap: Heap)
    requires InHeap(builders, heap)
  {
    forall i, j :: 0 <= i < j < |builders| && Takes(builders[i]) && Takes(builders[j]) ==>
      heap[builders[i].target].Id() != heap[builders[j].target].Id()
  }

  ghost predicate TypesServed(env: Env, builders: seq<Builder>, heap: Heap)
    requires InHeap(builders, heap)
  {
    forall i :: 0 <= i < |builders| && Takes(builders[i]) ==> heap[builders[i].target].gvk in env.served
  }

  /** No error, and nothing asks to be called again. */
  predicate Clean(c: Combined) {
    c.errors == [] && c.result == Requeue(false, 0)
  }

  /** A builder's object, `was` in memory before the run and `now` after it, has been taken care of. */
  ghost predicate Done(cfg: Config, before: Server, after: Server, was: Obj, now: Obj, ds: DesiredState) {
    var state := StateFor(cfg, was, ds);
    && Prepare(cfg, was).error.None?
    && Settled(state, Live(before, was.Id()), Desired(cfg, was), Live(after, was.Id()))
    && (Resolve(state) == Converge ==> now.content == after.live[was.Id()].content)
    && (Resolve(state) != Converge ==>
          && now.content.annotations == Desired(cfg, was).content.annotations
          && now.content.controller == Desired(cfg, was).content.controller)
  }

  lemma UpdateRepeatsAreAnnounced(env: Env, opts: Options, s: Server, current: Current, d: Obj, ds: DesiredState)
    ensures var r := UpdateExisting(env, opts, s, current, d, ds).result; r.Some? ==>
      r.value.requeue || r.value.after > 0
  {}

  lemma RepeatsAreAnnounced(env: Env, opts: Options, s: Server, d: Obj, ds: DesiredState)
    ensures var r := ReconcileResource(env, opts, s, d, ds).result; r.Some? ==> r.value.requeue || r.value.after > 0
  {
    if Resolve(ds) == Converge {
      var c := CreateIfNotExist(env, s, d, ds);
      if c.error.None? && !c.created && !c.current.deleting {
        UpdateRepeatsAreAnnounced(env, opts, c.server, c.current, c.desired, ds);
      }
    }
  }

  lemma VisitDone(env: Env, cfg: Config, p: Progress, o: RuntimeObject, ds: DesiredState)
    requires o in p.heap && Plain(ds) && p.heap[o].gvk in env.served
    requires Clean(Visit(env, cfg, p, o, ds).combined)
    ensures Clean(p.combined)
    ensures var q := Visit(env, cfg, p, o, ds); Done(cfg, p.server, q.server, p.heap[o], q.heap[o], ds)
  {
    PrepareKeepsIdentity(cfg, p.heap[o]);
    var d, state := Desired(cfg, p.heap[o]), StateFor(cfg, p.heap[o], ds);
    RepeatsAreAnnounced(env, cfg.opts, p.server, d, state);
    CleanVisitApplies(env, cfg, p, o, ds);
    SuccessSettles(env, cfg.opts, p.server, d, state);
    RemembersWhatSettled(env, cfg.opts, p.server, d, state);
  }

  lemma CleanVisitApplies(env: Env, cfg: Config, p: Progress, o: RuntimeObject, ds: DesiredState)
    requires o in p.heap && Clean(Visit(env, cfg, p, o, ds).combined)
    ensures var q, out := Visit(env, cfg, p, o, ds),
        ReconcileResource(env, cfg.opts, p.server, Desired(cfg, p.heap[o]), StateFor(cfg, p.heap[o], ds));
      && Prepare(cfg, p.heap[o]).error.None? && q.server == out.server && q.heap[o] == out.desired && out.error.None?
      && p.combined.errors == [] && (out.result.Some? ==> !out.result.value.requeue && out.result.value.after <= 0)
      && (out.result.None? ==> Clean(p.combined))
  {
  }

  /** What a success leaves of the desired object in memory. */
  lemma RemembersWhatSettled(env: Env, opts: Options, s: Server, d: Obj, ds: DesiredState)
    requires Plain(ds)
    ensures var out := ReconcileResource(env, opts, s, d, ds);
      out.error.None? && out.result.None? ==>
        && (Resolve(ds) == Converge ==>
          d.Id() in out.server.live && out.desired.content == out.server.live[d.Id()].content)
        && (Resolve(ds) != Converge ==>
              out.desired.content.annotations == d.content.annotations
                  && out.desired.content.controller == d.content.controller)
  {
    match Resolve(ds)
    case Converge => ConvergeSettles(env, opts, s, d, ds);
    case CreateOnly => CreateSettles(env, s, d, ds);
    case Remove =>
  }

  /** What the apply loop has done so far, for each builder. */
  ghost predicate AllDone(cfg: Config, p: Progress, q: Progress, builders: seq<Builder>) {
    InHeap(builders, p.heap) && InHeap(builders, q.heap) &&
    forall i :: 0 <= i < |builders| && Takes(builders[i]) ==>
      Done(cfg, p.server, q.server, p.heap[builders[i].target], q.heap[builders[i].target], builders[i].state)
  }

  /** Visiting another object leaves earlier work standing. */
  lemma VisitKeepsDone(env: Env, cfg: Config, p: Progress, m: Progress, builders: seq<Builder>, o: RuntimeObject,
                       ds: DesiredState)
    requires AllDone(cfg, p, m, builders) && SameIdentities(p.heap, m.heap)
    requires o in m.heap && !Named(builders, p.heap, p.heap[o].Id())
    ensures AllDone(cfg, p, Visit(env, cfg, m, o, ds), builders)
  {
    VisitTouches(env, cfg, m, o, ds);
    var q := Visit(env, cfg, m, o, ds);
    forall i | 0 <= i < |builders| && Takes(builders[i])
      ensures Done(cfg, p.server, q.server, p.heap[builders[i].target], q.heap[builders[i].target], builders[i].state)
    {
      var key := p.heap[builders[i].target].Id();
      assert Named(builders, p.heap, key);
      TouchesOther(m.server, q.server, m.heap[o].Id(), key);
      assert Live(q.server, key) == Live(m.server, key);
    }
  }

  lemma AllDoneNext(env: Env, cfg: Config, p: Progress, m: Progress, init: seq<Builder>, last: Builder)
    requires InHeap(init + [last], p.heap) && DistinctKeys(init + [last], p.heap)
    requires Takes(last) && Plain(last.state) && last.target in p.heap
    requires AllDone(cfg, p, m, init) && SameIdentities(p.heap, m.heap) && m.heap[last.target] == p.heap[last.target]
    requires Live(m.server, p.heap[last.target].Id()) == Live(p.server, p.heap[last.target].Id())
    requires p.heap[last.target].gvk in env.served && Clean(Visit(env, cfg, m, last.target, last.state).combined)
    ensures AllDone(cfg, p, Visit(env, cfg, m, last.target, last.state), init + [last])
  {
    NewKey(init, last, p.heap);
    VisitDone(env, cfg, m, last.target, last.state);
    VisitKeepsDone(env, cfg, p, m, init, last.target, last.state);
    assert forall i :: 0 <= i < |init| ==> (init + [last])[i] == init[i];
  }

  /** What is assumed of the builders of a run. */
  ghost predicate Orderly(env: Env, builders: seq<Builder>, heap: Heap) {
    InHeap(builders, heap) && PlainBuilders(builders) && DistinctKeys(builders, heap)
        && TypesServed(env, builders, heap)
  }

  lemma OrderlyInit(env: Env, init: seq<Builder>, last: Builder, heap: Heap)
    requires Orderly(env, init + [last], heap)
    ensures Orderly(env, init, heap)
    ensures last.Builds? ==> last.target in heap
    ensures Takes(last) ==> Plain(last.state) && heap[last.target].gvk in env.served
  {
    var all := init + [last];
    assert all[|init|] == last;
    assert forall i :: 0 <= i < |init| ==> all[i] == init[i];
  }

  /** A clean step starts from a clean result. */
  lemma StepWasClean(env: Env, cfg: Config, m: Progress, b: Builder)
    requires b.Builds? ==> b.target in m.heap
    requires Takes(b) ==> Plain(b.state) && m.heap[b.target].gvk in env.served
    requires Clean(Step(env, cfg, m, b).combined)
    ensures Clean(m.combined)
  {
    if Takes(b) {
      VisitDone(env, cfg, m, b.target, b.state);
    }
  }

  lemma NotYetTouched(env: Env, cfg: Config, p: Progress, init: seq<Builder>, last: Builder)
    requires InHeap(init + [last], p.heap) && DistinctKeys(init + [last], p.heap) && Takes(last)
    ensures InHeap(init, p.heap) && last.target in p.heap
    ensures var m := ApplyAll(env, cfg, p, init);
      && SameIdentities(p.heap, m.heap) && m.heap[last.target] == p.heap[last.target]
      && Live(m.server, p.heap[last.target].Id()) == Live(p.server, p.heap[last.target].Id())
  {
    NewKey(init, last, p.heap);
    ApplyTouches(env, cfg, p, init);
    HeapUntouched(env, cfg, p, init, last.target);
  }

  /** Every builder's object is taken care of by a clean apply loop. */
  lemma {:induction false} ApplyDone(env: Env, cfg: Config, p: Progress, builders: seq<Builder>)
    requires Orderly(env, builders, p.heap)
    requires Clean(ApplyAll(env, cfg, p, builders).combined)
    ensures Clean(p.combined)
    ensures AllDone(cfg, p, ApplyAll(env, cfg, p, builders), builders)
  {
    if builders != [] {
      var init, last := builders[..|builders| - 1], builders[|builders| - 1];
      assert builders == init + [last];
      OrderlyInit(env, init, last, p.heap);
      var m := ApplyAll(env, cfg, p, init);
      if Takes(last) {
        NotYetTouched(env, cfg, p, init, last);
      }
      StepWasClean(env, cfg, m, last);
      ApplyDone(env, cfg, p, init);
      if Takes(last) {
        AllDoneNext(env, cfg, p, m, init, last);
      }
    }
  }

  lemma NewKey(init: seq<Builder>, last: Builder, heap: Heap)
    requires InHeap(init + [last], heap) && DistinctKeys(init + [last], heap) && Takes(last)
    ensures InHeap(init, heap) && last.target in heap && !Named(init, heap, heap[last.target].Id())
  {
    var all := init + [last];
    assert all[|init|] == last;
    assert forall i :: 0 <= i < |init| ==> all[i] == init[i];
  }

  /** The purge of a run leaves the named objects alone. */
  lemma PurgeSparesNamed(env: Env, cfg: Config, p: Progress, builders: seq<Builder>, types: seq<GVK>, plan: seq<Obj>,
                         q: Progress)
    requires IsRun(env, cfg, p, builders, types, plan, q) && ApplyAll(env, cfg, p, builders).combined.errors == []
    ensures forall k :: Named(builders, p.heap, k) ==>
      !Planned(plan, k) && Live(q.server, k) == Live(ApplyAll(env, cfg, p, builders).server, k)
    ensures forall k :: Named(builders, p.heap, k) ==>
      KeyID(k).Some? && KeyID(k).value in ApplyAll(env, cfg, p, builders).visited
  {
    CleanApplyVisitsAll(env, cfg, p, builders);
    forall k | Named(builders, p.heap, k)
      ensures !Planned(plan, k) && Live(q.server, k) == Live(ApplyAll(env, cfg, p, builders).server, k)
    {
      VisitedSurvivesPurge(env, cfg, p, builders, types, plan, q, k);
    }
  }

  lemma AllDoneLater(cfg: Config, p: Progress, m: Progress, q: Progress, builders: seq<Builder>)
    requires AllDone(cfg, p, m, builders) && q.heap == m.heap
    requires forall k :: Named(builders, p.heap, k) ==> Live(q.server, k) == Live(m.server, k)
    ensures AllDone(cfg, p, q, builders)
  {
    forall i | 0 <= i < |builders| && Takes(builders[i])
      ensures Done(cfg, p.server, q.server, p.heap[builders[i].target], q.heap[builders[i].target], builders[i].state)
    {
      assert Named(builders, p.heap, p.heap[builders[i].target].Id());
    }
  }

  /** A purge without errors leaves nothing it should delete alive, and touches nothing else. */
  lemma PurgeEmpties(env: Env, cfg: Config, m: Progress, types: seq<GVK>, plan: seq<Obj>, q: Progress)
    requires IsPurge(env, cfg, m, types, plan, q) && q.combined.errors == []
    ensures forall k :: Planned(plan, k) ==> !Alive(q.server, k)
    ensures forall k :: !Planned(plan, k) ==> Live(q.server, k) == Live(m.server, k)
    ensures q.combined.result == m.combined.result && m.combined.errors == [] && q.heap == m.heap
    ensures forall o ::
      Purgeable(cfg.id, m.server, m.visited, Listing(env, cfg.mapper, m.server.calls, types).1, o) <==> o in plan
  {
    DeleteAllEffect(env, m.(server := m.server.(calls := Listing(env, cfg.mapper, m.server.calls, types).0)), plan);
  }

  lemma UnnamedAlike(id: string, p: Progress, m: Progress, builders: seq<Builder>, listed: seq<GVK>, plan: seq<Obj>,
                     q: Progress)
    requires InHeap(builders, p.heap)
    requires forall k :: !Named(builders, p.heap, k) ==> Live(m.server, k) == Live(p.server, k)
    requires forall k :: Planned(plan, k) ==> !Alive(q.server, k)
    requires forall o :: Purgeable(id, m.server, m.visited, listed, o) <==> o in plan
    requires forall k :: Named(builders, p.heap, k) ==> KeyID(k).Some? && KeyID(k).value in m.visited
    ensures forall o :: Purgeable(id, p.server, m.visited, listed, o) ==> !Alive(q.server, o.Id())
  {
    forall o | Purgeable(id, p.server, m.visited, listed, o)
      ensures !Alive(q.server, o.Id())
    {
      assert !Named(builders, p.heap, o.Id());
      assert Live(m.server, o.Id()) == Live(p.server, o.Id());
      assert Purgeable(id, m.server, m.visited, listed, o);
      assert Planned(plan, o.Id());
    }
  }

  /** Convergence in one pass. After a clean run over distinct objects each builder's object is settled: created,
      merged and stored, or gone. Objects nobody named are untouched, except that no unvisited object of this
      component whose type was listed stays alive. */
  lemma RunConverges(env: Env, cfg: Config, p: Progress, builders: seq<Builder>, types: seq<GVK>, plan: seq<Obj>,
                     q: Progress)
    requires IsRun(env, cfg, p, builders, types, plan, q) && p.visited == {}
    requires Orderly(env, builders, p.heap)
    requires Clean(q.combined)
    ensures AllDone(cfg, p, q, builders)
    ensures forall k :: !Named(builders, p.heap, k) && !Planned(plan, k) ==> Live(q.server, k) == Live(p.server, k)
    ensures forall k :: Planned(plan, k) ==> !Named(builders, p.heap, k) && !Alive(q.server, k)
    ensures var m := ApplyAll(env, cfg, p, builders);
      forall o :: Purgeable(cfg.id, p.server, m.visited, Listing(env, cfg.mapper, m.server.calls, types).1, o) ==>
        !Alive(q.server, o.Id())
  {
    var m := ApplyAll(env, cfg, p, builders);
    PurgeEmpties(env, cfg, m, types, plan, q);
    ApplyDone(env, cfg, p, builders);
    ApplyTouches(env, cfg, p, builders);
    PurgeSparesNamed(env, cfg, p, builders, types, plan, q);
    AllDoneLater(cfg, p, m, q, builders);
    UnnamedAlike(cfg.id, p, m, builders, Listing(env, cfg.mapper, m.server.calls, types).1, plan, q);
  }
}
