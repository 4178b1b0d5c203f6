/** How a whole run ends: exactly when one whose calls are answered succeeds, what it reports, and that the run after
    a clean one is clean again. */
module RunOutcomes {
  import opened Objects
  import opened Cluster
  import opened DesiredStates
  import opened ResourceMachine
  import opened Results
  import opened Identity
  import opened Convergence
  import opened NativeMachine
  import opened RunFrames
  import opened PurgeProperties
  import opened RunConvergence
  import opened Quiescence
  import opened Outcomes

  /** The purge's errors, exactly. The i-th deletion fails iff its call is refused or its type is not served; an object
      that is already gone is no failure. Without a failure everything planned is reported as purged, in order. */
  lemma {:induction false} DeletionsSucceedIff(env: Env, p: Progress, plan: seq<Obj>)
    ensures var q := DeleteAll(env, p, plan);
      && q.server.calls == p.server.calls + |plan|
      && p.combined.errors <= q.combined.errors && q.combined.result == p.combined.result
      && (q.combined.errors == p.combined.errors <==>
        forall i :: 0 <= i < |plan| ==> DeleteAnswered(env, p.server.calls, plan, i))
      && (q.combined.errors == p.combined.errors ==> q.purged == p.purged + plan)
  {
    if plan != [] {
      var init, o := plan[..|plan| - 1], plan[|plan| - 1];
      var m := DeleteAll(env, p, init);
      DeletionsSucceedIff(env, p, init);
      assert forall i :: 0 <= i < |init| ==>
        (DeleteAnswered(env, p.server.calls, init, i) <==> DeleteAnswered(env, p.server.calls, plan, i));
      DeletionSucceedsIff(env, m, o);
      assert p.purged + init + [o] == p.purged + plan;
      var q := DeleteOne(env, m, o);
      assert DeleteAnswered(env, p.server.calls, plan, |init|) <==> q.combined.errors == m.combined.errors;
      if q.combined.errors == p.combined.errors {
        assert |m.combined.errors| == |p.combined.errors|;
        assert m.combined.errors == p.combined.errors;
      } else if m.combined.errors != p.combined.errors {
        var i :| 0 <= i < |init| && !DeleteAnswered(env, p.server.calls, init, i);
        assert !DeleteAnswered(env, p.server.calls, plan, i);
      }
    }
  }

  predicate DeleteAnswered(env: Env, calls: nat, plan: seq<Obj>, i: nat)
    requires i < |plan|
  {
    env.answers(calls + i).refusal.None? && plan[i].gvk in env.served
  }

  lemma DeletionSucceedsIff(env: Env, m: Progress, o: Obj)
    ensures var q := DeleteOne(env, m, o);
      && q.server.calls == m.server.calls + 1
      && (env.answers(m.server.calls).refusal.None? && o.gvk in env.served ==>
        q.combined == m.combined && q.purged == m.purged + [o])
      && (env.answers(m.server.calls).refusal.Some? || o.gvk !in env.served ==>
        q.combined.result == m.combined.result && m.combined.errors < q.combined.errors && q.purged == m.purged)
  {
  }

  /** What a builder needs to succeed when every call is answered, in terms of what is there before the run: it builds,
      and what it builds can be prepared, has a name, and is achievable. */
  ghost predicate Fit(served: set<GVK>, cfg: Config, s: Server, heap: Heap, b: Builder)
    requires b.Builds? ==> b.target in heap
  {
    !b.Fails? && (Takes(b) ==>
      var was := heap[b.target];
      && Prepare(cfg, was).error.None? && was.name != ""
      && Achievable(served, Live(s, was.Id()), Desired(cfg, was), StateFor(cfg, was, b.state)))
  }

  lemma StepSucceedsIff(env: Env, cfg: Config, m: Progress, b: Builder)
    requires b.Builds? ==> b.target in m.heap
    requires (Takes(b) ==> Plain(b.state)) && AnsweredFrom(env, m.server.calls)
    ensures StepFails(env, cfg, m, b) <==> !Fit(env.served, cfg, m.server, m.heap, b)
  {
    if Takes(b) {
      var was := m.heap[b.target];
      PrepareKeepsIdentity(cfg, was);
      SucceedsIff(env, cfg.opts, m.server, Desired(cfg, was), StateFor(cfg, was, b.state));
    }
  }

  /** The apply loop does not change what a later builder is judged by. */
  lemma FitStays(env: Env, cfg: Config, p: Progress, builders: seq<Builder>, i: nat)
    requires InHeap(builders, p.heap) && DistinctKeys(builders, p.heap) && i < |builders|
    ensures var m := ApplyAll(env, cfg, p, builders[..i]);
      Fit(env.served, cfg, m.server, m.heap, builders[i]) <==> Fit(env.served, cfg, p.server, p.heap, builders[i])
  {
    if Takes(builders[i]) {
      assert builders[..i] + [builders[i]] == builders[..i + 1];
      NotYetTouched(env, cfg, p, builders[..i], builders[i]);
    }
  }

  lemma FailsIff(env: Env, cfg: Config, p: Progress, builders: seq<Builder>, i: nat)
    requires InHeap(builders, p.heap) && PlainBuilders(builders) && DistinctKeys(builders, p.heap)
    requires AnsweredFrom(env, p.server.calls) && i < |builders|
    ensures FailsAt(env, cfg, p, builders, i) <==> !Fit(env.served, cfg, p.server, p.heap, builders[i])
  {
    var m := ApplyAll(env, cfg, p, builders[..i]);
    ApplyTouches(env, cfg, p, builders[..i]);
    FitStays(env, cfg, p, builders, i);
    StepSucceedsIff(env, cfg, m, builders[i]);
  }

  /** Success of a run, exactly. When every call is answered, a run over distinct objects ends without an error iff
      every builder is fit, and so the purge goes ahead iff every builder is. */
  lemma RunSucceedsIff(env: Env, cfg: Config, p: Progress, builders: seq<Builder>, types: seq<GVK>, plan: seq<Obj>,
                       q: Progress)
    requires IsRun(env, cfg, p, builders, types, plan, q) && p.combined.errors == []
    requires PlainBuilders(builders) && DistinctKeys(builders, p.heap) && AnsweredFrom(env, p.server.calls)
    ensures q.combined.errors == [] <==>
      forall i :: 0 <= i < |builders| ==> Fit(env.served, cfg, p.server, p.heap, builders[i])
    ensures q.combined.errors == [] ==> q.purged == ApplyAll(env, cfg, p, builders).purged + plan
  {
    var m := ApplyAll(env, cfg, p, builders);
    ApplyErrors(env, cfg, p, builders);
    forall i | 0 <= i < |builders|
      ensures FailsAt(env, cfg, p, builders, i) <==> !Fit(env.served, cfg, p.server, p.heap, builders[i])
    {
      FailsIff(env, cfg, p, builders, i);
    }
    ApplyTouches(env, cfg, p, builders);
    if m.combined.errors == [] {
      AnsweredPurgeSucceeds(env, cfg, m, types, plan, q);
    }
  }

  lemma AnsweredPurgeSucceeds(env: Env, cfg: Config, m: Progress, types: seq<GVK>, plan: seq<Obj>, q: Progress)
    requires IsPurge(env, cfg, m, types, plan, q) && AnsweredFrom(env, m.server.calls)
    ensures q.combined == m.combined && q.purged == m.purged + plan
  {
    var (n, listed) := Listing(env, cfg.mapper, m.server.calls, types);
    ListedAreTypes(env, cfg.mapper, m.server.calls, types);
    DeletionsSucceedIff(env, m.(server := m.server.(calls := n)), plan);
    forall i | 0 <= i < |plan| ensures DeleteAnswered(env, n, plan, i) {
      assert plan[i] in plan;
    }
  }

  /** What an object in need of nothing needs to pass without an error: one answered read, its type, and a name. */
  lemma QuietVisitSucceeds(env: Env, cfg: Config, m: Progress, o: RuntimeObject, ds: DesiredState)
    requires o in m.heap && Plain(ds) && NeedsNothing(cfg, m.server, m.heap[o], ds) && KeyID(m.heap[o].Id()).Some?
    requires env.answers(m.server.calls).refusal.None?
    requires Resolve(StateFor(cfg, m.heap[o], ds)) != Remove ==> m.heap[o].gvk in env.served
    ensures Visit(env, cfg, m, o, ds).combined == m.combined
  {
    PrepareKeepsIdentity(cfg, m.heap[o]);
    InSyncSucceeds(env, cfg.opts, m.server, Desired(cfg, m.heap[o]), StateFor(cfg, m.heap[o], ds));
  }

  /** Every object that is not only to be removed has a served type, and every object has a name. */
  ghost predicate Servable(env: Env, cfg: Config, builders: seq<Builder>, heap: Heap)
    requires InHeap(builders, heap)
  {
    forall i :: 0 <= i < |builders| && Takes(builders[i]) ==>
      var o := heap[builders[i].target];
      KeyID(o.Id()).Some? && (Resolve(StateFor(cfg, o, builders[i].state)) != Remove ==> o.gvk in env.served)
  }

  lemma {:induction false} QuietApplySucceeds(env: Env, cfg: Config, p: Progress, builders: seq<Builder>)
    requires InHeap(builders, p.heap) && PlainBuilders(builders) && DistinctKeys(builders, p.heap)
    requires forall i :: 0 <= i < |builders| && Takes(builders[i]) ==>
      NeedsNothing(cfg, p.server, p.heap[builders[i].target], builders[i].state)
    requires Servable(env, cfg, builders, p.heap) && AnsweredFrom(env, p.server.calls)
    requires forall i :: 0 <= i < |builders| ==> !builders[i].Fails?
    ensures ApplyAll(env, cfg, p, builders).combined == p.combined
  {
    if builders != [] {
      var init, last := builders[..|builders| - 1], builders[|builders| - 1];
      assert builders == init + [last];
      QuietParts(cfg, p.server, init, last, p.heap);
      ServableParts(env, cfg, init, last, p.heap);
      QuietApplySucceeds(env, cfg, p, init);
      QuietApply(env, cfg, p, init);
      ApplyTouches(env, cfg, p, init);
      if Takes(last) {
        NewKey(init, last, p.heap);
        HeapUntouched(env, cfg, p, init, last.target);
        QuietVisitSucceeds(env, cfg, ApplyAll(env, cfg, p, init), last.target, last.state);
      }
    }
  }

  lemma ServableParts(env: Env, cfg: Config, init: seq<Builder>, last: Builder, heap: Heap)
    requires InHeap(init + [last], heap) && Servable(env, cfg, init + [last], heap)
    ensures InHeap(init, heap) && Servable(env, cfg, init, heap)
    ensures Takes(last) ==>
      && last.target in heap && KeyID(heap[last.target].Id()).Some?
      && (Resolve(StateFor(cfg, heap[last.target], last.state)) != Remove ==> heap[last.target].gvk in env.served)
  {
    var all := init + [last];
    assert all[|init|] == last && forall i :: 0 <= i < |init| ==> all[i] == init[i];
  }

  lemma EmptyPlan(env: Env, cfg: Config, p: Progress, builders: seq<Builder>, types: seq<GVK>, plan: seq<Obj>,
                  q: Progress)
    requires IsRun(env, cfg, p, builders, types, plan, q)
    requires q.server.log == ApplyAll(env, cfg, p, builders).server.log
    ensures plan == [] && q.combined == ApplyAll(env, cfg, p, builders).combined
  {
    var m := ApplyAll(env, cfg, p, builders);
    PurgeIsPlanned(env, cfg, p, builders, types, plan, q);
    assert |Added(m.server, q.server)| == |plan|;
  }

  /** After a clean run a second one, under the conditions of SecondRunIsQuiet, is clean as well: if its calls are
      answered it ends with no error, asks for no repetition, and purges nothing. */
  lemma SecondRunIsClean(env: Env, env2: Env, cfg: Config, builders: seq<Builder>, types: seq<GVK>,
                         p: Progress, plan: seq<Obj>, q: Progress, p2: Progress, plan2: seq<Obj>, q2: Progress)
    requires IsRun(env, cfg, p, builders, types, plan, q) && p.visited == {}
    requires Orderly(env, builders, p.heap)
    requires Clean(q.combined)
    requires AllListed(env, cfg, ApplyAll(env, cfg, p, builders).server.calls, types)
    requires forall k :: k in q.server.live && (Named(builders, p.heap, k) || Planned(plan, k)) ==>
      !q.server.live[k].deleting
    requires AllocationsSafe(cfg, builders, p.heap)
    requires IsRun(env2, cfg, p2, builders, types, plan2, q2) && p2.visited == {} && p2.server == q.server
    requires SameBuilders(cfg, builders, p.heap, q.heap, p2.heap)
    requires p2.combined == NOTHING && AnsweredFrom(env2, p2.server.calls)
    requires forall i :: 0 <= i < |builders| && Takes(builders[i]) ==>
      p2.heap[builders[i].target].gvk in env2.served
          || Resolve(StateFor(cfg, p2.heap[builders[i].target], builders[i].state)) == Remove
    ensures q2.combined.errors == [] && q2.combined.result == Requeue(false, 0) && plan2 == []
    ensures q2.server.live == q.server.live && q2.server.log == q.server.log
  {
    SecondRunIsQuiet(env, env2, cfg, builders, types, p, plan, q, p2, plan2, q2);
    RunConverges(env, cfg, p, builders, types, plan, q);
    RunKeepsIdentities(env, cfg, p, builders, types, plan, q);
    BuildersNeedNothing(cfg, builders, p, q, p2);
    BuildersPassed(env, cfg, p, builders, types, plan, q);
    QuietApply(env2, cfg, p2, builders);
    QuietApplySucceeds(env2, cfg, p2, builders);
    EmptyPlan(env2, cfg, p2, builders, types, plan2, q2);
  }

  /** No builder of an error-free run fails, and their objects have names. */
  lemma BuildersPassed(env: Env, cfg: Config, p: Progress, builders: seq<Builder>, types: seq<GVK>, plan: seq<Obj>,
                       q: Progress)
    requires IsRun(env, cfg, p, builders, types, plan, q) && q.combined.errors == []
    ensures forall i :: 0 <= i < |builders| ==> !builders[i].Fails?
    ensures forall i :: 0 <= i < |builders| && Takes(builders[i]) ==> KeyID(p.heap[builders[i].target].Id()).Some?
  {
    var m := ApplyAll(env, cfg, p, builders);
    if m.combined.errors == [] {
      ApplyErrors(env, cfg, p, builders);
      CleanApplyVisitsAll(env, cfg, p, builders);
      forall i | 0 <= i < |builders|
        ensures !builders[i].Fails?
        ensures Takes(builders[i]) ==> KeyID(p.heap[builders[i].target].Id()).Some?
      {
        assert !FailsAt(env, cfg, p, builders, i);
        assert Takes(builders[i]) ==> Named(builders, p.heap, p.heap[builders[i].target].Id());
      }
    }
  }

  /** The objects of the builders as they are after a run, in order: those to be absent, or all others. Only the
      static state itself counts as absence. */
  ghost function Reported(cfg: Config, builders: seq<Builder>, was: Heap, now: Heap, absent: bool): seq<Obj>
    requires InHeap(builders, was) && InHeap(builders, now)
  {
    if builders == [] then []
    else
      var init, last := builders[..|builders| - 1], builders[|builders| - 1];
      Reported(cfg, init, was, now, absent)
      + if Takes(last) && absent == (StateFor(cfg, was[last.target], last.state) == Static(StateAbsent))
        then [now[last.target]] else []
  }

  lemma {:induction false} ReportedAlike(cfg: Config, builders: seq<Builder>, was: Heap, now: Heap, later: Heap,
                                         absent: bool)
    requires InHeap(builders, was) && InHeap(builders, now) && InHeap(builders, later)
    requires forall i :: 0 <= i < |builders| && Takes(builders[i]) ==>
      now[builders[i].target] == later[builders[i].target]
    ensures Reported(cfg, builders, was, now, absent) == Reported(cfg, builders, was, later, absent)
  {
    if builders != [] {
      ReportedAlike(cfg, builders[..|builders| - 1], was, now, later, absent);
    }
  }

  lemma ReportGrows(cfg: Config, init: seq<Builder>, last: Builder, was: Heap, now: Heap, later: Heap, absent: bool)
    requires InHeap(init + [last], was) && DistinctKeys(init + [last], was) && Takes(last)
    requires now.Keys == was.Keys == later.Keys && forall r :: r in now && r != last.target ==> later[r] == now[r]
    ensures InHeap(init, was) && InHeap(init, now) && last.target in later
    ensures Reported(cfg, init + [last], was, later, absent) == Reported(cfg, init, was, now, absent)
      + if absent == (StateFor(cfg, was[last.target], last.state) == Static(StateAbsent)) then [later[last.target]]
        else []
  {
    NewKey(init, last, was);
    assert (init + [last])[..|init|] == init;
    forall i | 0 <= i < |init| && Takes(init[i]) ensures now[init[i].target] == later[init[i].target] {
      assert Named(init, was, was[init[i].target].Id());
    }
    ReportedAlike(cfg, init, was, now, later, absent);
  }

  lemma VisitReports(env: Env, cfg: Config, m: Progress, o: RuntimeObject, ds: DesiredState)
    requires o in m.heap && Visit(env, cfg, m, o, ds).combined.errors == []
    ensures var q := Visit(env, cfg, m, o, ds); var absent := StateFor(cfg, m.heap[o], ds) == Static(StateAbsent);
      && q.present == m.present + (if absent then [] else [q.heap[o]])
      && q.absent == m.absent + (if absent then [q.heap[o]] else [])
  {
  }

  /** What has been reported since `p`, the builders so far having left `q`. */
  ghost predicate ReportsAre(cfg: Config, p: Progress, q: Progress, builders: seq<Builder>)
    requires InHeap(builders, p.heap) && InHeap(builders, q.heap)
  {
    && q.present == p.present + Reported(cfg, builders, p.heap, q.heap, false)
    && q.absent == p.absent + Reported(cfg, builders, p.heap, q.heap, true)
  }

  lemma ReportsGrow(cfg: Config, p: Progress, m: Progress, q: Progress, init: seq<Builder>, last: Builder)
    requires InHeap(init + [last], p.heap) && DistinctKeys(init + [last], p.heap) && Takes(last)
    requires last.target in p.heap && m.heap.Keys == p.heap.Keys == q.heap.Keys
    requires InHeap(init, p.heap) && InHeap(init, m.heap) && ReportsAre(cfg, p, m, init)
    requires forall r :: r in m.heap && r != last.target ==> q.heap[r] == m.heap[r]
    requires m.heap[last.target] == p.heap[last.target]
    requires var absent := StateFor(cfg, m.heap[last.target], last.state) == Static(StateAbsent);
      && q.present == m.present + (if absent then [] else [q.heap[last.target]])
      && q.absent == m.absent + (if absent then [q.heap[last.target]] else [])
    ensures ReportsAre(cfg, p, q, init + [last])
  {
    ReportGrows(cfg, init, last, p.heap, m.heap, q.heap, false);
    ReportGrows(cfg, init, last, p.heap, m.heap, q.heap, true);
  }

  /** What an error-free apply loop over distinct objects reports: each builder's object, as the run left it, in the
      order of the builders, as absent if its state is the static one and as present otherwise. */
  lemma {:induction false} ApplyReports(env: Env, cfg: Config, p: Progress, builders: seq<Builder>)
    requires InHeap(builders, p.heap) && DistinctKeys(builders, p.heap)
    requires ApplyAll(env, cfg, p, builders).combined.errors == []
    ensures ReportsAre(cfg, p, ApplyAll(env, cfg, p, builders), builders)
  {
    if builders != [] {
      var init, last := builders[..|builders| - 1], builders[|builders| - 1];
      assert builders == init + [last];
      var m := ApplyAll(env, cfg, p, init);
      StepErrors(env, cfg, m, last);
      DistinctInit(init, last, p.heap);
      ApplyReports(env, cfg, p, init);
      if Takes(last) {
        NotYetTouched(env, cfg, p, init, last);
        VisitRemembers(env, cfg, m, last.target, last.state);
        VisitReports(env, cfg, m, last.target, last.state);
        ReportsGrow(cfg, p, m, Visit(env, cfg, m, last.target, last.state), init, last);
      }
    }
  }

  lemma DistinctInit(init: seq<Builder>, last: Builder, heap: Heap)
    requires InHeap(init + [last], heap) && DistinctKeys(init + [last], heap)
    ensures InHeap(init, heap) && DistinctKeys(init, heap)
  {
    assert forall i :: 0 <= i < |init| ==> (init + [last])[i] == init[i];
  }
}
