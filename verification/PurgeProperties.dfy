/** What a run purges: exactly the component's unvisited objects of the listed types, and nothing after an error. */
module PurgeProperties {
  import opened Objects
  import opened Cluster
  import opened DesiredStates
  import opened ResourceMachine
  import opened ResourceProperties
  import opened Identity
  import opened Sort
  import opened NativeMachine
  import opened RunFrames

  ghost predicate Planned(plan: seq<Obj>, key: Key) {
    exists o :: o in plan && o.Id() == key
  }

  /** An object that deletion has not at least marked. */
  predicate Alive(s: Server, key: Key) {
    key in s.live && !s.live[key].deleting
  }

  /** The purge asks for the planned deletions in order, and nothing else. Objects outside the plan stay as they
      are; without an error no planned object stays alive. */
  lemma {:induction false} DeleteAllEffect(env: Env, p: Progress, plan: seq<Obj>)
    ensures var q := DeleteAll(env, p, plan);
      && Follows(p.server, q.server)
      && Added(p.server, q.server) == seq(|plan|, i requires 0 <= i < |plan| => Deleted(plan[i].Id()))
      && (forall k :: !Planned(plan, k) ==> (k in q.server.live <==> k in p.server.live))
      && (forall k :: !Planned(plan, k) && k in p.server.live ==> q.server.live[k] == p.server.live[k])
      && (q.combined.errors == [] ==> forall k :: Planned(plan, k) ==> !Alive(q.server, k))
      && p.combined.errors <= q.combined.errors && q.combined.result == p.combined.result
      && q.visited == p.visited && q.heap == p.heap
  {
    if plan != [] {
      var init, o := plan[..|plan| - 1], plan[|plan| - 1];
      assert plan == init + [o];
      var m := DeleteAll(env, p, init);
      DeleteAllEffect(env, p, init);
      DeleteOneEffect(env, m, o);
      AddedConcat(p.server, m.server, DeleteOne(env, m, o).server);
      PlannedLast(init, o);
    }
  }

  lemma DeleteOneEffect(env: Env, m: Progress, o: Obj)
    ensures var q := DeleteOne(env, m, o);
      && Follows(m.server, q.server) && Added(m.server, q.server) == [Deleted(o.Id())]
      && (forall k :: k != o.Id() ==> (k in q.server.live <==> k in m.server.live))
      && (forall k :: k != o.Id() && k in m.server.live ==> q.server.live[k] == m.server.live[k])
      && (q.combined.errors == [] ==> !Alive(q.server, o.Id()))
      && m.combined.errors <= q.combined.errors && q.combined.result == m.combined.result
      && q.visited == m.visited && q.heap == m.heap
  {
    var q := DeleteOne(env, m, o);
    DeleteTouches(env, m.server, o.gvk, o.Id(), false);
    forall k | k != o.Id()
      ensures (k in q.server.live <==> k in m.server.live)
      ensures (k in m.server.live ==> q.server.live[k] == m.server.live[k])
    {
      TouchesOther(m.server, q.server, o.Id(), k);
    }
  }

  lemma PlannedLast(init: seq<Obj>, o: Obj)
    ensures forall k :: Planned(init + [o], k) <==> Planned(init, k) || k == o.Id()
  {
    assert o in init + [o];
    forall k | Planned(init, k) ensures Planned(init + [o], k) {
      var x :| x in init && x.Id() == k;
      assert x in init + [o];
    }
  }

  /** Deleting changes no content. */
  lemma {:induction false} DeleteAllKeepsContent(env: Env, p: Progress, plan: seq<Obj>, k: Key)
    ensures var q := DeleteAll(env, p, plan);
      k in q.server.live ==>
        k in p.server.live && q.server.live[k].content == p.server.live[k].content
            && (p.server.live[k].deleting ==> q.server.live[k].deleting)
  {
    if plan != [] {
      DeleteAllKeepsContent(env, p, plan[..|plan| - 1], k);
    }
  }

  /** A type that the mapper does not rule out: there is no mapper, it fails, or its mappings hold the type. */
  predicate MapperAdmits(mapper: Option<GVK -> Mapping>, gvk: GVK) {
    || mapper.None?
    || mapper.value(gvk) == MapperFailed
    || (mapper.value(gvk).Mappings? && gvk in mapper.value(gvk).gvks)
  }

  /** The number of admitted types; each takes one list call. */
  function Admitted(mapper: Option<GVK -> Mapping>, types: seq<GVK>): nat {
    if types == [] then 0
    else Admitted(mapper, types[..|types| - 1]) + if MapperAdmits(mapper, types[|types| - 1]) then 1 else 0
  }

  /** The i-th type is admitted, and its list is answered. */
  predicate ListedAt(env: Env, mapper: Option<GVK -> Mapping>, calls: nat, types: seq<GVK>, i: nat)
    requires i < |types|
  {
    MapperAdmits(mapper, types[i]) && ListAnswered(env, calls + Admitted(mapper, types[..i]), types[i])
  }

  ghost predicate ListedType(env: Env, mapper: Option<GVK -> Mapping>, calls: nat, types: seq<GVK>, g: GVK) {
    exists i :: 0 <= i < |types| && types[i] == g && ListedAt(env, mapper, calls, types, i)
  }

  /** Exactly the admitted types whose list is answered are listed. */
  lemma {:induction false} ListedIff(env: Env, mapper: Option<GVK -> Mapping>, calls: nat, types: seq<GVK>)
    ensures var (n, listed) := Listing(env, mapper, calls, types);
      && n == calls + Admitted(mapper, types)
      && forall g :: g in listed <==> ListedType(env, mapper, calls, types, g)
  {
    if types != [] {
      var init, last := types[..|types| - 1], types[|types| - 1];
      ListedIff(env, mapper, calls, init);
      forall g ensures ListedType(env, mapper, calls, types, g) <==>
        ListedType(env, mapper, calls, init, g)
        || (g == last && ListedAt(env, mapper, calls, types, |types| - 1))
      {
        ListedLast(env, mapper, calls, init, last, g);
        assert init + [last] == types;
      }
    }
  }

  lemma ListedEarlier(env: Env, mapper: Option<GVK -> Mapping>, calls: nat, init: seq<GVK>, last: GVK, i: nat)
    requires i < |init|
    ensures (init + [last])[i] == init[i]
    ensures ListedAt(env, mapper, calls, init + [last], i) <==> ListedAt(env, mapper, calls, init, i)
  {
    assert (init + [last])[..i] == init[..i];
  }

  lemma ListedLast(env: Env, mapper: Option<GVK -> Mapping>, calls: nat, init: seq<GVK>, last: GVK, g: GVK)
    ensures ListedType(env, mapper, calls, init + [last], g) <==>
      (ListedType(env, mapper, calls, init, g)
       || (g == last && ListedAt(env, mapper, calls, init + [last], |init|)))
  {
    var all := init + [last];
    if i :| 0 <= i < |all| && all[i] == g && ListedAt(env, mapper, calls, all, i) {
      if i < |init| {
        ListedEarlier(env, mapper, calls, init, last, i);
      }
    }
    if i :| 0 <= i < |init| && init[i] == g && ListedAt(env, mapper, calls, init, i) {
      ListedEarlier(env, mapper, calls, init, last, i);
    }
  }

  /** Every list that the purge asks for is answered. */
  ghost predicate AllListed(env: Env, cfg: Config, calls: nat, types: seq<GVK>) {
    forall i :: 0 <= i < |types| && MapperAdmits(cfg.mapper, types[i]) ==> ListedAt(env, cfg.mapper, calls, types, i)
  }

  /** Then exactly the admitted types are listed. */
  lemma AllListedMeans(env: Env, cfg: Config, calls: nat, types: seq<GVK>)
    requires AllListed(env, cfg, calls, types)
    ensures forall g :: g in Listing(env, cfg.mapper, calls, types).1 <==> g in types && MapperAdmits(cfg.mapper, g)
  {
    ListedIff(env, cfg.mapper, calls, types);
    forall g | g in types && MapperAdmits(cfg.mapper, g) ensures ListedType(env, cfg.mapper, calls, types, g) {
      var i :| 0 <= i < |types| && types[i] == g;
      assert ListedAt(env, cfg.mapper, calls, types, i);
    }
  }

  lemma ListedAreTypes(env: Env, mapper: Option<GVK -> Mapping>, calls: nat, types: seq<GVK>)
    ensures forall g :: g in Listing(env, mapper, calls, types).1 ==>
      g in types && MapperAdmits(mapper, g) && g in env.served
    ensures calls <= Listing(env, mapper, calls, types).0
  {
    ListedIff(env, mapper, calls, types);
  }

  /** What can go wrong with one builder: it fails, or its object cannot be annotated, owned or modified, cannot be
      reconciled, or has no name. */
  ghost predicate StepFails(env: Env, cfg: Config, m: Progress, b: Builder)
    requires b.Builds? ==> b.target in m.heap
  {
    match b
    case Fails => true
    case Nothing(_) => false
    case Builds(o, ds) =>
      !ds.NoState? &&
      var prepared := Prepare(cfg, m.heap[o]);
      || prepared.error.Some?
      || ReconcileResource(env, cfg.opts, m.server, prepared.desired, Effective(prepared.desired, ds)).error.Some?
      || KeyID(m.heap[o].Id()).None?
  }

  /** The i-th builder of the apply loop goes wrong, in the state that the earlier ones left. */
  ghost predicate FailsAt(env: Env, cfg: Config, p: Progress, builders: seq<Builder>, i: nat)
    requires InHeap(builders, p.heap) && i < |builders|
  {
    StepFails(env, cfg, ApplyAll(env, cfg, p, builders[..i]), builders[i])
  }

  lemma StepErrors(env: Env, cfg: Config, m: Progress, b: Builder)
    requires b.Builds? ==> b.target in m.heap
    ensures Step(env, cfg, m, b).combined.errors == [] <==> m.combined.errors == [] && !StepFails(env, cfg, m, b)
  {
    if b.Builds? {
      PrepareKeepsIdentity(cfg, m.heap[b.target]);
    }
  }

  /** The apply loop collects an error iff one of its steps goes wrong, and no later step makes up for it. */
  lemma {:induction false} ApplyErrors(env: Env, cfg: Config, p: Progress, builders: seq<Builder>)
    requires InHeap(builders, p.heap)
    ensures ApplyAll(env, cfg, p, builders).combined.errors == [] <==>
      p.combined.errors == [] && forall i :: 0 <= i < |builders| ==> !FailsAt(env, cfg, p, builders, i)
  {
    if builders != [] {
      var n := |builders| - 1;
      ApplyErrors(env, cfg, p, builders[..n]);
      StepErrors(env, cfg, ApplyAll(env, cfg, p, builders[..n]), builders[n]);
      forall i | 0 <= i < n ensures FailsAt(env, cfg, p, builders[..n], i) <==> FailsAt(env, cfg, p, builders, i) {
        FailsEarlier(env, cfg, p, builders, n, i);
      }
      FailsLast(env, cfg, p, builders, n);
    }
  }

  lemma FailsEarlier(env: Env, cfg: Config, p: Progress, builders: seq<Builder>, n: nat, i: nat)
    requires InHeap(builders, p.heap) && i < n <= |builders|
    ensures FailsAt(env, cfg, p, builders[..n], i) <==> FailsAt(env, cfg, p, builders, i)
  {
    assert builders[..n][..i] == builders[..i];
  }

  lemma FailsLast(env: Env, cfg: Config, p: Progress, builders: seq<Builder>, n: nat)
    requires InHeap(builders, p.heap) && |builders| == n + 1
    ensures ApplyAll(env, cfg, p, builders) == Step(env, cfg, ApplyAll(env, cfg, p, builders[..n]), builders[n])
    ensures FailsAt(env, cfg, p, builders, n) <==>
      StepFails(env, cfg, ApplyAll(env, cfg, p, builders[..n]), builders[n])
  {
  }

  /** Everything the purge of a run does to the cluster. If any step of the apply loop goes wrong, that is nothing.
      Otherwise it asks, in uninstall order, for the deletion of exactly the objects that some answered list of an
      existing purge type shows, that carry the component ID, and whose resource ID was not visited. */
  lemma PurgeIsExactAndGated(env: Env, cfg: Config, p: Progress, builders: seq<Builder>, types: seq<GVK>,
                             plan: seq<Obj>, q: Progress)
    requires IsRun(env, cfg, p, builders, types, plan, q) && p.combined.errors == []
    ensures var m := ApplyAll(env, cfg, p, builders);
      && Follows(m.server, q.server)
      && Added(m.server, q.server) == seq(|plan|, i requires 0 <= i < |plan| => Deleted(plan[i].Id()))
      && ((exists i :: 0 <= i < |builders| && FailsAt(env, cfg, p, builders, i)) ==> plan == [] && q.server == m.server)
      && ((forall i :: 0 <= i < |builders| ==> !FailsAt(env, cfg, p, builders, i)) ==>
            && Sorted(ScoreOf(UninstallOrder), plan)
            && forall o :: o in plan <==>
                 && ListedType(env, cfg.mapper, m.server.calls, types, o.gvk)
                 && Listable(m.server, o)
                 && MANAGED_COMPONENT in o.content.annotations && o.content.annotations[MANAGED_COMPONENT] == cfg.id
                 && KeyID(o.Id()).value !in m.visited)
      && (forall o :: o in plan ==> o.gvk in types && MapperAdmits(cfg.mapper, o.gvk))
  {
    ApplyErrors(env, cfg, p, builders);
    ListedIff(env, cfg.mapper, ApplyAll(env, cfg, p, builders).server.calls, types);
    PurgeIsPlanned(env, cfg, p, builders, types, plan, q);
  }

  /** The same in terms of the errors collected. */
  lemma PurgeIsPlanned(env: Env, cfg: Config, p: Progress, builders: seq<Builder>, types: seq<GVK>, plan: seq<Obj>,
                       q: Progress)
    requires IsRun(env, cfg, p, builders, types, plan, q)
    ensures var m := ApplyAll(env, cfg, p, builders);
      && Follows(m.server, q.server)
      && Added(m.server, q.server) == seq(|plan|, i requires 0 <= i < |plan| => Deleted(plan[i].Id()))
      && (m.combined.errors != [] ==> plan == [] && q.server == m.server)
      && (m.combined.errors == [] ==>
        IsPlan(cfg.id, m.server, m.visited, Listing(env, cfg.mapper, m.server.calls, types).1, plan))
      && (forall o :: o in plan ==> o.gvk in types && MapperAdmits(cfg.mapper, o.gvk))
  {
    var m := ApplyAll(env, cfg, p, builders);
    if m.combined.errors == [] {
      var n := Listing(env, cfg.mapper, m.server.calls, types).0;
      ListedAreTypes(env, cfg.mapper, m.server.calls, types);
      DeleteAllEffect(env, m.(server := m.server.(calls := n)), plan);
    }
  }

  /** An object whose resource ID was visited is neither changed nor asked to be deleted by the purge, under
      whatever version of its kind the purge lists it. */
  lemma VisitedSurvivesPurge(env: Env, cfg: Config, p: Progress, builders: seq<Builder>, types: seq<GVK>,
                             plan: seq<Obj>, q: Progress, key: Key)
    requires IsRun(env, cfg, p, builders, types, plan, q)
    requires KeyID(key).Some? && KeyID(key).value in ApplyAll(env, cfg, p, builders).visited
    ensures var m := ApplyAll(env, cfg, p, builders);
      && !Planned(plan, key)
      && (key in q.server.live <==> key in m.server.live)
      && (key in m.server.live ==> q.server.live[key] == m.server.live[key])
      && Follows(m.server, q.server) && Deleted(key) !in Added(m.server, q.server)
  {
    var m := ApplyAll(env, cfg, p, builders);
    PurgeIsPlanned(env, cfg, p, builders, types, plan, q);
    if m.combined.errors == [] {
      var n := Listing(env, cfg.mapper, m.server.calls, types).0;
      DeleteAllEffect(env, m.(server := m.server.(calls := n)), plan);
    }
  }

  lemma CleanVisit(env: Env, cfg: Config, m: Progress, o: RuntimeObject, ds: DesiredState)
    requires o in m.heap && Visit(env, cfg, m, o, ds).combined.errors == []
    ensures m.combined.errors == [] && KeyID(m.heap[o].Id()).Some?
    ensures Visit(env, cfg, m, o, ds).visited == m.visited + {KeyID(m.heap[o].Id()).value}
  {
    PrepareKeepsIdentity(cfg, m.heap[o]);
    var prepared := Prepare(cfg, m.heap[o]);
    if prepared.error.None? {
      OneObjectContract(env, cfg.opts, m.server, prepared.desired, Effective(prepared.desired, ds));
    }
  }

  /** The visited IDs are those of the named objects. */
  ghost predicate VisitedAre(visited: set<string>, others: set<string>, builders: seq<Builder>, heap: Heap)
    requires InHeap(builders, heap)
  {
    && (forall k :: Named(builders, heap, k) ==> KeyID(k).Some? && KeyID(k).value in visited)
    && (forall id :: id in visited ==> id in others || exists k :: Named(builders, heap, k) && KeyID(k) == Some(id))
  }

  lemma VisitedAreNext(visited: set<string>, others: set<string>, init: seq<Builder>, last: Builder, heap: Heap)
    requires InHeap(init, heap) && VisitedAre(visited, others, init, heap)
    requires last.Builds? ==> last.target in heap
    requires Takes(last) ==> KeyID(heap[last.target].Id()).Some?
    ensures InHeap(init + [last], heap)
    ensures VisitedAre(if Takes(last) then visited + {KeyID(heap[last.target].Id()).value}
        else visited, others, init + [last], heap)
  {
    var all := init + [last];
    var now := if Takes(last) then visited + {KeyID(heap[last.target].Id()).value} else visited;
    if last.Builds? {
      NamedExtends(init, last, heap, heap[last.target].Id());
    }
    forall k ensures Named(all, heap, k) <==> Named(init, heap, k) || (Takes(last) && heap[last.target].Id() == k) {
      NamedExtends(init, last, heap, k);
    }
    forall id | id in now ensures id in others || exists k :: Named(all, heap, k) && KeyID(k) == Some(id) {
      if id in visited && id !in others {
        var k :| Named(init, heap, k) && KeyID(k) == Some(id);
        assert Named(all, heap, k);
      } else if id !in visited {
        assert Named(all, heap, heap[last.target].Id());
      }
    }
  }

  /** After an error-free apply loop the visited IDs are exactly those of the builders' objects. */
  lemma {:induction false} CleanApplyVisitsAll(env: Env, cfg: Config, p: Progress, builders: seq<Builder>)
    requires InHeap(builders, p.heap)
    requires ApplyAll(env, cfg, p, builders).combined.errors == []
    ensures p.combined.errors == []
    ensures VisitedAre(ApplyAll(env, cfg, p, builders).visited, p.visited, builders, p.heap)
  {
    if builders != [] {
      var init, last := builders[..|builders| - 1], builders[|builders| - 1];
      assert builders == init + [last];
      var m := ApplyAll(env, cfg, p, init);
      if Takes(last) {
        CleanVisit(env, cfg, m, last.target, last.state);
      }
      CleanApplyVisitsAll(env, cfg, p, init);
      ApplyTouches(env, cfg, p, init);
      VisitedAreNext(m.visited, p.visited, init, last, p.heap);
    }
  }
}
