/** What a run leaves alone: objects no builder names, and the identities of in-memory objects. */
module RunFrames {
  import opened Objects
  import opened Cluster
  import opened DesiredStates
  import opened ResourceMachine
  import opened ResourceProperties
  import opened Identity
  import opened NativeMachine

  /** A builder that gets as far as being prepared. */
  predicate Takes(b: Builder) {
    b.Builds? && !b.state.NoState?
  }

  /** The objects that the builders name. */
  ghost predicate Named(builders: seq<Builder>, heap: Heap, key: Key)
    requires InHeap(builders, heap)
  {
    exists i :: 0 <= i < |builders| && Takes(builders[i]) && heap[builders[i].target].Id() == key
  }

  ghost predicate SameIdentities(heap: Heap, heap': Heap) {
    heap.Keys == heap'.Keys && forall o :: o in heap ==> heap[o].SameIdentity(heap'[o])
  }

  lemma {:induction false} ModifyKeepsIdentity(modifiers: seq<(Obj, Owner) -> Option<Content>>, owner: Owner, d: Obj)
    ensures Modify(modifiers, owner, d).desired.SameIdentity(d) && Modify(modifiers, owner, d).desired.rv == d.rv
  {
    if modifiers != [] {
      ModifyKeepsIdentity(modifiers[..|modifiers| - 1], owner, d);
    }
  }

  lemma PrepareKeepsIdentity(cfg: Config, d: Obj)
    ensures Prepare(cfg, d).desired.SameIdentity(d) && Prepare(cfg, d).desired.rv == d.rv
  {
    var annotated := AddComponentID(d, cfg.id);
    if annotated.Some? {
      var related := WithAnnotation(annotated.value, RELATED_TO, RelatedTo(cfg.owner));
      ModifyKeepsIdentity(cfg.modifiers, cfg.owner, related);
      if SetController(cfg.owner, related).Some? {
        ModifyKeepsIdentity(cfg.modifiers, cfg.owner, SetController(cfg.owner, related).value);
      }
    }
  }

  /** No modifier touches the annotation. */
  ghost predicate Spares(modifiers: seq<(Obj, Owner) -> Option<Content>>, key: string) {
    forall i, d, owner :: 0 <= i < |modifiers| && modifiers[i](d, owner).Some? && key in d.content.annotations ==>
      key in modifiers[i](d, owner).value.annotations
          && modifiers[i](d, owner).value.annotations[key] == d.content.annotations[key]
  }

  lemma {:induction false} ModifyKeepsAnnotation(modifiers: seq<(Obj, Owner) -> Option<Content>>, owner: Owner, d: Obj,
                                                 key: string)
    requires Spares(modifiers, key) && key in d.content.annotations
    ensures var a := Modify(modifiers, owner, d).desired.content.annotations;
      key in a && a[key] == d.content.annotations[key]
  {
    if modifiers != [] {
      var init := modifiers[..|modifiers| - 1];
      assert forall i :: 0 <= i < |init| ==> init[i] == modifiers[i];
      ModifyKeepsAnnotation(init, owner, d, key);
    }
  }

  /** An annotation that no modifier touches, and that is not one of the two written here, comes through. */
  lemma PrepareKeepsAnnotation(cfg: Config, d: Obj, key: string)
    requires Spares(cfg.modifiers, key) && key in d.content.annotations && key != MANAGED_COMPONENT && key != RELATED_TO
    ensures var a := Prepare(cfg, d).desired.content.annotations; key in a && a[key] == d.content.annotations[key]
  {
    var annotated := AddComponentID(d, cfg.id);
    if annotated.Some? {
      var related := WithAnnotation(annotated.value, RELATED_TO, RelatedTo(cfg.owner));
      ModifyKeepsAnnotation(cfg.modifiers, cfg.owner, related, key);
      if SetController(cfg.owner, related).Some? {
        ModifyKeepsAnnotation(cfg.modifiers, cfg.owner, SetController(cfg.owner, related).value, key);
      }
    }
  }

  /** What a visit does to the cluster: nothing if preparing the object failed, else one reconciliation. */
  lemma VisitReconciles(env: Env, cfg: Config, p: Progress, o: RuntimeObject, ds: DesiredState)
    requires o in p.heap
    ensures var q := Visit(env, cfg, p, o, ds); var prepared := Prepare(cfg, p.heap[o]);
      q.server == (if prepared.error.Some? then p.server
                   else ReconcileResource(env, cfg.opts, p.server, prepared.desired,
                                          Effective(prepared.desired, ds)).server)
  {}

  lemma VisitRemembers(env: Env, cfg: Config, p: Progress, o: RuntimeObject, ds: DesiredState)
    requires o in p.heap
    ensures var q := Visit(env, cfg, p, o, ds);
      && SameIdentities(p.heap, q.heap)
      && (forall r :: r in p.heap && r != o ==> q.heap[r] == p.heap[r])
      && p.visited <= q.visited <= p.visited
          + (if KeyID(p.heap[o].Id()).Some? then {KeyID(p.heap[o].Id()).value} else {})
  {
    PrepareKeepsIdentity(cfg, p.heap[o]);
  }

  /** One builder touches at most the object it names, in the cluster and in memory. */
  lemma VisitTouches(env: Env, cfg: Config, p: Progress, o: RuntimeObject, ds: DesiredState)
    requires o in p.heap
    ensures var q := Visit(env, cfg, p, o, ds);
      && OnlyTouches(p.server, q.server, p.heap[o].Id())
      && SameIdentities(p.heap, q.heap)
      && (forall r :: r in p.heap && r != o ==> q.heap[r] == p.heap[r])
      && p.visited <= q.visited <= p.visited
          + (if KeyID(p.heap[o].Id()).Some? then {KeyID(p.heap[o].Id()).value} else {})
  {
    PrepareKeepsIdentity(cfg, p.heap[o]);
    VisitRemembers(env, cfg, p, o, ds);
    VisitReconciles(env, cfg, p, o, ds);
    var prepared := Prepare(cfg, p.heap[o]);
    if prepared.error.None? {
      OneObjectContract(env, cfg.opts, p.server, prepared.desired, Effective(prepared.desired, ds));
    }
  }

  /** Objects that no builder names come through the apply loop unchanged and unasked for. */
  lemma {:induction false} ApplyTouches(env: Env, cfg: Config, p: Progress, builders: seq<Builder>)
    requires InHeap(builders, p.heap)
    ensures var q := ApplyAll(env, cfg, p, builders);
      && SameIdentities(p.heap, q.heap)
      && Follows(p.server, q.server)
      && p.visited <= q.visited
      && (forall k :: !Named(builders, p.heap, k) ==>
            && (k in q.server.live <==> k in p.server.live)
            && (k in p.server.live ==> q.server.live[k] == p.server.live[k])
            && (forall w :: w in Added(p.server, q.server) ==> w.key != k))
  {
    if builders != [] {
      var init, last := builders[..|builders| - 1], builders[|builders| - 1];
      assert builders == init + [last];
      ApplyTouches(env, cfg, p, init);
      var m := ApplyAll(env, cfg, p, init);
      var q := ApplyAll(env, cfg, p, builders);
      if Takes(last) {
        VisitTouches(env, cfg, m, last.target, last.state);
        AddedConcat(p.server, m.server, q.server);
      }
      forall k | !Named(builders, p.heap, k)
        ensures k in q.server.live <==> k in p.server.live
        ensures k in p.server.live ==> q.server.live[k] == p.server.live[k]
        ensures forall w :: w in Added(p.server, q.server) ==> w.key != k
      {
        NamedExtends(init, last, p.heap, k);
        if Takes(last) {
          TouchesOther(m.server, q.server, m.heap[last.target].Id(), k);
        }
      }
    }
  }

  lemma IdentitiesStay(env: Env, cfg: Config, p: Progress, builders: seq<Builder>)
    requires InHeap(builders, p.heap)
    ensures SameIdentities(p.heap, ApplyAll(env, cfg, p, builders).heap)
  {
    ApplyTouches(env, cfg, p, builders);
  }

  lemma NamedExtends(init: seq<Builder>, last: Builder, heap: Heap, k: Key)
    requires InHeap(init, heap) && (last.Builds? ==> last.target in heap)
    ensures InHeap(init + [last], heap)
    ensures Named(init + [last], heap, k) <==> Named(init, heap, k) || (Takes(last) && heap[last.target].Id() == k)
  {
    var all := init + [last];
    assert forall i :: 0 <= i < |init| ==> all[i] == init[i];
    if Named(init, heap, k) {
      var i :| 0 <= i < |init| && Takes(init[i]) && heap[init[i].target].Id() == k;
      assert Takes(all[i]) && heap[all[i].target].Id() == k;
    }
    if Takes(last) && heap[last.target].Id() == k {
      assert Takes(all[|init|]);
    }
  }

  /** In-memory objects that no builder names stay as they are. */
  lemma {:induction false} HeapUntouched(env: Env, cfg: Config, p: Progress, builders: seq<Builder>, o: RuntimeObject)
    requires InHeap(builders, p.heap) && o in p.heap && !Named(builders, p.heap, p.heap[o].Id())
    ensures ApplyAll(env, cfg, p, builders).heap[o] == p.heap[o]
  {
    if builders != [] {
      var init, last := builders[..|builders| - 1], builders[|builders| - 1];
      assert builders == init + [last];
      NamedExtends(init, last, p.heap, p.heap[o].Id());
      HeapUntouched(env, cfg, p, init, o);
      if Takes(last) {
        VisitTouches(env, cfg, ApplyAll(env, cfg, p, init), last.target, last.state);
      }
    }
  }
}
