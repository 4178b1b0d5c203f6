/** Safety over any number of runs: what is never adopted, never deleted and never updated. */
module RunHistories {
  import opened Objects
  import opened Cluster
  import opened DesiredStates
  import opened ResourceMachine
  import opened ResourceProperties
  import opened Convergence
  import opened NativeMachine
  import opened RunFrames
  import opened PurgeProperties
  import opened RunConvergence

  /** One finished run, of any component, with its inputs and what it purged. */
  datatype Run = Run(env: Env, cfg: Config, start: Progress, builders: seq<Builder>, types: seq<GVK>, plan: seq<Obj>,
                     end: Progress)

  ghost predicate Happened(r: Run) {
    IsRun(r.env, r.cfg, r.start, r.builders, r.types, r.plan, r.end)
  }

  /** Runs one after the other on the same cluster. */
  ghost predicate History(runs: seq<Run>) {
    && (forall i :: 0 <= i < |runs| ==> Happened(runs[i]))
    && (forall i :: 0 < i < |runs| ==> runs[i].start.server == runs[i - 1].end.server)
  }

  /** The server between the apply loop and the purge of a run. */
  ghost function Middle(r: Run): Server
    requires Happened(r)
  {
    ApplyAll(r.env, r.cfg, r.start, r.builders).server
  }

  /** The apply loop of a run asked for the deletion of an object. */
  ghost predicate DeletedByApply(r: Run, key: Key)
    requires Happened(r)
  {
    Follows(r.start.server, Middle(r)) && Deleted(key) in Added(r.start.server, Middle(r))
  }

  /** Why a builder may have had an object deleted: it wants it absent, or an immutable field had to change. */
  ghost predicate DeletionCause(env: Env, cfg: Config, heap: Heap, builders: seq<Builder>, key: Key, from: Server,
                                to: Server)
    requires InHeap(builders, heap)
  {
    exists i :: 0 <= i < |builders| && Takes(builders[i]) && heap[builders[i].target].Id() == key &&
      (Resolve(builders[i].state) == Remove
          || RecreateWasDue(env, cfg.opts, heap[builders[i].target].gvk, key, from, to))
  }

  lemma EffectiveRemoves(d: Obj, ds: DesiredState)
    ensures Resolve(Effective(d, ds)) == Remove ==> Resolve(ds) == Remove
  {
  }

  /** One visit: the object stays unmanaged or is deleted, and a deletion has a cause. */
  lemma VisitNoAdoption(env: Env, cfg: Config, p: Progress, o: RuntimeObject, ds: DesiredState, key: Key)
    requires o in p.heap
    ensures var q := Visit(env, cfg, p, o, ds);
      && Follows(p.server, q.server)
      && (Plain(ds) && Unmanaged(p.server, key) ==>
        Unmanaged(q.server, key) || Deleted(key) in Added(p.server, q.server))
      && (Deleted(key) in Added(p.server, q.server) ==>
            && p.heap[o].Id() == key
            && (Resolve(ds) == Remove || RecreateWasDue(env, cfg.opts, p.heap[o].gvk, key, p.server, q.server)))
  {
    VisitTouches(env, cfg, p, o, ds);
    PrepareKeepsIdentity(cfg, p.heap[o]);
    VisitReconciles(env, cfg, p, o, ds);
    if p.heap[o].Id() != key {
      TouchesOther(p.server, Visit(env, cfg, p, o, ds).server, p.heap[o].Id(), key);
    } else if Prepare(cfg, p.heap[o]).error.None? {
      var d, state := Desired(cfg, p.heap[o]), StateFor(cfg, p.heap[o], ds);
      EffectiveRemoves(d, ds);
      OneObjectContract(env, cfg.opts, p.server, d, state);
      if Plain(ds) && Unmanaged(p.server, key) {
        NoAdoption(env, cfg.opts, p.server, d, state);
      }
    }
  }

  lemma {:induction false} ApplyNoAdoption(env: Env, cfg: Config, p: Progress, builders: seq<Builder>, key: Key)
    requires InHeap(builders, p.heap)
    ensures var q := ApplyAll(env, cfg, p, builders);
      && Follows(p.server, q.server)
      && (PlainBuilders(builders) && Unmanaged(p.server, key) ==>
        Unmanaged(q.server, key) || Deleted(key) in Added(p.server, q.server))
      && (Deleted(key) in Added(p.server, q.server) ==>
        DeletionCause(env, cfg, p.heap, builders, key, p.server, q.server))
  {
    if builders != [] {
      var init, last := builders[..|builders| - 1], builders[|builders| - 1];
      assert builders == init + [last];
      var m := ApplyAll(env, cfg, p, init);
      ApplyNoAdoption(env, cfg, p, init, key);
      ApplyTouches(env, cfg, p, init);
      StepNoAdoption(env, cfg, m, last, key);
      var q := Step(env, cfg, m, last);
      AddedConcat(p.server, m.server, q.server);
      CausesGrow(env, cfg, p.heap, init, last, key, p.server, m.server, q.server);
    }
  }

  /** One turn of the apply loop: the object stays unmanaged or is deleted, and a deletion has a cause. */
  lemma StepNoAdoption(env: Env, cfg: Config, m: Progress, b: Builder, key: Key)
    requires b.Builds? ==> b.target in m.heap
    ensures var q := Step(env, cfg, m, b);
      && Follows(m.server, q.server)
      && (PlainIfTaken(b) && Unmanaged(m.server, key) ==>
            Unmanaged(q.server, key) || Deleted(key) in Added(m.server, q.server))
      && (Deleted(key) in Added(m.server, q.server) ==>
            && Takes(b) && m.heap[b.target].Id() == key
            && DeletesFor(env, cfg, m.heap[b.target].gvk, b.state, key, m.server, q.server))
  {
    if Takes(b) {
      VisitNoAdoption(env, cfg, m, b.target, b.state, key);
    }
  }

  ghost predicate PlainIfTaken(b: Builder) {
    Takes(b) ==> Plain(b.state)
  }

  /** Why a builder's visit may have had its object deleted. */
  ghost predicate DeletesFor(env: Env, cfg: Config, gvk: GVK, ds: DesiredState, key: Key, from: Server, to: Server) {
    Resolve(ds) == Remove || RecreateWasDue(env, cfg.opts, gvk, key, from, to)
  }

  lemma CausesGrow(env: Env, cfg: Config, heap: Heap, init: seq<Builder>, last: Builder, key: Key,
                   from: Server, mid: Server, to: Server)
    requires InHeap(init + [last], heap) && InHeap(init, heap) && Follows(from, mid) && Follows(mid, to)
    requires Deleted(key) in Added(from, mid) ==> DeletionCause(env, cfg, heap, init, key, from, mid)
    requires Deleted(key) in Added(mid, to) ==>
      Takes(last) && last.target in heap && heap[last.target].Id() == key
          && DeletesFor(env, cfg, heap[last.target].gvk, last.state, key, mid, to)
    ensures Follows(from, to)
    ensures Deleted(key) in Added(from, to) ==> DeletionCause(env, cfg, heap, init + [last], key, from, to)
  {
    AddedConcat(from, mid, to);
    if Deleted(key) in Added(from, mid) {
      CauseExtends(env, cfg, heap, init, last, key, from, mid, to);
    } else if Deleted(key) in Added(mid, to) {
      LastCauses(env, cfg, heap, init, last, key, from, mid, to);
    }
  }

  lemma LastCauses(env: Env, cfg: Config, heap: Heap, init: seq<Builder>, last: Builder, key: Key,
      from: Server, mid: Server, to: Server)
    requires InHeap(init + [last], heap) && Takes(last) && last.target in heap && heap[last.target].Id() == key
    requires Follows(from, mid)
    requires Resolve(last.state) == Remove || RecreateWasDue(env, cfg.opts, heap[last.target].gvk, key, mid, to)
    ensures DeletionCause(env, cfg, heap, init + [last], key, from, to)
  {
    if Resolve(last.state) != Remove {
      RecreateWindow(env, cfg.opts, heap[last.target].gvk, key, from, mid, to, to);
    }
    assert (init + [last])[|init|] == last;
  }

  lemma CauseExtends(env: Env, cfg: Config, heap: Heap, init: seq<Builder>, last: Builder, key: Key,
      from: Server, mid: Server, to: Server)
    requires InHeap(init, heap) && InHeap(init + [last], heap) && Follows(mid, to)
    requires DeletionCause(env, cfg, heap, init, key, from, mid)
    ensures DeletionCause(env, cfg, heap, init + [last], key, from, to)
  {
    var i :| 0 <= i < |init| && Takes(init[i]) && heap[init[i].target].Id() == key &&
      (Resolve(init[i].state) == Remove || RecreateWasDue(env, cfg.opts, heap[init[i].target].gvk, key, from, mid));
    assert (init + [last])[i] == init[i];
    if Resolve(init[i].state) != Remove {
      RecreateWindow(env, cfg.opts, heap[init[i].target].gvk, key, from, from, mid, to);
    }
  }

  /** One run never adopts, and its purge never touches, an object without the component annotation. */
  lemma RunNoAdoption(r: Run, key: Key)
    requires Happened(r) && PlainBuilders(r.builders) && Unmanaged(r.start.server, key)
    ensures DeletedByApply(r, key) || (Unmanaged(r.end.server, key) && !Planned(r.plan, key))
  {
    ApplyNoAdoption(r.env, r.cfg, r.start, r.builders, key);
    var m := ApplyAll(r.env, r.cfg, r.start, r.builders);
    PurgeIsPlanned(r.env, r.cfg, r.start, r.builders, r.types, r.plan, r.end);
    if m.combined.errors == [] {
      DeleteAllEffect(r.env, m.(server := m.server.(calls := Listing(r.env, r.cfg.mapper, m.server.calls, r.types).0)),
                      r.plan);
    }
  }

  /** No adoption over whole histories: through any sequence of runs, of any components, an object that starts
      without the component annotation stays without it, and out of every purge, up to the first run whose apply
      loop deletes it. That takes a builder that wants it absent or an immutable field that had to change. */
  lemma {:induction false} NeverAdopted(runs: seq<Run>, key: Key, n: nat)
    requires History(runs) && n <= |runs| && |runs| > 0
    requires forall i :: 0 <= i < |runs| ==> PlainBuilders(runs[i].builders)
    requires Unmanaged(runs[0].start.server, key)
    requires forall i :: 0 <= i < n ==> !DeletedByApply(runs[i], key)
    ensures n > 0 ==> Unmanaged(runs[n - 1].end.server, key) && !Planned(runs[n - 1].plan, key)
    ensures n < |runs| ==> Unmanaged(runs[n].start.server, key)
    ensures n < |runs| && DeletedByApply(runs[n], key) ==>
      DeletionCause(runs[n].env, runs[n].cfg, runs[n].start.heap, runs[n].builders, key, runs[n].start.server,
                    Middle(runs[n]))
  {
    if n > 0 {
      NeverAdopted(runs, key, n - 1);
      RunNoAdoption(runs[n - 1], key);
    }
    if n < |runs| {
      ApplyNoAdoption(runs[n].env, runs[n].cfg, runs[n].start, runs[n].builders, key);
    }
  }

  /** Every builder of an object marks it create-only and wants it present. */
  ghost predicate CreateOnlyFor(builders: seq<Builder>, heap: Heap, key: Key)
    requires InHeap(builders, heap)
  {
    forall i :: 0 <= i < |builders| && Takes(builders[i]) && heap[builders[i].target].Id() == key ==>
      IsPresent(builders[i].state) && DESIRED_STATE_CREATED in heap[builders[i].target].content.annotations
  }

  lemma CreatedKeepsAnnotations(env: Env, opts: Options, s: Server, d: Obj)
    ensures var out := ReconcileResource(env, opts, s, d, Static(StateCreated));
      out.desired.content.annotations == d.content.annotations
  {
  }

  /** Preparing an object leaves its create-only mark on it, however far it gets. */
  ghost predicate KeepsMark(cfg: Config, key: Key) {
    forall d: Obj :: d.Id() == key && DESIRED_STATE_CREATED in d.content.annotations ==>
      DESIRED_STATE_CREATED in Prepare(cfg, d).desired.content.annotations
  }

  /** It does unless a modifier touches that annotation. */
  lemma ModifiersKeepMark(cfg: Config, key: Key)
    requires Spares(cfg.modifiers, DESIRED_STATE_CREATED)
    ensures KeepsMark(cfg, key)
  {
    forall d: Obj | d.Id() == key && DESIRED_STATE_CREATED in d.content.annotations
      ensures DESIRED_STATE_CREATED in Prepare(cfg, d).desired.content.annotations
    {
      PrepareKeepsAnnotation(cfg, d, DESIRED_STATE_CREATED);
    }
  }

  lemma CreateOnlyVisit(env: Env, cfg: Config, p: Progress, o: RuntimeObject, ds: DesiredState)
    requires o in p.heap && IsPresent(ds) && DESIRED_STATE_CREATED in p.heap[o].content.annotations
    requires KeepsMark(cfg, p.heap[o].Id())
    ensures var q := Visit(env, cfg, p, o, ds); var key := p.heap[o].Id();
      && DESIRED_STATE_CREATED in q.heap[o].content.annotations
      && Follows(p.server, q.server)
      && (forall w :: w in Added(p.server, q.server) ==> w == Created(key))
      && (key in p.server.live ==> q.server.live == p.server.live)
  {
    PrepareKeepsIdentity(cfg, p.heap[o]);
    var d := Desired(cfg, p.heap[o]);
    assert DESIRED_STATE_CREATED in d.content.annotations;
    CreatedKeepsAnnotations(env, cfg.opts, p.server, d);
    CreateOnlyLeavesExisting(env, cfg.opts, p.server, d, Static(StateCreated));
  }

  lemma {:induction false} ApplyNeverUpdates(env: Env, cfg: Config, p: Progress, builders: seq<Builder>, key: Key)
    requires InHeap(builders, p.heap) && KeepsMark(cfg, key) && CreateOnlyFor(builders, p.heap, key)
    ensures var q := ApplyAll(env, cfg, p, builders);
      && Follows(p.server, q.server)
      && (forall w :: w in Added(p.server, q.server) && w.key == key ==> w == Created(key))
      && (key in p.server.live ==> key in q.server.live && q.server.live[key] == p.server.live[key])
      && SameIdentities(p.heap, q.heap)
      && (forall o :: o in p.heap && p.heap[o].Id() == key && DESIRED_STATE_CREATED in p.heap[o].content.annotations ==>
            DESIRED_STATE_CREATED in q.heap[o].content.annotations)
  {
    if builders != [] {
      var init, last := builders[..|builders| - 1], builders[|builders| - 1];
      assert builders == init + [last];
      CreateOnlyParts(init, last, p.heap, key);
      ApplyNeverUpdates(env, cfg, p, init, key);
      var m := ApplyAll(env, cfg, p, init);
      StepNeverUpdates(env, cfg, m, last, key);
      AddedConcat(p.server, m.server, Step(env, cfg, m, last).server);
    }
  }

  lemma CreateOnlyParts(init: seq<Builder>, last: Builder, heap: Heap, key: Key)
    requires InHeap(init + [last], heap) && CreateOnlyFor(init + [last], heap, key)
    ensures InHeap(init, heap) && CreateOnlyFor(init, heap, key) && (last.Builds? ==> last.target in heap)
    ensures Takes(last) && heap[last.target].Id() == key ==>
      IsPresent(last.state) && DESIRED_STATE_CREATED in heap[last.target].content.annotations
  {
    var all := init + [last];
    assert all[|init|] == last && forall i :: 0 <= i < |init| ==> all[i] == init[i];
  }

  /** One turn of the apply loop over an object that its builders mark create-only and want present. */
  lemma StepNeverUpdates(env: Env, cfg: Config, m: Progress, b: Builder, key: Key)
    requires (b.Builds? ==> b.target in m.heap) && KeepsMark(cfg, key)
    requires Takes(b) && m.heap[b.target].Id() == key ==>
      IsPresent(b.state) && DESIRED_STATE_CREATED in m.heap[b.target].content.annotations
    ensures var q := Step(env, cfg, m, b);
      && Follows(m.server, q.server)
      && (forall w :: w in Added(m.server, q.server) && w.key == key ==> w == Created(key))
      && (key in m.server.live ==> key in q.server.live && q.server.live[key] == m.server.live[key])
      && SameIdentities(m.heap, q.heap)
      && (forall o :: o in m.heap && m.heap[o].Id() == key && DESIRED_STATE_CREATED in m.heap[o].content.annotations ==>
            DESIRED_STATE_CREATED in q.heap[o].content.annotations)
  {
    if Takes(b) {
      VisitTouches(env, cfg, m, b.target, b.state);
      if m.heap[b.target].Id() == key {
        CreateOnlyVisit(env, cfg, m, b.target, b.state);
      } else {
        TouchesOther(m.server, Step(env, cfg, m, b).server, m.heap[b.target].Id(), key);
      }
    }
  }

  /** An object marked create-only and wanted present is left alone by every later run: it is never updated, and
      never deleted except by a purge that no builder prevented by naming it. */
  lemma CreateOnlyIsNeverUpdated(r: Run, key: Key)
    requires Happened(r) && KeepsMark(r.cfg, key) && CreateOnlyFor(r.builders, r.start.heap, key)
    ensures Follows(r.start.server, r.end.server) && Updated(key) !in Added(r.start.server, r.end.server)
    ensures key in r.start.server.live && !Planned(r.plan, key) ==>
      key in r.end.server.live && r.end.server.live[key] == r.start.server.live[key]
  {
    var m := ApplyAll(r.env, r.cfg, r.start, r.builders);
    ApplyNeverUpdates(r.env, r.cfg, r.start, r.builders, key);
    PurgeIsPlanned(r.env, r.cfg, r.start, r.builders, r.types, r.plan, r.end);
    AddedConcat(r.start.server, m.server, r.end.server);
    if m.combined.errors == [] {
      DeleteAllEffect(r.env, m.(server := m.server.(calls := Listing(r.env, r.cfg.mapper, m.server.calls, r.types).0)),
                      r.plan);
    }
  }

  /** Exactly when an object marked create-only converges all the same: its state asks for that, and is neither
      Present itself nor a dynamic state directly around Present. */
  lemma MarkIsIgnored(d: Obj, ds: DesiredState)
    requires DESIRED_STATE_CREATED in d.content.annotations
    ensures Resolve(Effective(d, ds)) == Converge <==>
      Resolve(ds) == Converge && ds != Static(StatePresent) && !(ds.Dynamic? && ds.inner == Static(StatePresent))
    ensures IsPresent(ds) <==> ds == Static(StatePresent) || (ds.Dynamic? && ds.inner == Static(StatePresent))
  {
  }

  /** Such states: a Present under an override or in a second dynamic state, and a lone callback. */
  lemma StatesThatIgnoreTheMark(ds: DesiredState, hook: Obj -> Option<Content>)
    requires ds == Stacked(Static(StatePresent), Static(StatePresent))
      || ds == Dynamic(Dynamic(Static(StatePresent), STANDARD_HOOKS), NO_HOOKS) || ds == Callback(hook)
    ensures Resolve(ds) == Converge && !IsPresent(ds)
  {
  }

  /** A live object whose read is answered is updated iff the update would change it. */
  lemma UpdatedUnlessInSync(env: Env, opts: Options, s: Server, d: Obj, ds: DesiredState)
    requires Plain(ds) && Resolve(ds) == Converge && d.Id() in s.live && !s.live[d.Id()].deleting
    requires env.answers(s.calls).refusal.None? && d.gvk in env.served
    ensures var s' := ReconcileResource(env, opts, s, d, ds).server;
      var goal := Goal(ds, s.live[d.Id()].content, d.content);
      Follows(s, s') && (Updated(d.Id()) in Added(s, s') <==> goal.Some? && goal.value != s.live[d.Id()].content)
  {
    var c := CreateIfNotExist(env, s, d, ds);
    var s' := ReconcileResource(env, opts, s, d, ds).server;
    OneObjectContract(env, opts, s, d, ds);
    CreateIfNotExistTouches(env, s, d, ds);
    PlainUpdate(env, opts, c.server, c.current, d, ds);
    var goal := Goal(ds, s.live[d.Id()].content, d.content);
    if goal.Some? && goal.value != s.live[d.Id()].content {
      var d2 := d.(content := goal.value, rv := c.current.obj.rv);
      SendUpdateFollows(env, opts, c.server, d2, ds);
      UpdateIsLogged(s.log, c.server.log, s'.log, d.Id());
    } else {
      assert s' == c.server;
    }
  }

  lemma UpdateIsLogged(before: seq<WriteCall>, read: seq<WriteCall>, after: seq<WriteCall>, key: Key)
    requires read == before && read + [Updated(key)] <= after
    ensures Updated(key) in after[|before|..]
  {
    assert after[|before|] == Updated(key);
  }

  lemma SendUpdateFollows(env: Env, opts: Options, s: Server, d: Obj, ds: DesiredState)
    ensures s.log + [Updated(d.Id())] <= SendUpdate(env, opts, s, d, ds).server.log
  {
    UpdateTouches(env, s, d);
    var s1 := UpdateCall(env, s, d).0;
    RecreateTouches(env, opts, s1, d, ds);
    SendUpdateEnds(env, opts, s, d, ds);
  }

  /** Exactly when a visit updates a live object that is marked create-only. */
  lemma MarkedIsUpdatedIff(env: Env, cfg: Config, p: Progress, o: RuntimeObject, ds: DesiredState)
    requires o in p.heap && Plain(ds) && Prepare(cfg, p.heap[o]).error.None?
    requires DESIRED_STATE_CREATED in Desired(cfg, p.heap[o]).content.annotations
    requires Alive(p.server, p.heap[o].Id()) && env.answers(p.server.calls).refusal.None? && p.heap[o].gvk in env.served
    ensures var q, key := Visit(env, cfg, p, o, ds), p.heap[o].Id();
      var goal := Goal(ds, p.server.live[key].content, Desired(cfg, p.heap[o]).content);
      Follows(p.server, q.server) && (Updated(key) in Added(p.server, q.server) <==>
        Resolve(ds) == Converge && !IsPresent(ds) && goal.Some? && goal.value != p.server.live[key].content)
  {
    var d, state := Desired(cfg, p.heap[o]), StateFor(cfg, p.heap[o], ds);
    PrepareKeepsIdentity(cfg, p.heap[o]);
    VisitReconciles(env, cfg, p, o, ds);
    MarkIsIgnored(d, ds);
    match Resolve(state)
    case Converge => UpdatedUnlessInSync(env, cfg.opts, p.server, d, ds);
    case CreateOnly => CreateOnlyLeavesExisting(env, cfg.opts, p.server, d, state);
    case Remove => DeleteResourceTouches(env, p.server, d, state);
  }
}
