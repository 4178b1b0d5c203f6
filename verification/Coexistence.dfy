/** Several components on one cluster: their inventories are told apart, and the rounds of one disturb neither the
    objects nor the records of another. */
module Coexistence {
  import opened Strings
  import opened Objects
  import opened Cluster
  import opened DesiredStates
  import opened ResourceMachine
  import opened Scope
  import opened InventoryText
  import opened Convergence
  import opened NativeMachine
  import opened RunFrames
  import opened PurgeProperties
  import opened RunConvergence
  import opened InventoryMachine
  import opened RoundFacts
  import opened NoLeak
  import opened Ownership

  // ----- the names of inventories -----

  /** One owner's releases never share an inventory, and neither do owners of different names under one release. */
  lemma InventoriesSeparate(p: Owner, q: Owner, ns: string, a: string, b: string)
    requires InventoryKey(p, ns, a) == InventoryKey(q, ns, b)
    ensures p.name == q.name <==> a == b
  {
    var tail := "-object-inventory";
    NameIsFramed(p, ns, a, tail);
    NameIsFramed(q, ns, b, tail);
    FramedText(p.name, a, q.name, b, "-" + ns + "-", tail);
  }

  lemma NameIsFramed(p: Owner, ns: string, a: string, tail: string)
    requires tail == "-object-inventory"
    ensures InventoryName(p, ns, a) == p.name + ("-" + ns + "-") + a + tail
  {
    assert p.name + "-" + ns + "-" == p.name + ("-" + ns + "-");
  }

  /** Two texts with the same middle and the same end agree in the rest both or not at all. */
  lemma FramedText(x: string, a: string, y: string, b: string, middle: string, end: string)
    requires x + middle + a + end == y + middle + b + end
    ensures x == y <==> a == b
  {
    var s := x + middle + a + end;
    assert s[..|x|] == x && s[..|y|] == y;
    assert s[|x + middle|..|x + middle + a|] == a && s[|y + middle|..|y + middle + b|] == b;
    if a == b {
      assert |x| == |y|;
    }
  }

  /** For releases without a dash the key tells owner name, namespace and release; the owner's own namespace, kind and
      UID play no part in it. */
  lemma InventoryKeysAgreeIff(p: Owner, q: Owner, ns: string, ns': string, a: string, b: string)
    requires '-' !in a && '-' !in b
    ensures InventoryKey(p, ns, a) == InventoryKey(q, ns', b) <==> p.name == q.name && ns == ns' && a == b
  {
    if InventoryKey(p, ns, a) == InventoryKey(q, ns', b) {
      var tail := "-object-inventory";
      var x, y := p.name + "-" + ns, q.name + "-" + ns;
      var s := InventoryName(p, ns, a);
      assert s == (x + (['-'] + a)) + tail && s == (y + (['-'] + b)) + tail;
      assert s[..|s| - |tail|] == x + (['-'] + a) && s[..|s| - |tail|] == y + (['-'] + b);
      LastPiece(x, a, y, b, '-');
      assert x[..|x| - |ns| - 1] == p.name && y[..|y| - |ns| - 1] == q.name;
    }
  }

  /** With a dash two owners can share an inventory in one namespace. */
  lemma InventoryKeysCollide()
    ensures var gvk := GVK("", "v1", "ConfigMap");
      var p, q := Owner(gvk, "", "p", "u1", false), Owner(gvk, "", "p-n", "u2", false);
      InventoryKey(p, "n", "n-c") == InventoryKey(q, "n", "c")
  {
  }

  // ----- taking stock -----

  lemma {:induction false} DeletableOnlyReads(env: Env, sc: Scoping, s: Server, scopes: Scopes, desired: seq<Ref>,
                                              current: seq<Ref>)
    ensures var s' := Deletable(env, sc, s, scopes, desired, current).0;
      s'.live == s.live && s'.log == s.log && s.calls <= s'.calls
  {
    if current != [] {
      DeletableOnlyReads(env, sc, s, scopes, desired, current[..|current| - 1]);
    }
  }

  /** A later world with the same cluster. */
  predicate SameCluster(w: World, w': World) {
    w'.server.live == w.server.live && w'.server.log == w.server.log && w.server.calls <= w'.server.calls
  }

  predicate IsConfigMap(o: Obj, ns: string) {
    o.gvk == GVK("", "v1", "ConfigMap") && o.ns == ns && o.content.body.ConfigMapBody? && o.rv == 0
  }

  lemma PreparingOnlyReads(r: Round, w: World)
    requires InHeap(r.builders, w.heap)
    ensures var (w2, draft) := InventoryPrepared(r, w);
      SameCluster(w, w2) && (draft.Draft? ==> draft.value.Id() == InvKey(r) && IsConfigMap(draft.value, r.ns))
  {
  }

  lemma MarkingOnlyReads(env: Env, sc: Scoping, w: World, leaving: bool, cm: Obj, builders: seq<Builder>,
                         box: RuntimeObject)
    requires InHeap(builders, w.heap) && Held(w.book.desired, w.heap)
    ensures var (w', all, _) := MarkAndAppend(env, sc, w, leaving, cm, builders, box);
      && SameCluster(w, w')
      && (all == builders || (!leaving && all == builders + [Builds(box, Static(StatePresent))] && w'.heap[box] == cm))
  {
    DeletableOnlyReads(env, sc, w.server, w.scopes, RefsOf(w.book.desired, w.heap), w.book.current);
  }

  /** However taking stock ends, it writes nothing to the cluster, and adds at most the round's own inventory, a
      ConfigMap in the target namespace, and that only if neither the namespace nor the owner is being deleted. */
  lemma AppendOnlyReads(r: Round, w: World)
    requires InHeap(r.builders, w.heap)
    ensures var (w', all, _) := RoundAppend(r, w);
      && SameCluster(w, w')
      && (all == r.builders
          || (NothingLeaves(r, w) && all == r.builders + [Builds(r.box, Static(StatePresent))]
              && w'.heap[r.box].Id() == InvKey(r) && IsConfigMap(w'.heap[r.box], r.ns)))
  {
    PreparingOnlyReads(r, w);
    var (w2, draft) := InventoryPrepared(r, w);
    if draft.Draft? {
      MarkingOnlyReads(r.env, r.sc, w2, !NothingLeaves(r, w), draft.value, r.builders, r.box);
    }
  }

  /** While the target namespace or the owner is being deleted no inventory is added. */
  lemma LeavingAddsNothing(r: Round, w: World)
    requires InHeap(r.builders, w.heap)
    requires
      var gvk, key := GVK("", "v1", "Namespace"), Key(GroupKind("", "Namespace"), "", r.ns);
      r.cfg.owner.deleting
          || (r.env.answers(w.server.calls).refusal.None? && gvk in r.env.served && key in w.server.live
                && w.server.live[key].deleting)
    ensures RoundAppend(r, w).1 == r.builders
  {
    assert !NothingLeaves(r, w);
    AppendOnlyReads(r, w);
    assert |r.builders + [Builds(r.box, Static(StatePresent))]| == |r.builders| + 1;
  }

  // ----- another release's inventory -----

  /** The object is not marked as the component's. */
  predicate NotOf(s: Server, key: Key, id: string) {
    key in s.live && MANAGED_COMPONENT in s.live[key].content.annotations ==>
      s.live[key].content.annotations[MANAGED_COMPONENT] != id
  }

  /** A run leaves alone what no builder names and does not carry its component ID. */
  lemma RunLeavesOthers(env: Env, cfg: Config, p: Progress, builders: seq<Builder>, types: seq<GVK>, plan: seq<Obj>,
                        q: Progress, key: Key)
    requires IsRun(env, cfg, p, builders, types, plan, q)
    requires !Named(builders, p.heap, key) && NotOf(p.server, key, cfg.id)
    ensures Live(q.server, key) == Live(p.server, key)
    ensures Follows(p.server, q.server) && forall c :: c in Added(p.server, q.server) ==> c.key != key
  {
    var m := ApplyAll(env, cfg, p, builders);
    ApplyTouches(env, cfg, p, builders);
    PurgeIsPlanned(env, cfg, p, builders, types, plan, q);
    AddedConcat(p.server, m.server, q.server);
    if m.combined.errors == [] {
      DeleteAllEffect(env, m.(server := m.server.(calls := Listing(env, cfg.mapper, m.server.calls, types).0)), plan);
    }
    assert Live(m.server, key) == Live(p.server, key);
    assert !Planned(plan, key);
  }

  /** One release's round does not touch another's inventory: the stored object, which carries another component's ID
      or none, and which no builder of the round names, stays exactly as it is, and so does what it records. This
      holds for every round, however it ends. */
  lemma OtherInventoryStays(r: Round, w: World, end: Progress, other: Key)
    requires IsRound(r, w, end) && other != InvKey(r) && NotOf(w.server, other, r.cfg.id)
    requires forall i :: 0 <= i < |r.builders| && r.builders[i].Builds? ==>
      StartWorld(r, w).heap[r.builders[i].target].Id() != other
    ensures Live(end.server, other) == Live(w.server, other)
    ensures Recorded(end.server, other) == Recorded(w.server, other)
    ensures Follows(w.server, end.server) && forall c :: c in Added(w.server, end.server) ==> c.key != other
  {
    AppendOnlyReads(r, w);
    var p, final := RoundStart(StartWorld(r, w)), FinalBuilders(r, w);
    OtherIsUnnamed(r, w, other);
    RunLeavesOthers(r.env, r.cfg, p, final, r.types, r.plan, end, other);
    assert Added(w.server, end.server) == Added(p.server, end.server);
  }

  lemma OtherIsUnnamed(r: Round, w: World, other: Key)
    requires InHeap(r.builders, w.heap) && other != InvKey(r)
    requires forall i :: 0 <= i < |r.builders| && r.builders[i].Builds? ==>
      StartWorld(r, w).heap[r.builders[i].target].Id() != other
    ensures !Named(FinalBuilders(r, w), StartWorld(r, w).heap, other)
  {
    AppendOnlyReads(r, w);
    var all, final, heap := RoundAppend(r, w).1, FinalBuilders(r, w), StartWorld(r, w).heap;
    forall i | 0 <= i < |all| && all[i].Builds? ensures heap[all[i].target].Id() != other {
      assert i < |r.builders| ==> all[i] == r.builders[i];
    }
  }

  /** In particular that of another release of the same owner in the same namespace. */
  lemma OtherReleaseStays(r: Round, w: World, end: Progress, release: string)
    requires IsRound(r, w, end) && release != r.release
    requires NotOf(w.server, InventoryKey(r.cfg.owner, r.ns, release), r.cfg.id)
    requires forall i :: 0 <= i < |r.builders| && r.builders[i].Builds? ==>
      StartWorld(r, w).heap[r.builders[i].target].Id() != InventoryKey(r.cfg.owner, r.ns, release)
    ensures var other := InventoryKey(r.cfg.owner, r.ns, release);
      Live(end.server, other) == Live(w.server, other) && Recorded(end.server, other) == Recorded(w.server, other)
  {
    if InventoryKey(r.cfg.owner, r.ns, release) == InvKey(r) {
      InventoriesSeparate(r.cfg.owner, r.cfg.owner, r.ns, release, r.release);
    }
    OtherInventoryStays(r, w, end, InventoryKey(r.cfg.owner, r.ns, release));
  }

  // ----- another component's objects -----

  /** The object carries the component's ID. */
  predicate Bears(s: Server, key: Key, id: string) {
    && key in s.live && MANAGED_COMPONENT in s.live[key].content.annotations
    && s.live[key].content.annotations[MANAGED_COMPONENT] == id
  }

  /** From `s` to `s'` the component gains nothing at this key: what carries its ID then did so before, and nothing
      that was terminating is alive again. */
  predicate GainsNothing(s: Server, s': Server, key: Key, id: string) {
    Bears(s', key, id) ==> Bears(s, key, id) && (s.live[key].deleting ==> s'.live[key].deleting)
  }

  /** A content that is not the component's. */
  predicate Foreign(c: Content, id: string) {
    MANAGED_COMPONENT in c.annotations ==> c.annotations[MANAGED_COMPONENT] != id
  }

  lemma CreateGains(env: Env, s: Server, d: Obj, id: string)
    requires Foreign(d.content, id)
    ensures GainsNothing(s, CreateCall(env, s, d).0, d.Id(), id)
  {
  }

  lemma CreateMissingGains(env: Env, s: Server, d: Obj, ds: DesiredState, id: string)
    requires Plain(ds) && Foreign(d.content, id)
    ensures GainsNothing(s, CreateMissing(env, s, d, ds).server, d.Id(), id)
  {
    PlainHooks(ds, d, d);
    var s', s1 := CreateMissing(env, s, d, ds).server, CreateCall(env, s, d).0;
    CreateGains(env, s, d, id);
    assert s'.live == s1.live;
  }

  lemma CreateIfNotExistGains(env: Env, s: Server, d: Obj, ds: DesiredState, id: string)
    requires Plain(ds) && Foreign(d.content, id)
    ensures GainsNothing(s, CreateIfNotExist(env, s, d, ds).server, d.Id(), id)
  {
    CreateMissingGains(env, GetCall(env, s, d.gvk, d.Id()).0, d, ds, id);
  }

  lemma UpdateGains(env: Env, s: Server, d: Obj, id: string)
    requires Foreign(d.content, id)
    ensures GainsNothing(s, UpdateCall(env, s, d).0, d.Id(), id)
  {
  }

  lemma DeleteGains(env: Env, s: Server, gvk: GVK, key: Key, foreground: bool, id: string)
    ensures GainsNothing(s, DeleteCall(env, s, gvk, key, foreground).0, key, id)
  {
  }

  lemma SendUpdateGains(env: Env, opts: Options, s: Server, d: Obj, ds: DesiredState, id: string)
    requires Plain(ds) && Foreign(d.content, id)
    ensures GainsNothing(s, SendUpdate(env, opts, s, d, ds).server, d.Id(), id)
  {
    UpdateGains(env, s, d, id);
    SendUpdateEnds(env, opts, s, d, ds);
    var s1 := UpdateCall(env, s, d).0;
    RecreateGains(env, opts, s1, d, ds, id);
  }

  lemma RecreateGains(env: Env, opts: Options, s: Server, d: Obj, ds: DesiredState, id: string)
    requires Plain(ds) && Foreign(d.content, id)
    ensures GainsNothing(s, Recreate(env, opts, s, d, ds).server, d.Id(), id)
  {
    DeleteGains(env, s, d.gvk, d.Id(), !opts.immediately || opts.foreground, id);
    var s1 := DeleteCall(env, s, d.gvk, d.Id(), !opts.immediately || opts.foreground).0;
    CreateIfNotExistGains(env, s1, d.(rv := 0), ds, id);
  }

  /** Reconciling an object of another component gains the component nothing, whatever is live under its key. */
  lemma ReconcileGains(env: Env, opts: Options, s: Server, d: Obj, ds: DesiredState, id: string)
    requires Plain(ds) && MANAGED_COMPONENT in d.content.annotations
    requires d.content.annotations[MANAGED_COMPONENT] != id
    ensures GainsNothing(s, ReconcileResource(env, opts, s, d, ds).server, d.Id(), id)
  {
    CreateIfNotExistGains(env, s, d, ds, id);
    match Resolve(ds)
    case CreateOnly =>
    case Remove =>
      var s1 := GetCall(env, s, d.gvk, d.Id()).0;
      DeleteGains(env, s1, d.gvk, d.Id(), false, id);
      RemoveEnds(env, s, d, ds);
    case Converge =>
      var c := CreateIfNotExist(env, s, d, ds);
      CreateSettles(env, s, d, ds);
      if c.error.None? && !c.created && !c.current.deleting {
        PlainUpdate(env, opts, c.server, c.current, d, ds);
        var goal := Goal(ds, s.live[d.Id()].content, d.content);
        if goal.Some? && goal.value != s.live[d.Id()].content {
          GoalMeta(ds, s.live[d.Id()].content, d.content);
          SendUpdateGains(env, opts, c.server, d.(content := goal.value, rv := c.current.obj.rv), ds, id);
        }
      }
  }

  lemma VisitGains(env: Env, cfg: Config, p: Progress, o: RuntimeObject, ds: DesiredState, key: Key, id: string)
    requires o in p.heap && Plain(ds) && Spares(cfg.modifiers, MANAGED_COMPONENT) && id != cfg.id
    ensures GainsNothing(p.server, Visit(env, cfg, p, o, ds).server, key, id)
  {
    PrepareKeepsIdentity(cfg, p.heap[o]);
    VisitTouches(env, cfg, p, o, ds);
    VisitReconciles(env, cfg, p, o, ds);
    if key != p.heap[o].Id() {
      TouchesOther(p.server, Visit(env, cfg, p, o, ds).server, p.heap[o].Id(), key);
    } else if Prepare(cfg, p.heap[o]).error.None? {
      PreparedIsMarked(cfg, p.heap[o]);
      ReconcileGains(env, cfg.opts, p.server, Desired(cfg, p.heap[o]), StateFor(cfg, p.heap[o], ds), id);
    }
  }

  /** A prepared object carries the component ID unless a modifier touches it. */
  lemma PreparedIsMarked(cfg: Config, d: Obj)
    requires Spares(cfg.modifiers, MANAGED_COMPONENT) && Prepare(cfg, d).error.None?
    ensures var a := Prepare(cfg, d).desired.content.annotations;
      MANAGED_COMPONENT in a && a[MANAGED_COMPONENT] == cfg.id
  {
    PrepareMeans(cfg, d);
    var a := d.content.annotations[MANAGED_COMPONENT := cfg.id][RELATED_TO := cfg.owner.ns + "/" + cfg.owner.name];
    var controlled := cfg.controllerRef && Reaches(cfg.owner, d.gvk, d.ns);
    var start := d.(content := d.content.(
      annotations := a, controller := if controlled then cfg.owner.uid else d.content.controller));
    assert Prepare(cfg, d) == Modify(cfg.modifiers, cfg.owner, start);
    ModifyKeepsAnnotation(cfg.modifiers, cfg.owner, start, MANAGED_COMPONENT);
  }

  lemma {:induction false} ApplyGains(env: Env, cfg: Config, p: Progress, builders: seq<Builder>, key: Key, id: string)
    requires InHeap(builders, p.heap) && PlainBuilders(builders)
    requires Spares(cfg.modifiers, MANAGED_COMPONENT) && id != cfg.id
    ensures GainsNothing(p.server, ApplyAll(env, cfg, p, builders).server, key, id)
  {
    if builders != [] {
      var init, last := builders[..|builders| - 1], builders[|builders| - 1];
      assert forall i :: 0 <= i < |init| ==> init[i] == builders[i];
      ApplyGains(env, cfg, p, init, key, id);
      if Takes(last) {
        VisitGains(env, cfg, ApplyAll(env, cfg, p, init), last.target, last.state, key, id);
      }
    }
  }

  /** No run makes, marks or revives an object of another component. */
  lemma RunGains(env: Env, cfg: Config, p: Progress, builders: seq<Builder>, types: seq<GVK>, plan: seq<Obj>,
                 q: Progress, key: Key, id: string)
    requires IsRun(env, cfg, p, builders, types, plan, q) && PlainBuilders(builders)
    requires Spares(cfg.modifiers, MANAGED_COMPONENT) && id != cfg.id
    ensures GainsNothing(p.server, q.server, key, id)
  {
    var m := ApplyAll(env, cfg, p, builders);
    ApplyGains(env, cfg, p, builders, key, id);
    if m.combined.errors == [] {
      DeleteAllKeepsContent(env, m.(server := m.server.(calls := Listing(env, cfg.mapper, m.server.calls, types).0)),
                            plan, key);
    }
  }

  // ----- rounds of several components in turn -----

  /** A round of another component, whose builders keep clear of the inventory. */
  ghost predicate IsOtherRound(r: Round, w: World, end: Progress, id: string, inventory: Key) {
    && IsRound(r, w, end) && r.cfg.id != id && Spares(r.cfg.modifiers, MANAGED_COMPONENT)
    && PlainBuilders(FinalBuilders(r, w))
    && inventory != InvKey(r) && NotOf(w.server, inventory, r.cfg.id)
    && forall i :: 0 <= i < |r.builders| && r.builders[i].Builds? ==>
         StartWorld(r, w).heap[r.builders[i].target].Id() != inventory
  }

  /** Such a round, however it ends, is among what may happen between two rounds of the component. */
  lemma OtherRoundUndisturbs(r: Round, w: World, end: Progress, id: string, inventory: Key)
    requires IsOtherRound(r, w, end, id, inventory)
    ensures Undisturbed(w.server, end.server, id, inventory)
  {
    OtherInventoryStays(r, w, end, inventory);
    AppendOnlyReads(r, w);
    forall k | Owned(end.server, id, k) ensures Owned(w.server, id, k) {
      RunGains(r.env, r.cfg, RoundStart(StartWorld(r, w)), FinalBuilders(r, w), r.types, r.plan, end, k, id);
      assert Bears(end.server, k, id);
    }
  }

  /** A good round of the component, or a round of another. */
  ghost predicate Either(h: Finished, id: string, inventory: Key, scope: GVK -> bool) {
    if h.round.cfg.id == id then
      GoodRound(h.round, h.before, h.end, h.lists, scope) && InvKey(h.round) == inventory
    else IsOtherRound(h.round, h.before, h.end, id, inventory)
  }

  /** Rounds of the component, all good, and of others in any order, one after the other on the same cluster. */
  ghost predicate Interleaved(history: seq<Finished>, id: string, inventory: Key, scope: GVK -> bool) {
    && (forall i :: 0 <= i < |history| ==> Either(history[i], id, inventory, scope))
    && (forall i :: 0 < i < |history| ==> history[i].before.server == history[i - 1].end.server)
  }

  /** The books of the component are in order before and after each round, whosever it is. */
  lemma {:induction false} AccountedThroughout(history: seq<Finished>, id: string, inventory: Key, scope: GVK -> bool,
                                               n: nat)
    requires Interleaved(history, id, inventory, scope) && n < |history|
    requires Accounted(history[0].before.server, id, inventory, scope)
    ensures Accounted(history[n].before.server, id, inventory, scope)
    ensures Accounted(history[n].end.server, id, inventory, scope)
  {
    if n > 0 {
      AccountedThroughout(history, id, inventory, scope, n - 1);
    }
    var h := history[n];
    assert Accounted(h.before.server, id, inventory, scope);
    if h.round.cfg.id == id {
      RoundKeepsAccounts(h.round, h.before, h.end, h.lists, scope);
    } else {
      OtherRoundUndisturbs(h.round, h.before, h.end, id, inventory);
    }
  }

  /** No leak among several components. From the component's last round on, through any number of rounds of others,
      its live objects are the ones it wanted in that round and its inventory. */
  lemma {:induction false} NothingLeaksAmongOthers(history: seq<Finished>, id: string, inventory: Key,
                                                   scope: GVK -> bool, m: nat, n: nat)
    requires Interleaved(history, id, inventory, scope) && m <= n < |history|
    requires Accounted(history[0].before.server, id, inventory, scope)
    requires history[m].round.cfg.id == id && forall i :: m < i <= n ==> history[i].round.cfg.id != id
    ensures forall k :: Owned(history[n].end.server, id, k) ==>
      k == inventory || Listed(Wanted(history[m].round, history[m].before), k)
  {
    AccountedThroughout(history, id, inventory, scope, n);
    var h := history[n];
    if n == m {
      RoundLeavesNoLeak(h.round, h.before, h.end, h.lists, scope);
    } else {
      NothingLeaksAmongOthers(history, id, inventory, scope, m, n - 1);
      OtherRoundUndisturbs(h.round, h.before, h.end, id, inventory);
    }
  }
}
