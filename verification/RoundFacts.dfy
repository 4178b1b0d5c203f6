/** The pieces of a round that the no-leak theorem puts together: what Append computes, what absence and the
    stored inventory come to. */
module RoundFacts {
  import opened Objects
  import opened Cluster
  import opened DesiredStates
  import opened ResourceMachine
  import opened Scope
  import opened InventoryText
  import opened NativeMachine
  import opened InventoryMachine
  import opened Convergence
  import opened RunFrames
  import opened PurgeProperties
  import opened RunConvergence
  import opened Normalization

  /** What the stored inventory records; nothing if there is none. */
  function Recorded(s: Server, key: Key): Option<seq<Ref>> {
    Parse(if key in s.live then ReferenceText(s.live[key].content) else "")
  }

  ghost predicate Listed(refs: seq<Ref>, key: Key) {
    exists r :: r in refs && r.Id() == key
  }

  /** The scopes of all given types are known, and are those of `scope`. */
  ghost predicate ScopesAre(sc: Scoping, statics: map<string, bool>, lists: Lists, scope: GVK -> bool, gvks: set<GVK>) {
    forall g :: g in gvks ==> ScopeFor(sc, statics, lists, g) == Some(scope(g))
  }

  ghost function TypesOf(refs: seq<Ref>): set<GVK> {
    set i | 0 <= i < |refs| :: refs[i].gvk
  }

  /** Looking for deletable objects only reads, and leaves the scope cache usable. */
  lemma {:induction false} DeletableReads(env: Env, sc: Scoping, s: Server, scopes: Scopes, lists: Lists,
                                          desired: seq<Ref>, current: seq<Ref>)
    requires Ready(sc, scopes, lists)
    ensures var (s', scopes', _) := Deletable(env, sc, s, scopes, desired, current);
      && s'.live == s.live && s'.log == s.log && s.calls <= s'.calls
      && Ready(sc, scopes', lists) && scopes'.statics == scopes.statics
  {
    if current != [] {
      var init, r := current[..|current| - 1], current[|current| - 1];
      DeletableReads(env, sc, s, scopes, lists, desired, init);
      LookupAnswers(sc, Deletable(env, sc, s, scopes, desired, init).1, lists, r.gvk);
    }
  }

  ghost predicate Wants(b: Builder, o: RuntimeObject) {
    b.Builds? && b.target == o && b.state != Static(StateAbsent)
  }

  /** Wanted are the objects of all builders but those whose state is the static absence. */
  lemma {:induction false} CollectedIff(builders: seq<Builder>, o: RuntimeObject)
    requires CollectDesired(builders).Some?
    ensures o in CollectDesired(builders).value <==> exists i :: 0 <= i < |builders| && Wants(builders[i], o)
  {
    if builders != [] {
      var init, last := builders[..|builders| - 1], builders[|builders| - 1];
      CollectedIff(init, o);
      assert builders[|init|] == last;
      if i :| 0 <= i < |init| && Wants(init[i], o) {
        assert Wants(builders[i], o);
      }
    }
  }

  /** A recorded object that may be purged and is neither desired nor terminating. */
  predicate Stale(s: Server, scope: GVK -> bool, desired: seq<Ref>, r: Ref) {
    (r.ns == "" ==> scope(r.gvk)) && Alive(s, r.Id()) && !Untouchable(r.gvk.kind) && r !in desired
  }

  /** What marks a recorded reference for deletion: the namespace it needs, a kind that may be purged, and neither
      wanted nor seen to be terminating. It need not be live. */
  predicate Markable(env: Env, s: Server, scope: GVK -> bool, desired: seq<Ref>, r: Ref) {
    && (r.ns == "" ==> scope(r.gvk)) && !Untouchable(r.gvk.kind) && r !in desired
    && !(r.gvk in env.served && r.Id() in s.live && s.live[r.Id()].deleting)
  }

  /** The same without assuming that scopes are known: one of unknown scope is never marked. */
  ghost predicate Eligible(env: Env, s: Server, sc: Scoping, statics: map<string, bool>, lists: Lists,
                           desired: seq<Ref>, r: Ref) {
    var known := ScopeFor(sc, statics, lists, r.gvk);
    && known.Some? && (r.ns == "" ==> known.value) && r !in desired
    && r.gvk.kind != "CustomResourceDefinition" && r.gvk.kind != "Namespace"
    && !(r.gvk in env.served && r.Id() in s.live && s.live[r.Id()].deleting)
  }

  /** Exactly the eligible recorded references are marked. */
  lemma {:induction false} MarkedIff(env: Env, sc: Scoping, s: Server, scopes: Scopes, lists: Lists,
                                     desired: seq<Ref>, current: seq<Ref>)
    requires Ready(sc, scopes, lists) && Deletable(env, sc, s, scopes, desired, current).2.Some?
    ensures forall r :: r in Deletable(env, sc, s, scopes, desired, current).2.value <==>
      r in current && Eligible(env, s, sc, scopes.statics, lists, desired, r)
  {
    if current != [] {
      var init, r := current[..|current| - 1], current[|current| - 1];
      assert current == init + [r];
      DeletableReads(env, sc, s, scopes, lists, desired, init);
      MarkedIff(env, sc, s, scopes, lists, desired, init);
      var (s1, scopes1, found) := Deletable(env, sc, s, scopes, desired, init);
      JudgeIsExact(env, sc, s, s1, scopes1, lists, desired, r);
    }
  }

  lemma JudgeIsExact(env: Env, sc: Scoping, s: Server, s1: Server, scopes: Scopes, lists: Lists, desired: seq<Ref>,
                     r: Ref)
    requires s1.live == s.live && Ready(sc, scopes, lists)
    ensures var verdict := Judge(env, sc, s1, scopes, desired, r).2;
      verdict.ReadFailed? || (verdict.Mark? <==> Eligible(env, s, sc, scopes.statics, lists, desired, r))
  {
    LookupAnswers(sc, scopes, lists, r.gvk);
  }

  /** The references that are looked for in the cluster: their scope is known, and they have the namespace they need. */
  function LookedFor(sc: Scoping, statics: map<string, bool>, lists: Lists): Ref -> bool {
    (r: Ref) => var known := ScopeFor(sc, statics, lists, r.gvk); known.Some? && (known.value || r.ns != "")
  }

  function Reads(looked: Ref -> bool, refs: seq<Ref>): nat {
    if refs == [] then 0
    else Reads(looked, refs[..|refs| - 1]) + if looked(refs[|refs| - 1]) then 1 else 0
  }

  /** The i-th reference is looked for, and that read is refused. */
  predicate ReadRefused(env: Env, calls: nat, looked: Ref -> bool, refs: seq<Ref>, i: nat)
    requires i < |refs|
  {
    looked(refs[i]) && env.answers(calls + Reads(looked, refs[..i])).refusal.Some?
  }

  ghost predicate SomeReadRefused(env: Env, calls: nat, looked: Ref -> bool, refs: seq<Ref>) {
    exists i :: 0 <= i < |refs| && ReadRefused(env, calls, looked, refs, i)
  }

  lemma LastReadRefused(env: Env, calls: nat, looked: Ref -> bool, init: seq<Ref>, r: Ref)
    ensures SomeReadRefused(env, calls, looked, init + [r]) <==>
      (SomeReadRefused(env, calls, looked, init)
       || (looked(r) && env.answers(calls + Reads(looked, init)).refusal.Some?))
    ensures Reads(looked, init + [r]) == Reads(looked, init) + if looked(r) then 1 else 0
  {
    var all := init + [r];
    assert all[|init|] == r && all[..|init|] == init;
    if i :| 0 <= i < |all| && ReadRefused(env, calls, looked, all, i) {
      if i < |init| {
        EarlierRead(env, calls, looked, init, r, i);
      }
    }
    if i :| 0 <= i < |init| && ReadRefused(env, calls, looked, init, i) {
      EarlierRead(env, calls, looked, init, r, i);
    }
    if looked(r) && env.answers(calls + Reads(looked, init)).refusal.Some? {
      assert ReadRefused(env, calls, looked, all, |init|);
    }
  }

  lemma EarlierRead(env: Env, calls: nat, looked: Ref -> bool, init: seq<Ref>, r: Ref, i: nat)
    requires i < |init|
    ensures ReadRefused(env, calls, looked, init + [r], i) <==> ReadRefused(env, calls, looked, init, i)
  {
    assert (init + [r])[i] == init[i] && (init + [r])[..i] == init[..i];
  }

  /** Marking fails iff the read of some reference is refused: a reference whose object or type is gone is no error. */
  lemma {:induction false} MarkingFailsIff(env: Env, sc: Scoping, s: Server, scopes: Scopes, lists: Lists,
                                           desired: seq<Ref>, current: seq<Ref>)
    requires Ready(sc, scopes, lists)
    ensures var (s', _, found) := Deletable(env, sc, s, scopes, desired, current);
      var looked := LookedFor(sc, scopes.statics, lists);
      && (found.None? <==> SomeReadRefused(env, s.calls, looked, current))
      && (found.Some? ==> s'.calls == s.calls + Reads(looked, current))
  {
    if current != [] {
      var init, r := current[..|current| - 1], current[|current| - 1];
      assert current == init + [r];
      MarkingFailsIff(env, sc, s, scopes, lists, desired, init);
      MarkingLast(env, sc, s, scopes, lists, desired, init, r);
      LastReadRefused(env, s.calls, LookedFor(sc, scopes.statics, lists), init, r);
    }
  }

  lemma MarkingLast(env: Env, sc: Scoping, s: Server, scopes: Scopes, lists: Lists, desired: seq<Ref>, init: seq<Ref>,
                    r: Ref)
    requires Ready(sc, scopes, lists)
    ensures var (s1, _, before) := Deletable(env, sc, s, scopes, desired, init);
      var (s2, _, after) := Deletable(env, sc, s, scopes, desired, init + [r]);
      var read := LookedFor(sc, scopes.statics, lists)(r);
      && (after.None? <==> before.None? || (read && env.answers(s1.calls).refusal.Some?))
      && (after.Some? ==> s2.calls == s1.calls + if read then 1 else 0)
  {
    assert (init + [r])[..|init|] == init;
    DeletableReads(env, sc, s, scopes, lists, desired, init);
    var (s1, scopes1, before) := Deletable(env, sc, s, scopes, desired, init);
    JudgeFailsIff(env, sc, s1, scopes1, lists, desired, r);
  }

  lemma JudgeFailsIff(env: Env, sc: Scoping, s: Server, scopes: Scopes, lists: Lists, desired: seq<Ref>, r: Ref)
    requires Ready(sc, scopes, lists)
    ensures var (s', _, verdict) := Judge(env, sc, s, scopes, desired, r);
      var read := LookedFor(sc, scopes.statics, lists)(r);
      && (verdict.ReadFailed? <==> read && env.answers(s.calls).refusal.Some?)
      && s'.calls == s.calls + if read then 1 else 0
  {
    LookupAnswers(sc, scopes, lists, r.gvk);
  }

  /** With all scopes known exactly the markable recorded references are marked. */
  lemma DeletableIsExact(env: Env, sc: Scoping, s: Server, scopes: Scopes, lists: Lists, scope: GVK -> bool,
                         desired: seq<Ref>, current: seq<Ref>)
    requires Ready(sc, scopes, lists) && ScopesAre(sc, scopes.statics, lists, scope, TypesOf(current))
    requires Deletable(env, sc, s, scopes, desired, current).2.Some?
    ensures forall r :: r in Deletable(env, sc, s, scopes, desired, current).2.value <==>
      r in current && Markable(env, s, scope, desired, r)
  {
    MarkedIff(env, sc, s, scopes, lists, desired, current);
    forall r | r in current
      ensures Eligible(env, s, sc, scopes.statics, lists, desired, r) <==> Markable(env, s, scope, desired, r)
    {
      assert r.gvk in TypesOf(current);
    }
  }

  /** A scope that cannot be found out spares the reference without so much as a read: discovery fails, and neither a
      table nor an earlier answer helps. */
  lemma FailedDiscoverySpares(env: Env, sc: Scoping, s: Server, scopes: Scopes, desired: seq<Ref>, r: Ref)
    requires sc.table.None? && sc.discovery(scopes.fetches).None?
    requires r.gvk.Gk().ToString() !in scopes.statics && r.gvk.Gk().ToString() !in scopes.dynamics
    ensures Judge(env, sc, s, scopes, desired, r) == (s, scopes.(fetches := scopes.fetches + 1), Spare)
  {
  }

  /** Only recorded objects that are purgeable and not desired are marked for deletion. */
  lemma {:induction false} DeletableIsSound(env: Env, sc: Scoping, s: Server, scopes: Scopes, desired: seq<Ref>,
      current: seq<Ref>)
    requires Deletable(env, sc, s, scopes, desired, current).2.Some?
    ensures forall r :: r in Deletable(env, sc, s, scopes, desired, current).2.value ==>
      r in current && !Untouchable(r.gvk.kind) && r !in desired
  {
    if current != [] {
      var init, r := current[..|current| - 1], current[|current| - 1];
      assert current == init + [r];
      DeletableIsSound(env, sc, s, scopes, desired, init);
    }
  }

  /** The world after reading the namespace, and the inventory object prepared from there. */
  ghost function AfterNamespace(r: Round, w: World): World {
    w.(server := GetCall(r.env, w.server, NAMESPACE_GVK, Key(NAMESPACE_GVK.Gk(), "", r.ns)).0)
  }

  ghost function InventoryPrepared(r: Round, w: World): (World, Draft)
    requires InHeap(r.builders, w.heap)
  {
    PrepareDesired(r.env, r.sc, AfterNamespace(r, w), r.ns, r.release, r.cfg.owner, r.builders)
  }

  ghost function InvKey(r: Round): Key {
    InventoryKey(r.cfg.owner, r.ns, r.release)
  }

  /** Neither the namespace nor the owner is being deleted. */
  ghost predicate NothingLeaves(r: Round, w: World) {
    var got := GetCall(r.env, w.server, NAMESPACE_GVK, Key(NAMESPACE_GVK.Gk(), "", r.ns)).1;
    !(got.Ok? && got.value.deleting) && !r.cfg.owner.deleting
  }

  /** The scopes a round asks for are all known. */
  ghost predicate ScopesKnown(r: Round, w: World, lists: Lists, scope: GVK -> bool)
    requires InHeap(r.builders, w.heap)
  {
    && Ready(r.sc, w.scopes, lists)
    && (Recorded(w.server, InvKey(r)).Some? ==>
      ScopesAre(r.sc, w.scopes.statics, lists, scope, TypesOf(Recorded(w.server, InvKey(r)).value)))
    && (CollectDesired(r.builders).Some? ==>
          forall i :: 0 <= i < |CollectDesired(r.builders).value| ==>
            ScopeFor(r.sc, w.scopes.statics, lists, w.heap[CollectDesired(r.builders).value[i]].gvk)
              == Some(scope(w.heap[CollectDesired(r.builders).value[i]].gvk)))
  }

  /** The memory after both namespace passes, and the references then recorded. */
  ghost function Normalized(r: Round, w: World): Heap
    requires InHeap(r.builders, w.heap) && CollectDesired(r.builders).Some?
  {
    Normalize(r.sc, r.ns, w.scopes, w.heap, CollectDesired(r.builders).value).1
  }

  ghost function Wanted(r: Round, w: World): seq<Ref>
    requires InHeap(r.builders, w.heap) && CollectDesired(r.builders).Some?
  {
    RefsOf(CollectDesired(r.builders).value, Normalized(r, w))
  }

  ghost function NewInventory(r: Round, w: World): Obj
    requires InHeap(r.builders, w.heap) && CollectDesired(r.builders).Some?
  {
    InventoryObject(r.ns, InvKey(r).name, Wanted(r, w))
  }

  /** Preparing reads the recorded references and normalises the wanted objects. */
  lemma InventoryPreparedMeans(r: Round, w: World)
    requires InHeap(r.builders, w.heap) && CONFIG_MAP in r.env.served && InventoryPrepared(r, w).1.Draft?
    ensures CollectDesired(r.builders).Some? && Recorded(w.server, InvKey(r)).Some?
    ensures var (w2, inventory) := InventoryPrepared(r, w);
      && inventory.value == NewInventory(r, w)
      && w2.server.live == w.server.live && w2.server.log == w.server.log && w.server.calls <= w2.server.calls
      && w2.heap == Normalized(r, w)
      && w2.book.desired == CollectDesired(r.builders).value && w2.book.current == Recorded(w.server, InvKey(r)).value
      && w2.scopes == Normalize(r.sc, r.ns, w.scopes, w.heap, CollectDesired(r.builders).value).0
  {
    CurrentIsRecorded(r.env, AfterNamespace(r, w), InvKey(r));
  }

  lemma CurrentIsRecorded(env: Env, w: World, key: Key)
    requires CONFIG_MAP in env.served && ReadCurrent(env, w, key).1 == Completed
    ensures Recorded(w.server, key).Some?
    ensures ReadCurrent(env, w, key).0 ==
      w.(server := w.server.(calls := w.server.calls + 1), book := w.book.(current := Recorded(w.server, key).value))
  {
  }

  /** The steps of Append when nothing fails and nothing leaves. */
  lemma AppendSteps(r: Round, w: World)
    requires InHeap(r.builders, w.heap)
    requires InventoryPrepared(r, w).1.Draft? && RoundAppend(r, w).2 == Completed && NothingLeaves(r, w)
    ensures var (w2, inventory) := InventoryPrepared(r, w); var (w3, ok) := PrepareDeletable(r.env, r.sc, w2);
      ok && var (w4, all) := AppendInventory(w3, false, inventory.value, r.builders, r.box);
        RoundAppend(r, w) == (w4, all, Completed)
  {
  }

  /** What taking stock comes to: only reads, and the inventory object added if there is anything to record. */
  lemma StockTaken(r: Round, w: World, lists: Lists, scope: GVK -> bool)
    requires InHeap(r.builders, w.heap) && CONFIG_MAP in r.env.served
    requires InventoryPrepared(r, w).1.Draft? && RoundAppend(r, w).2 == Completed && NothingLeaves(r, w)
    requires ScopesKnown(r, w, lists, scope)
    ensures CollectDesired(r.builders).Some? && Recorded(w.server, InvKey(r)).Some?
    ensures var (w1, all, _) := RoundAppend(r, w);
      && w1.server.live == w.server.live && w1.server.log == w.server.log && w.server.calls <= w1.server.calls
      && (all, w1.heap) ==
        if Wanted(r, w) == [] then (r.builders, Normalized(r, w))
        else (r.builders + [Builds(r.box, Static(StatePresent))], Normalized(r, w)[r.box := NewInventory(r, w)])
  {
    AppendSteps(r, w);
    InventoryPreparedMeans(r, w);
    var w2 := InventoryPrepared(r, w).0;
    NormalizeMeans(r.sc, r.ns, w.scopes, lists, w.heap, CollectDesired(r.builders).value);
    PreparingReads(r.env, r.sc, w2, lists);
    InventoryAdded(PrepareDeletable(r.env, r.sc, w2).0, r.ns, InvKey(r).name, Wanted(r, w), r.builders, r.box);
  }

  lemma PreparingReads(env: Env, sc: Scoping, w: World, lists: Lists)
    requires Held(w.book.desired, w.heap) && Ready(sc, w.scopes, lists)
    ensures var w' := PrepareDeletable(env, sc, w).0;
      w'.server.live == w.server.live && w'.server.log == w.server.log && w.server.calls <= w'.server.calls
          && w'.heap == w.heap
  {
    DeletableReads(env, sc, w.server, w.scopes, lists, RefsOf(w.book.desired, w.heap), w.book.current);
  }

  lemma InventoryAdded(w: World, ns: string, name: string, refs: seq<Ref>, builders: seq<Builder>, box: RuntimeObject)
    requires InHeap(builders, w.heap)
    ensures var inventory := InventoryObject(ns, name, refs);
      var (w', all) := AppendInventory(w, false, inventory, builders, box);
      && w'.server == w.server
      && (if refs == [] then all == builders && w'.heap == w.heap
          else all == builders + [Builds(box, Static(StatePresent))] && w'.heap == w.heap[box := inventory])
  {
    EmptyText(refs);
  }

  /** Marked for deletion are exactly the markable recorded references, among them every stale one. */
  lemma MarkedForDeletion(r: Round, w: World, lists: Lists, scope: GVK -> bool)
    requires InHeap(r.builders, w.heap) && CONFIG_MAP in r.env.served
    requires InventoryPrepared(r, w).1.Draft? && RoundAppend(r, w).2 == Completed && NothingLeaves(r, w)
    requires ScopesKnown(r, w, lists, scope)
    ensures CollectDesired(r.builders).Some? && Recorded(w.server, InvKey(r)).Some?
    ensures var marked := RoundAppend(r, w).0.book.toDelete; var recorded := Recorded(w.server, InvKey(r)).value;
      && (forall x :: x in marked <==> x in recorded && Markable(r.env, w.server, scope, Wanted(r, w), x))
      && (forall x :: x in recorded && Stale(w.server, scope, Wanted(r, w), x) ==> x in marked)
  {
    InventoryPreparedMeans(r, w);
    var w2 := InventoryPrepared(r, w).0;
    NormalizeMeans(r.sc, r.ns, w.scopes, lists, w.heap, CollectDesired(r.builders).value);
    assert PrepareDeletable(r.env, r.sc, w2).1;
    var found := Deletable(r.env, r.sc, w2.server, w2.scopes, Wanted(r, w), w2.book.current).2;
    assert RoundAppend(r, w).0.book.toDelete == found.value;
    DeletableIsExact(r.env, r.sc, w2.server, w2.scopes, lists, scope, Wanted(r, w), w2.book.current);
    assert forall x :: Markable(r.env, w2.server, scope, Wanted(r, w), x) <==>
      Markable(r.env, w.server, scope, Wanted(r, w), x);
  }

  lemma EmptyText(refs: seq<Ref>)
    ensures PrintAll(refs) == "" <==> refs == []
  {
    if refs != [] {
      var lines := PrintEach(refs);
      assert lines[0] == Print(refs[0]);
      assert Fields(refs[0])[1..] != [];
    }
  }

  lemma VisitRemoves(env: Env, cfg: Config, p: Progress, o: RuntimeObject, ds: DesiredState)
    requires o in p.heap && IsAbsent(ds) && p.heap[o].gvk in env.served
    requires Visit(env, cfg, p, o, ds).combined.errors == []
    ensures !Alive(Visit(env, cfg, p, o, ds).server, p.heap[o].Id())
  {
    PrepareKeepsIdentity(cfg, p.heap[o]);
    SuccessSettles(env, cfg.opts, p.server, Desired(cfg, p.heap[o]), ds);
  }

  /** Every builder of an object only wants it absent, and its type is served. */
  ghost predicate OnlyAbsent(env: Env, builders: seq<Builder>, heap: Heap, key: Key)
    requires InHeap(builders, heap)
  {
    forall i :: 0 <= i < |builders| && Takes(builders[i]) && heap[builders[i].target].Id() == key ==>
      IsAbsent(builders[i].state) && heap[builders[i].target].gvk in env.served
  }

  lemma OnlyAbsentParts(env: Env, init: seq<Builder>, last: Builder, heap: Heap, key: Key)
    requires InHeap(init + [last], heap) && OnlyAbsent(env, init + [last], heap, key)
    ensures InHeap(init, heap) && OnlyAbsent(env, init, heap, key) && (last.Builds? ==> last.target in heap)
    ensures Takes(last) && heap[last.target].Id() == key ==> IsAbsent(last.state) && heap[last.target].gvk in env.served
  {
    var all := init + [last];
    assert all[|init|] == last && forall i :: 0 <= i < |init| ==> all[i] == init[i];
  }

  /** One more turn: an object it wants absent is gone, and one that was gone is not brought back by another. */
  lemma StepLeavesGone(env: Env, cfg: Config, m: Progress, b: Builder, key: Key)
    requires b.Builds? ==> b.target in m.heap
    requires Takes(b) && m.heap[b.target].Id() == key ==> IsAbsent(b.state) && m.heap[b.target].gvk in env.served
    requires (Takes(b) && m.heap[b.target].Id() == key) || !Alive(m.server, key)
    requires Step(env, cfg, m, b).combined.errors == []
    ensures !Alive(Step(env, cfg, m, b).server, key)
  {
    if Takes(b) {
      if m.heap[b.target].Id() == key {
        VisitRemoves(env, cfg, m, b.target, b.state);
      } else {
        VisitTouches(env, cfg, m, b.target, b.state);
        TouchesOther(m.server, Step(env, cfg, m, b).server, m.heap[b.target].Id(), key);
      }
    }
  }

  /** A round that ends without an error leaves nothing alive that it only wanted absent. */
  lemma {:induction false} OnlyAbsentIsGone(env: Env, cfg: Config, p: Progress, builders: seq<Builder>, key: Key)
    requires InHeap(builders, p.heap) && ApplyAll(env, cfg, p, builders).combined.errors == []
    requires Named(builders, p.heap, key) && OnlyAbsent(env, builders, p.heap, key)
    ensures !Alive(ApplyAll(env, cfg, p, builders).server, key)
  {
    var init, last := builders[..|builders| - 1], builders[|builders| - 1];
    assert builders == init + [last];
    OnlyAbsentParts(env, init, last, p.heap, key);
    NamedExtends(init, last, p.heap, key);
    var m := ApplyAll(env, cfg, p, init);
    StepErrors(env, cfg, m, last);
    IdentitiesStay(env, cfg, p, init);
    if Named(init, p.heap, key) {
      OnlyAbsentIsGone(env, cfg, p, init, key);
    }
    StepLeavesGone(env, cfg, m, last, key);
  }

  /** Objects that are not terminating and whose kind may not be recreated never ask to be called again. */
  lemma ConvergesAtOnce(env: Env, opts: Options, s: Server, d: Obj, ds: DesiredState)
    requires Plain(ds) && Resolve(ds) == Converge
    requires d.Id() in s.live ==> !s.live[d.Id()].deleting
    requires forall st :: !opts.recreatable(d.gvk, st)
    ensures ReconcileResource(env, opts, s, d, ds).result == None
  {
    CreateSettles(env, s, d, ds);
    var c := CreateIfNotExist(env, s, d, ds);
    if c.error.None? && !c.created && !c.current.deleting {
      PlainUpdate(env, opts, c.server, c.current, d, ds);
    }
  }

  /** Preparing leaves the inventory's data alone and does not make it create-only. */
  ghost predicate InventoryKept(cfg: Config, cm: Obj) {
    var p := Prepare(cfg, cm);
    p.error.None? && p.desired.content.body == cm.content.body
        && DESIRED_STATE_CREATED !in p.desired.content.annotations
  }

  /** Without modifiers that is always so. */
  lemma InventoryIsKept(cfg: Config, ns: string, name: string, refs: seq<Ref>)
    requires cfg.modifiers == []
    ensures InventoryKept(cfg, InventoryObject(ns, name, refs))
  {
  }

  /** A round that ends without an error has stored the inventory object it applied last. */
  lemma InventoryStored(env: Env, cfg: Config, p: Progress, init: seq<Builder>, box: RuntimeObject)
    requires InHeap(init, p.heap) && box in p.heap && InventoryKept(cfg, p.heap[box])
    requires p.heap[box].gvk == CONFIG_MAP && p.heap[box].content.body.ConfigMapBody?
    requires !Named(init, p.heap, p.heap[box].Id())
    requires p.heap[box].Id() in p.server.live ==> !p.server.live[p.heap[box].Id()].deleting
    requires forall st :: !cfg.opts.recreatable(CONFIG_MAP, st)
    requires InHeap(init + [Builds(box, Static(StatePresent))], p.heap)
    requires ApplyAll(env, cfg, p, init + [Builds(box, Static(StatePresent))]).combined.errors == []
    ensures var q := ApplyAll(env, cfg, p, init + [Builds(box, Static(StatePresent))]); var key := p.heap[box].Id();
      Alive(q.server, key) && q.server.live[key].content.body == p.heap[box].content.body
  {
    var builders := init + [Builds(box, Static(StatePresent))];
    assert builders[..|builders| - 1] == init;
    var m := ApplyAll(env, cfg, p, init);
    ApplyTouches(env, cfg, p, init);
    HeapUntouched(env, cfg, p, init, box);
    PrepareKeepsIdentity(cfg, p.heap[box]);
    var d := Desired(cfg, p.heap[box]);
    var out := ReconcileResource(env, cfg.opts, m.server, d, Static(StatePresent));
    ConvergesAtOnce(env, cfg.opts, m.server, d, Static(StatePresent));
    ConvergeSettles(env, cfg.opts, m.server, d, Static(StatePresent));
    assert out.error == None;
    var before := Live(m.server, d.Id());
    LandedCarries(Static(StatePresent), if before.Some? then Some(before.value.content)
        else None, d.content, out.server.live[d.Id()].content);
  }
}
