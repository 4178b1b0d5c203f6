/** The hypotheses of the theorems about rounds can be met, and what happens when they are not. A component owns two
    objects of one kind, recorded under one API version; now only the first is wanted, under another version. */
module Witnesses {
  import opened Strings
  import opened Objects
  import opened Cluster
  import opened DesiredStates
  import opened ResourceMachine
  import opened Results
  import opened Identity
  import opened Sort
  import opened Scope
  import opened InventoryText
  import opened NativeMachine
  import opened InventoryMachine
  import opened Convergence
  import opened RunFrames
  import opened PurgeProperties
  import opened RunConvergence
  import opened RunHistories
  import opened RoundFacts
  import opened NoLeak
  import opened RoundSafety
  import opened Coexistence

  /** The cast: the first object as recorded and as wanted, the one left over, and the inputs of a round. */
  datatype Scene = Scene(was: Ref, want: Obj, left: Ref, cfg: Config, sc: Scoping, ns: string, release: string,
                         overrides: Overrides)

  function Annotations(z: Scene): StringMap {
    map[MANAGED_COMPONENT := z.cfg.id, RELATED_TO := RelatedTo(z.cfg.owner)]
  }

  /** Nothing special about the configuration. */
  predicate PlainConfig(z: Scene) {
    z.cfg.modifiers == [] && !z.cfg.controllerRef && z.cfg.mapper.None? && !z.cfg.owner.deleting && z.ns != ""
  }

  /** Nothing is recreated and no state is overridden. */
  ghost predicate Unforced(z: Scene) {
    && (forall gvk, status :: !z.cfg.opts.recreatable(gvk, status))
    && (forall gvk, ns, name :: z.overrides(gvk, ns, name).None?)
  }

  /** A fixed table says that both versions of the kind are namespaced. */
  predicate Namespaced(z: Scene) {
    z.sc.table.Some? && z.want.ns != "" && InNamespaces(z.sc, z.was.gvk) && InNamespaces(z.sc, z.want.gvk)
  }

  predicate InNamespaces(sc: Scoping, gvk: GVK) {
    sc.table.Some? && gvk.ApiVersion() + "/" + gvk.kind !in sc.table.value
  }

  /** The two objects and the inventory are told apart. */
  predicate Apart(z: Scene) {
    && z.was.Id() != z.left.Id() && z.was.Id() != Inv(z) && z.left.Id() != Inv(z)
    && z.was.Id().gk == z.left.Id().gk != Inv(z).gk && z.want.Id() == z.was.Id() && z.left.gvk == z.was.gvk
    && z.was.ns != "" && z.left.ns != "" && z.ns != "" && z.was.name != "" && z.left.name != "" && Inv(z).name != ""
  }

  /** The first is wanted under another version, of a kind that may be purged. */
  predicate Bumped(z: Scene) {
    RefOf(z.want) != z.was && RefOf(z.want) != z.left && !Untouchable(z.was.gvk.kind)
  }

  /** So are their resource IDs. */
  predicate IDsApart(z: Scene) {
    KeyID(z.was.Id()) != KeyID(z.left.Id()) && KeyID(Inv(z)) != KeyID(z.left.Id()) && KeyID(Inv(z)) != KeyID(z.was.Id())
  }

  ghost predicate CleanRefs(z: Scene) {
    InventoryText.Clean(z.was) && InventoryText.Clean(z.left) && InventoryText.Clean(RefOf(z.want))
  }

  predicate Annotated(z: Scene) {
    z.want.content.annotations == Annotations(z) && z.want.rv == 0
  }

  ghost predicate Fits(z: Scene) {
    PlainConfig(z) && Unforced(z) && Namespaced(z) && Apart(z) && Bumped(z) && IDsApart(z) && CleanRefs(z)
        && Annotated(z)
  }

  /** An API server that refuses at most one call, without effect. */
  function Refusing(z: Scene, call: Option<nat>): Env {
    Env((n: nat) => Answer(if call == Some(n) then Some(ApiStatus(500, false, "")) else None, false, false, ""),
        {z.was.gvk, z.want.gvk, CONFIG_MAP, NAMESPACE_GVK})
  }

  function InvName(z: Scene): string {
    InventoryName(z.cfg.owner, z.ns, z.release)
  }

  function Inv(z: Scene): Key {
    InventoryKey(z.cfg.owner, z.ns, z.release)
  }

  /** The inventory as it is stored. */
  function Stock(z: Scene, refs: seq<Ref>): Content {
    InventoryObject(z.ns, InvName(z), refs).content.(annotations := Annotations(z))
  }

  /** What is live: both widgets, and an inventory that records `refs`. */
  function Widgets(z: Scene, refs: seq<Ref>, rv: nat): map<Key, Stored> {
    map[z.was.Id() := Stored(z.want.content, 0, false), z.left.Id() := Stored(z.want.content, 0, false),
        Inv(z) := Stored(Stock(z, refs), rv, false)]
  }

  function LeftWidget(z: Scene): Obj {
    Obj(z.left.gvk, z.left.ns, z.left.name, z.want.content, 0)
  }

  // ----- taking stock -----

  /** No call is refused before the given one. */
  predicate AnswersUntil(env: Env, from: nat, to: nat) {
    forall n :: from <= n < to ==> env.answers(n).refusal.None?
  }

  lemma InventoryReads(z: Scene, s: Server, refs: seq<Ref>, rv: nat)
    requires Apart(z)
    requires s.live == Widgets(z, refs, rv) && forall x :: x in refs ==> InventoryText.Clean(x)
    ensures Recorded(s, Inv(z)) == Some(refs)
  {
    RecordedText(s, Inv(z), z.ns, InvName(z), refs);
  }

  /** Every recorded reference with a namespace takes one read, and without a refusal there is no error. */
  lemma {:induction false} DeletableCounts(z: Scene, env: Env, s: Server, scopes: Scopes, desired: seq<Ref>,
      current: seq<Ref>)
    requires z.sc.table.Some?
    requires AnswersUntil(env, s.calls, s.calls + |current|) && forall r :: r in current ==> r.ns != ""
    ensures var (s', scopes', found) := Deletable(env, z.sc, s, scopes, desired, current);
      found.Some? && s'.calls == s.calls + |current|
  {
    if current != [] {
      var init := current[..|current| - 1];
      assert current[|current| - 1] in current;
      assert forall r :: r in init ==> r in current;
      DeletableCounts(z, env, s, scopes, desired, init);
    }
  }

  lemma WantsWidget(z: Scene, a: RuntimeObject)
    ensures CollectDesired([Builds(a, Static(StatePresent))]) == Some([a])
    ensures !SomeFails([Builds(a, Static(StatePresent))]) && !SomeNil([Builds(a, Static(StatePresent))])
  {
    var all := [Builds(a, Static(StatePresent))];
    assert all[..0] == [];
    assert Gather(all[..0]) == Some(Yield([], false));
    assert Yield([], false).objects + [a] == [a];
  }

  lemma NamespaceIsMissing(z: Scene, env: Env, s: Server, refs: seq<Ref>, rv: nat)
    requires Apart(z)
    requires s.live == Widgets(z, refs, rv) && NAMESPACE_GVK in env.served && env.answers(s.calls).refusal.None?
    ensures GetCall(env, s, NAMESPACE_GVK, Key(NAMESPACE_GVK.Gk(), "", z.ns))
      == (s.(calls := s.calls + 1), Err(NotFound))
  {
    var key := Key(NAMESPACE_GVK.Gk(), "", z.ns);
    assert key.ns != z.was.Id().ns && key.ns != z.left.Id().ns && key.ns != Inv(z).ns;
  }

  /** Nothing about the widget changes in normalisation. */
  lemma StaysNormal(z: Scene, a: RuntimeObject)
    requires Namespaced(z)
    ensures Normalize(z.sc, z.ns, Scopes(map[], map[], 0), map[a := z.want], [a]).1 == map[a := z.want]
  {
    var s, heap := Scopes(map[], map[], 0), map[a := z.want];
    PassOne(Sanitizer(z.sc), s, heap, a);
    PassOne(NamespaceEnsurer(z.sc, z.ns), s, heap, a);
    assert Sanitize(z.sc, s, z.want) == (s, z.want);
    assert EnsureNamespace(z.sc, z.ns, s, z.want) == (s, z.want);
    assert heap[a := z.want] == heap;
  }

  lemma PassOne(step: (Scopes, Obj) -> (Scopes, Obj), s: Scopes, heap: Heap, o: RuntimeObject)
    requires o in heap
    ensures Pass(step, s, heap, [o]) == (step(s, heap[o]).0, heap[o := step(s, heap[o]).1])
  {
    assert [o][..0] == [];
    assert Pass(step, s, heap, [o][..0]) == (s, heap);
  }

  ghost predicate Serves(z: Scene, env: Env) {
    z.was.gvk in env.served && z.want.gvk in env.served && CONFIG_MAP in env.served && NAMESPACE_GVK in env.served
  }

  /** A round of this scenario, over an inventory that records `refs`, whose reads are all answered. */
  ghost predicate Setting(z: Scene, r: Round, w: World, refs: seq<Ref>, rv: nat, a: RuntimeObject) {
    && r.sc == z.sc && r.cfg == z.cfg && r.ns == z.ns && r.release == z.release && r.overrides == z.overrides
    && r.builders == [Builds(a, Static(StatePresent))] && r.box != a
    && w.scopes == Scopes(map[], map[], 0) && w.heap == map[a := z.want] && w.server.live == Widgets(z, refs, rv)
    && (forall x :: x in refs ==> InventoryText.Clean(x) && x.ns != "" && InNamespaces(z.sc, x.gvk)) && Serves(z, r.env)
    && AnswersUntil(r.env, w.server.calls, w.server.calls + 2 + |refs|)
  }

  /** Everything known about a round from its inputs: the inventory object drafted, nothing refused. */
  lemma DraftsInventory(z: Scene, r: Round, w: World, refs: seq<Ref>, rv: nat, a: RuntimeObject)
    requires PlainConfig(z) && Apart(z)
    requires InHeap(r.builders, w.heap) && CONFIG_MAP in r.env.served
    requires Setting(z, r, w, refs, rv, a)
    ensures InventoryPrepared(r, w).1.Draft? && NothingLeaves(r, w)
    ensures AfterNamespace(r, w).server.calls == w.server.calls + 1
    ensures CollectDesired(r.builders) == Some([a])
  {
    NamespaceIsMissing(z, r.env, w.server, refs, rv);
    WantsWidget(z, a);
    DraftMeans(r, w);
    InventoryReads(z, w.server, refs, rv);
    ParsePanics(ReferenceText(w.server.live[Inv(z)].content));
  }

  lemma RoundFactsOf(z: Scene, r: Round, w: World, refs: seq<Ref>, rv: nat, a: RuntimeObject)
    requires PlainConfig(z) && Apart(z) && Namespaced(z)
    requires InHeap(r.builders, w.heap) && CONFIG_MAP in r.env.served
    requires Setting(z, r, w, refs, rv, a)
    ensures InventoryPrepared(r, w).1.Draft? && NothingLeaves(r, w) && Recorded(w.server, InvKey(r)) == Some(refs)
    ensures CollectDesired(r.builders) == Some([a]) && Wanted(r, w) == [RefOf(z.want)] && Normalized(r, w) == w.heap
  {
    DraftsInventory(z, r, w, refs, rv, a);
    InventoryReads(z, w.server, refs, rv);
    StaysNormal(z, a);
    assert RefsOf([a], w.heap) == [RefOf(z.want)];
  }

  lemma MarkingCompletes(z: Scene, env: Env, w: World, leaving: bool, cm: Obj, builders: seq<Builder>,
                         box: RuntimeObject)
    requires z.sc.table.Some?
    requires InHeap(builders, w.heap) && Held(w.book.desired, w.heap)
    requires AnswersUntil(env, w.server.calls, w.server.calls + |w.book.current|) && forall x ::
      x in w.book.current ==> x.ns != ""
    ensures var (w', all, ending) := MarkAndAppend(env, z.sc, w, leaving, cm, builders, box);
      ending == Completed && w'.server.calls == w.server.calls + |w.book.current|
  {
    DeletableCounts(z, env, w.server, w.scopes, RefsOf(w.book.desired, w.heap), w.book.current);
  }

  lemma ReadsAreAnswered(z: Scene, r: Round, w: World, refs: seq<Ref>, rv: nat, a: RuntimeObject)
    requires PlainConfig(z) && Apart(z) && Namespaced(z)
    requires InHeap(r.builders, w.heap) && CONFIG_MAP in r.env.served
    requires Setting(z, r, w, refs, rv, a)
    ensures RoundAppend(r, w).2 == Completed && RoundAppend(r, w).0.server.calls == w.server.calls + 2 + |refs|
  {
    PreparedAt(z, r, w, refs, rv, a);
    var (w2, draft) := InventoryPrepared(r, w);
    MarkingCompletes(z, r.env, w2, false, draft.value, r.builders, r.box);
    AppendIsMarking(r, w);
  }

  lemma PreparedAt(z: Scene, r: Round, w: World, refs: seq<Ref>, rv: nat, a: RuntimeObject)
    requires InHeap(r.builders, w.heap) && CONFIG_MAP in r.env.served
    requires PlainConfig(z) && Apart(z) && Setting(z, r, w, refs, rv, a)
    ensures InventoryPrepared(r, w).1.Draft? && NothingLeaves(r, w)
    ensures NamespaceRead(r, w).Ok? || NamespaceRead(r, w).error == NotFound
    ensures var w2 := InventoryPrepared(r, w).0;
      w2.server.calls == w.server.calls + 2 && w2.book.current == refs && InHeap(r.builders, w2.heap)
  {
    DraftsInventory(z, r, w, refs, rv, a);
    InventoryReads(z, w.server, refs, rv);
    NamespaceIsMissing(z, r.env, w.server, refs, rv);
    InventoryPreparedMeans(r, w);
  }

  lemma AppendIsMarking(r: Round, w: World)
    requires InHeap(r.builders, w.heap) && InventoryPrepared(r, w).1.Draft? && NothingLeaves(r, w)
    requires NamespaceRead(r, w).Ok? || NamespaceRead(r, w).error == NotFound
    ensures var (w2, draft) := InventoryPrepared(r, w);
      RoundAppend(r, w) == MarkAndAppend(r.env, r.sc, w2, false, draft.value, r.builders, r.box)
  {
  }

  lemma NoOverrides(z: Scene, heap: Heap, a: RuntimeObject, box: RuntimeObject)
    requires Unforced(z)
    requires a in heap && box in heap
    ensures InHeap([Builds(a, Static(StatePresent)), Builds(box, Static(StatePresent))], heap)
    ensures WithOverrides(z.overrides, [Builds(a, Static(StatePresent)), Builds(box, Static(StatePresent))], heap)
      == [Builds(a, Static(StatePresent)), Builds(box, Static(StatePresent))]
  {
  }

  /** Stock is taken: only reads, and the inventory object added. */
  lemma StockIsTaken(z: Scene, r: Round, w: World, refs: seq<Ref>, rv: nat, a: RuntimeObject)
    requires PlainConfig(z) && Apart(z) && Namespaced(z)
    requires InHeap(r.builders, w.heap) && CONFIG_MAP in r.env.served
    requires Setting(z, r, w, refs, rv, a)
    ensures RoundAppend(r, w).2 == Completed && ScopesKnown(r, w, [], (g: GVK) => false)
    ensures var (w1, all, _) := RoundAppend(r, w);
      && w1.server.live == w.server.live && w1.server.log == w.server.log
      && w1.server.calls == w.server.calls + 2 + |refs|
      && CollectDesired(r.builders).Some? && w1.heap == w.heap[r.box := NewInventory(r, w)]
      && all == r.builders + [Builds(r.box, Static(StatePresent))]
  {
    RoundFactsOf(z, r, w, refs, rv, a);
    KnowsScopes(z, r, w, refs, a);
    ReadsAreAnswered(z, r, w, refs, rv, a);
    StockIs(r, w, [], (g: GVK) => false);
  }

  /** Exactly the markable references are marked. */
  lemma MarksRecorded(z: Scene, r: Round, w: World, refs: seq<Ref>, rv: nat, a: RuntimeObject)
    requires PlainConfig(z) && Apart(z) && Namespaced(z)
    requires InHeap(r.builders, w.heap) && CONFIG_MAP in r.env.served
    requires Setting(z, r, w, refs, rv, a)
    ensures forall x :: x in RoundAppend(r, w).0.book.toDelete <==>
      x in refs && Markable(r.env, w.server, (g: GVK) => false, [RefOf(z.want)], x)
  {
    RoundFactsOf(z, r, w, refs, rv, a);
    KnowsScopes(z, r, w, refs, a);
    ReadsAreAnswered(z, r, w, refs, rv, a);
    MarksAre(r, w, [], (g: GVK) => false, refs, [RefOf(z.want)]);
  }

  lemma MarksAre(r: Round, w: World, lists: Lists, scope: GVK -> bool, recorded: seq<Ref>, wanted: seq<Ref>)
    requires InHeap(r.builders, w.heap) && CONFIG_MAP in r.env.served
    requires InventoryPrepared(r, w).1.Draft? && RoundAppend(r, w).2 == Completed && NothingLeaves(r, w)
    requires ScopesKnown(r, w, lists, scope) && Recorded(w.server, InvKey(r)) == Some(recorded)
    requires CollectDesired(r.builders).Some? && Wanted(r, w) == wanted
    ensures forall x :: x in RoundAppend(r, w).0.book.toDelete <==>
      x in recorded && Markable(r.env, w.server, scope, wanted, x)
  {
    MarkedForDeletion(r, w, lists, scope);
  }

  lemma StockIs(r: Round, w: World, lists: Lists, scope: GVK -> bool)
    requires InHeap(r.builders, w.heap) && CONFIG_MAP in r.env.served
    requires InventoryPrepared(r, w).1.Draft? && RoundAppend(r, w).2 == Completed && NothingLeaves(r, w)
    requires ScopesKnown(r, w, lists, scope) && CollectDesired(r.builders).Some? && Wanted(r, w) != []
    requires Normalized(r, w) == w.heap
    ensures var (w1, all, _) := RoundAppend(r, w);
      && w1.server.live == w.server.live && w1.server.log == w.server.log
      && w1.heap == w.heap[r.box := NewInventory(r, w)] && all == r.builders + [Builds(r.box, Static(StatePresent))]
  {
    StockTaken(r, w, lists, scope);
  }

  lemma KnowsScopes(z: Scene, r: Round, w: World, refs: seq<Ref>, a: RuntimeObject)
    requires Namespaced(z)
    requires r.sc == z.sc && w.scopes == Scopes(map[], map[], 0) && w.heap == map[a := z.want]
    requires InHeap(r.builders, w.heap)
    requires CollectDesired(r.builders) == Some([a])
    requires Recorded(w.server, InvKey(r)) == Some(refs) && forall x :: x in refs ==> InNamespaces(z.sc, x.gvk)
    ensures ScopesKnown(r, w, [], (g: GVK) => false)
  {
  }

  // ----- applying -----

  /** A visit of an object that is live as wanted reads it, and that is all. */
  lemma VisitSynced(env: Env, cfg: Config, p: Progress, o: RuntimeObject, d: Obj, key: Key)
    requires o in p.heap && Prepare(cfg, p.heap[o]) == Prepared(d, None) && d.Id() == key
    requires DESIRED_STATE_CREATED !in d.content.annotations && d.gvk in env.served && key.name != ""
    requires Alive(p.server, key) && MergeMeta(p.server.live[key].content, d.content) == p.server.live[key].content
    requires env.answers(p.server.calls).refusal.None?
    ensures var q := Visit(env, cfg, p, o, Static(StatePresent));
      && q.server == p.server.(calls := p.server.calls + 1) && q.combined == p.combined
      && q.visited == p.visited + {KeyID(key).value}
      && forall r :: r in p.heap && r != o ==> q.heap[r] == p.heap[r]
  {
    var c := CreateIfNotExist(env, p.server, d, Static(StatePresent));
    PlainUpdate(env, cfg.opts, c.server, c.current, d, Static(StatePresent));
  }

  /** A visit of a live object that is wanted otherwise reads and updates it. */
  lemma VisitUpdates(env: Env, cfg: Config, p: Progress, o: RuntimeObject, d: Obj, key: Key)
    requires o in p.heap && Prepare(cfg, p.heap[o]) == Prepared(d, None) && d.Id() == key
    requires DESIRED_STATE_CREATED !in d.content.annotations && d.gvk in env.served && key.name != ""
    requires Alive(p.server, key) && d.content.body.ConfigMapBody?
    requires MergeMeta(p.server.live[key].content, d.content) == d.content != p.server.live[key].content
    requires AnswersUntil(env, p.server.calls, p.server.calls + 2)
    ensures var q := Visit(env, cfg, p, o, Static(StatePresent));
      && q.server.calls == p.server.calls + 2 && q.combined == p.combined
      && q.server.live == p.server.live[key := Stored(d.content, p.server.calls + 2, false)]
      && q.visited == p.visited + {KeyID(key).value}
  {
    var c := CreateIfNotExist(env, p.server, d, Static(StatePresent));
    PlainUpdate(env, cfg.opts, c.server, c.current, d, Static(StatePresent));
  }

  lemma PreparesWidget(z: Scene)
    requires PlainConfig(z) && Annotated(z)
    ensures Prepare(z.cfg, z.want) == Prepared(z.want, None)
    ensures MergeMeta(z.want.content, z.want.content) == z.want.content
    ensures DESIRED_STATE_CREATED !in z.want.content.annotations
  {
    assert Annotations(z)[RELATED_TO := RelatedTo(z.cfg.owner)] == Annotations(z);
    assert Annotations(z) + Annotations(z) == Annotations(z)
        && z.want.content.labels + z.want.content.labels == z.want.content.labels;
  }

  lemma PreparesInventory(z: Scene, refs: seq<Ref>, was: seq<Ref>)
    requires PlainConfig(z)
    ensures Prepare(z.cfg, InventoryObject(z.ns, InvName(z), refs))
      == Prepared(InventoryObject(z.ns, InvName(z), refs).(content := Stock(z, refs)), None)
    ensures MergeMeta(Stock(z, was), Stock(z, refs)) == Stock(z, refs)
    ensures DESIRED_STATE_CREATED !in Stock(z, refs).annotations
  {
    assert map[][MANAGED_COMPONENT := z.cfg.id][RELATED_TO := RelatedTo(z.cfg.owner)] == Annotations(z);
    assert Annotations(z) + Annotations(z) == Annotations(z)
        && z.want.content.labels + z.want.content.labels == z.want.content.labels;
  }

  lemma StocksDiffer(z: Scene, refs: seq<Ref>, was: seq<Ref>)
    requires refs != was && (forall x :: x in refs ==> InventoryText.Clean(x)) && forall x :: x in was ==>
      InventoryText.Clean(x)
    ensures Stock(z, refs) != Stock(z, was)
  {
    ParseUndoesPrint(refs);
    ParseUndoesPrint(was);
    assert ReferenceText(Stock(z, refs)) == PrintAll(refs) && ReferenceText(Stock(z, was)) == PrintAll(was);
  }

  /** The inventory is applied after the widget. */
  lemma ApplyTwo(env: Env, cfg: Config, p: Progress, first: Builder, last: Builder)
    requires InHeap([first, last], p.heap) && (first.Builds? ==> first.target in p.heap)
    requires (last.Builds? ==> last.target in p.heap)
    ensures ApplyAll(env, cfg, p, [first, last]) == Step(env, cfg, Step(env, cfg, p, first), last)
    ensures ApplyAll(env, cfg, p, [first]) == Step(env, cfg, p, first)
  {
    assert [first, last][..1] == [first] && [first][..0] == [];
    assert ApplyAll(env, cfg, p, [first][..0]) == p;
  }

  lemma VisitsWidget(z: Scene, env: Env, p: Progress, a: RuntimeObject, refs: seq<Ref>, rv: nat)
    requires PlainConfig(z) && Annotated(z) && Apart(z)
    requires a in p.heap && p.heap[a] == z.want && p.server.live == Widgets(z, refs, rv)
    requires Serves(z, env) && env.answers(p.server.calls).refusal.None?
    ensures var q := Visit(env, z.cfg, p, a, Static(StatePresent));
      && q.server == p.server.(calls := p.server.calls + 1) && q.combined == p.combined
      && q.visited == p.visited + {KeyID(z.was.Id()).value}
      && forall r :: r in p.heap && r != a ==> q.heap[r] == p.heap[r]
  {
    PreparesWidget(z);
    VisitSynced(env, z.cfg, p, a, z.want, z.was.Id());
  }

  /** What the inventory object looks like once prepared. */
  lemma InventoryPrepares(z: Scene, now: seq<Ref>) returns (d: Obj)
    requires PlainConfig(z)
    ensures Prepare(z.cfg, InventoryObject(z.ns, InvName(z), now)) == Prepared(d, None)
    ensures d.Id() == Inv(z) && d.gvk == CONFIG_MAP && d.content == Stock(z, now) && d.content.body.ConfigMapBody?
    ensures DESIRED_STATE_CREATED !in d.content.annotations
  {
    PreparesInventory(z, now, now);
    d := InventoryObject(z.ns, InvName(z), now).(content := Stock(z, now));
  }

  lemma WidgetsUpdate(z: Scene, refs: seq<Ref>, rv: nat, now: seq<Ref>, rv': nat)
    requires Apart(z)
    ensures Widgets(z, refs, rv)[Inv(z) := Stored(Stock(z, now), rv', false)] == Widgets(z, now, rv')
    ensures Inv(z) in Widgets(z, refs, rv) && Widgets(z, refs, rv)[Inv(z)] == Stored(Stock(z, refs), rv, false)
  {
    LastOfThree(z.was.Id(), Stored(z.want.content, 0, false), z.left.Id(), Stored(z.want.content, 0, false), Inv(z),
                Stored(Stock(z, refs), rv, false), Stored(Stock(z, now), rv', false));
  }

  lemma LastOfThree(k: Key, u: Stored, l: Key, v: Stored, m: Key, x: Stored, y: Stored)
    requires m != k && m != l
    ensures map[k := u, l := v, m := x][m := y] == map[k := u, l := v, m := y]
  {
  }

  lemma VisitsInventory(z: Scene, env: Env, p: Progress, box: RuntimeObject, refs: seq<Ref>, rv: nat, now: seq<Ref>)
    requires PlainConfig(z) && Apart(z)
    requires box in p.heap && p.heap[box] == InventoryObject(z.ns, InvName(z), now)
    requires p.server.live == Widgets(z, refs, rv)
    requires Serves(z, env) && AnswersUntil(env, p.server.calls, p.server.calls + 2)
    requires (forall x :: x in refs ==> InventoryText.Clean(x)) && forall x :: x in now ==> InventoryText.Clean(x)
    ensures var q := Visit(env, z.cfg, p, box, Static(StatePresent));
      && q.server.live == Widgets(z, now, if now == refs then rv else p.server.calls + 2) && q.combined == p.combined
      && q.server.calls == p.server.calls + (if now == refs then 1 else 2)
      && q.visited == p.visited + {KeyID(Inv(z)).value}
  {
    var d := InventoryPrepares(z, now);
    PreparesInventory(z, now, refs);
    WidgetsUpdate(z, refs, rv, now, p.server.calls + 2);
    if now == refs {
      VisitSynced(env, z.cfg, p, box, d, Inv(z));
    } else {
      StocksDiffer(z, now, refs);
      VisitUpdates(env, z.cfg, p, box, d, Inv(z));
    }
  }

  /** The apply loop of a round: the inventory is updated unless it already records what is wanted. */
  lemma AppliesBoth(z: Scene, env: Env, p: Progress, a: RuntimeObject, box: RuntimeObject, refs: seq<Ref>, rv: nat,
                    now: seq<Ref>)
    requires PlainConfig(z) && Annotated(z) && Apart(z)
    requires a in p.heap && p.heap[a] == z.want && box != a
    requires box in p.heap && p.heap[box] == InventoryObject(z.ns, InvName(z), now)
    requires p.server.live == Widgets(z, refs, rv)
    requires Serves(z, env) && AnswersUntil(env, p.server.calls, p.server.calls + 3)
    requires (forall x :: x in refs ==> InventoryText.Clean(x)) && forall x :: x in now ==> InventoryText.Clean(x)
    ensures InHeap([Builds(a, Static(StatePresent)), Builds(box, Static(StatePresent))], p.heap)
    ensures var m := ApplyAll(env, z.cfg, p, [Builds(a, Static(StatePresent)), Builds(box, Static(StatePresent))]);
      && m.server.live == Widgets(z, now, if now == refs then rv else p.server.calls + 3) && m.combined == p.combined
      && m.server.calls == p.server.calls + (if now == refs then 2 else 3)
      && m.visited == p.visited + {KeyID(z.was.Id()).value} + {KeyID(Inv(z)).value}
  {
    VisitsWidget(z, env, p, a, refs, rv);
    var q := Visit(env, z.cfg, p, a, Static(StatePresent));
    VisitsInventory(z, env, q, box, refs, rv, now);
    BothInTurn(env, z.cfg, p, a, box);
  }

  lemma BothInTurn(env: Env, cfg: Config, p: Progress, a: RuntimeObject, box: RuntimeObject)
    requires a in p.heap && box in p.heap
    ensures InHeap([Builds(a, Static(StatePresent)), Builds(box, Static(StatePresent))], p.heap)
    ensures ApplyAll(env, cfg, p, [Builds(a, Static(StatePresent)), Builds(box, Static(StatePresent))])
      == Visit(env, cfg, Visit(env, cfg, p, a, Static(StatePresent)), box, Static(StatePresent))
  {
    ApplyTwo(env, cfg, p, Builds(a, Static(StatePresent)), Builds(box, Static(StatePresent)));
  }

  // ----- purging -----

  lemma ListsOne(env: Env, calls: nat, gvk: GVK)
    requires ListAnswered(env, calls, gvk)
    ensures Listing(env, None, calls, [gvk]) == (calls + 1, [gvk])
    ensures ListedAt(env, None, calls, [gvk], 0)
  {
    assert [gvk][..0] == [];
    assert Listing(env, None, calls, []) == (calls, []);
    assert [] + [gvk] == [gvk];
  }

  lemma OneIsListed(env: Env, cfg: Config, calls: nat, gvk: GVK)
    requires ListAnswered(env, calls, gvk) && cfg.mapper.None?
    ensures Listing(env, cfg.mapper, calls, [gvk]) == (calls + 1, [gvk]) && AllListed(env, cfg, calls, [gvk])
  {
    ListsOne(env, calls, gvk);
  }

  lemma OneIsSorted(score: string -> int, o: Obj)
    ensures Sorted(score, [o])
  {
  }

  /** Of three live objects, one of the listed kind is purgeable: the other one of that kind was visited. */
  lemma OneIsPurgeable(id: string, s: Server, visited: set<string>, gvk: GVK, kept: Key, left: Key, other: Key, o: Obj)
    requires s.live.Keys == {kept, left, other} && gvk.Gk() == left.gk == kept.gk && other.gk != left.gk
    requires left.name != "" && KeyID(left).Some? && KeyID(left).value !in visited && KeyID(kept).Some?
    requires KeyID(kept).value in visited
    requires MANAGED_COMPONENT in s.live[left].content.annotations
    requires s.live[left].content.annotations[MANAGED_COMPONENT] == id
    ensures o == Shown(gvk, left, s.live[left]) <==> Purgeable(id, s, visited, [gvk], o)
  {
    var shown := Shown(gvk, left, s.live[left]);
    assert shown.Id() == left;
    if Purgeable(id, s, visited, [gvk], o) {
      assert o.gvk == gvk && o.Id().gk == left.gk;
    }
  }

  lemma PlansOne(id: string, s: Server, visited: set<string>, gvk: GVK, kept: Key, left: Key, other: Key)
    requires s.live.Keys == {kept, left, other} && gvk.Gk() == left.gk == kept.gk && other.gk != left.gk
    requires left.name != "" && KeyID(left).Some? && KeyID(left).value !in visited && KeyID(kept).Some?
    requires KeyID(kept).value in visited
    requires MANAGED_COMPONENT in s.live[left].content.annotations
    requires s.live[left].content.annotations[MANAGED_COMPONENT] == id
    ensures IsPlan(id, s, visited, [gvk], [Shown(gvk, left, s.live[left])])
  {
    OneIsSorted(ScoreOf(UninstallOrder), Shown(gvk, left, s.live[left]));
    forall o ensures o in [Shown(gvk, left, s.live[left])] <==> Purgeable(id, s, visited, [gvk], o) {
      OneIsPurgeable(id, s, visited, gvk, kept, left, other, o);
    }
  }

  lemma LeftIsShown(z: Scene, s: Server, refs: seq<Ref>, rv: nat)
    requires Apart(z) && Annotated(z)
    requires s.live == Widgets(z, refs, rv)
    ensures s.live.Keys == {z.was.Id(), z.left.Id(), Inv(z)}
    ensures s.live[z.left.Id()].content.annotations == Annotations(z)
    ensures Shown(z.was.gvk, z.left.Id(), s.live[z.left.Id()]) == LeftWidget(z) && z.left.Id().name != ""
    ensures z.was.gvk.Gk() == z.left.Id().gk
  {
    MapOfThree(z.was.Id(), Stored(z.want.content, 0, false), z.left.Id(), Stored(z.want.content, 0, false), Inv(z),
               Stored(Stock(z, refs), rv, false));
  }

  lemma MapOfThree(k: Key, u: Stored, l: Key, v: Stored, m: Key, x: Stored)
    requires k != l && k != m && l != m
    ensures var live := map[k := u, l := v, m := x];
      live.Keys == {k, l, m} && live[k] == u && live[l] == v && live[m] == x
  {
  }

  lemma OwnsWidgets(z: Scene)
    ensures MANAGED_COMPONENT in Annotations(z) && Annotations(z)[MANAGED_COMPONENT] == z.cfg.id
  {
    assert MANAGED_COMPONENT[0] == RELATED_TO[0] && |MANAGED_COMPONENT| != |RELATED_TO|;
  }

  lemma PlansLeft(z: Scene, s: Server, visited: set<string>, refs: seq<Ref>, rv: nat)
    requires Apart(z) && IDsApart(z) && Annotated(z)
    requires s.live == Widgets(z, refs, rv) && KeyID(z.was.Id()).Some? && KeyID(Inv(z)).Some?
    requires visited == {KeyID(z.was.Id()).value} + {KeyID(Inv(z)).value}
    ensures IsPlan(z.cfg.id, s, visited, [z.was.gvk], [LeftWidget(z)])
  {
    LeftIsShown(z, s, refs, rv);
    LeftWasNotVisited(z, visited);
    PlansWidget(z, s, visited);
  }

  lemma LeftWasNotVisited(z: Scene, visited: set<string>)
    requires IDsApart(z)
    requires KeyID(z.was.Id()).Some? && KeyID(Inv(z)).Some? && KeyID(z.left.Id()).Some?
    requires visited == {KeyID(z.was.Id()).value} + {KeyID(Inv(z)).value}
    ensures KeyID(z.was.Id()).value in visited && KeyID(z.left.Id()).value !in visited
  {
  }

  lemma PlansWidget(z: Scene, s: Server, visited: set<string>)
    requires KeyID(z.was.Id()).Some? && KeyID(Inv(z)).Some? && KeyID(z.left.Id()).Some?
    requires KeyID(z.was.Id()).value in visited && KeyID(z.left.Id()).value !in visited
    requires s.live.Keys == {z.was.Id(), z.left.Id(), Inv(z)} && z.was.Id().gk == z.left.Id().gk != Inv(z).gk
    requires z.was.gvk.Gk() == z.left.Id().gk && z.left.Id().name != ""
    requires s.live[z.left.Id()].content.annotations == Annotations(z)
    requires Shown(z.was.gvk, z.left.Id(), s.live[z.left.Id()]) == LeftWidget(z)
    ensures IsPlan(z.cfg.id, s, visited, [z.was.gvk], [LeftWidget(z)])
  {
    OwnsWidgets(z);
    PlansOne(z.cfg.id, s, visited, z.was.gvk, z.was.Id(), z.left.Id(), Inv(z));
  }

  /** One deletion: done, or refused and reported. */
  lemma DeletesLeft(z: Scene, env: Env, p: Progress, refs: seq<Ref>, rv: nat)
    requires Apart(z)
    requires p.server.live == Widgets(z, refs, rv) && p.combined.errors == [] && Serves(z, env)
    requires !env.answers(p.server.calls).effective && !env.answers(p.server.calls).lingers
    ensures var q := DeleteAll(env, p, [LeftWidget(z)]); var refused := env.answers(p.server.calls).refusal.Some?;
      && (refused ==> q.combined.errors != [] && q.server.live == p.server.live)
      && (!refused ==> q.combined.errors == [] && q.server.live == p.server.live - {z.left.Id()})
  {
    var plan := [LeftWidget(z)];
    assert plan[..0] == [] && LeftWidget(z).Id() == z.left.Id();
    assert DeleteAll(env, p, plan[..0]) == p;
  }

  // ----- whole rounds -----

  /** Where a round ends. */
  ghost function EndOf(r: Round, w: World): Progress
    requires InHeap(r.builders, w.heap)
  {
    var m := AppliedIn(r, w);
    DeleteAll(r.env, m.(server := m.server.(calls := Listing(r.env, r.cfg.mapper, m.server.calls, r.types).0)), r.plan)
  }

  lemma IsARound(r: Round, w: World)
    requires InHeap(r.builders, w.heap) && r.box !in w.heap && RoundAppend(r, w).2 == Completed
    requires IsTypes(RoundAppend(r, w).0.book.toDelete, r.types)
    requires AppliedIn(r, w).combined.errors == []
    requires var m := AppliedIn(r, w);
      IsPlan(r.cfg.id, m.server, m.visited, Listing(r.env, r.cfg.mapper, m.server.calls, r.types).1, r.plan)
    ensures IsRound(r, w, EndOf(r, w))
  {
  }

  lemma AppliedIs(r: Round, w: World, p: Progress, builders: seq<Builder>)
    requires InHeap(r.builders, w.heap) && p == RoundStart(StartWorld(r, w)) && builders == FinalBuilders(r, w)
    ensures InHeap(builders, p.heap) && AppliedIn(r, w) == ApplyAll(r.env, r.cfg, p, builders)
  {
  }

  lemma DraftIs(z: Scene, r: Round, w: World, now: seq<Ref>)
    requires InHeap(r.builders, w.heap) && CollectDesired(r.builders).Some? && Wanted(r, w) == now
    requires r.ns == z.ns && r.release == z.release && r.cfg == z.cfg
    ensures NewInventory(r, w) == InventoryObject(z.ns, InvName(z), now)
  {
  }

  lemma FinalIs(z: Scene, r: Round, w: World, a: RuntimeObject)
    requires Unforced(z)
    requires InHeap(r.builders, w.heap) && r.builders == [Builds(a, Static(StatePresent))] && r.overrides == z.overrides
    requires RoundAppend(r, w).1 == r.builders + [Builds(r.box, Static(StatePresent))]
    ensures FinalBuilders(r, w) == [Builds(a, Static(StatePresent)), Builds(r.box, Static(StatePresent))]
  {
    var both := [Builds(a, Static(StatePresent)), Builds(r.box, Static(StatePresent))];
    assert r.builders + [Builds(r.box, Static(StatePresent))] == both;
    assert RoundAppend(r, w).1 == both;
    NoOverrides(z, StartWorld(r, w).heap, a, r.box);
  }

  lemma WantedIsClean(z: Scene, now: seq<Ref>)
    requires CleanRefs(z) && now == [RefOf(z.want)]
    ensures forall x :: x in now ==> InventoryText.Clean(x)
  {
  }

  ghost predicate Begins(z: Scene, r: Round, p: Progress, refs: seq<Ref>, rv: nat, a: RuntimeObject, now: seq<Ref>) {
    && a in p.heap && p.heap[a] == z.want && r.box != a
    && r.box in p.heap && p.heap[r.box] == InventoryObject(z.ns, InvName(z), now)
    && p.server.live == Widgets(z, refs, rv)
    && p.visited == {} && p.combined == NOTHING && Serves(z, r.env) && r.cfg == z.cfg
    && (forall x :: x in refs ==> InventoryText.Clean(x)) && (forall x :: x in now ==> InventoryText.Clean(x))
  }

  /** Where the run of a round starts. */
  lemma RoundBegins(z: Scene, r: Round, w: World, refs: seq<Ref>, rv: nat, a: RuntimeObject, now: seq<Ref>)
    requires Fits(z)
    requires InHeap(r.builders, w.heap) && CONFIG_MAP in r.env.served
    requires Setting(z, r, w, refs, rv, a) && now == [RefOf(z.want)]
    ensures var p := RoundStart(StartWorld(r, w));
      Begins(z, r, p, refs, rv, a, now) && p.server.calls == w.server.calls + 2 + |refs|
  {
    RoundFactsOf(z, r, w, refs, rv, a);
    StockIsTaken(z, r, w, refs, rv, a);
    DraftIs(z, r, w, now);
    WantedIsClean(z, now);
    BeginsIf(z, r, w, StartWorld(r, w), refs, rv, a, now);
  }

  lemma BeginsIf(z: Scene, r: Round, w: World, w1: World, refs: seq<Ref>, rv: nat, a: RuntimeObject, now: seq<Ref>)
    requires Setting(z, r, w, refs, rv, a) && forall x :: x in now ==> InventoryText.Clean(x)
    requires w1.server.live == w.server.live && w1.heap == w.heap[r.box := InventoryObject(z.ns, InvName(z), now)]
    ensures Begins(z, r, RoundStart(w1), refs, rv, a, now)
  {
  }

  lemma FinalAt(z: Scene, r: Round, w: World, refs: seq<Ref>, rv: nat, a: RuntimeObject)
    requires InHeap(r.builders, w.heap) && CONFIG_MAP in r.env.served
    requires Fits(z) && Setting(z, r, w, refs, rv, a)
    ensures FinalBuilders(r, w) == [Builds(a, Static(StatePresent)), Builds(r.box, Static(StatePresent))]
  {
    StockIsTaken(z, r, w, refs, rv, a);
    FinalIs(z, r, w, a);
  }

  /** After the apply loop of a round of this scenario. */
  ghost predicate AppliedFrom(z: Scene, m: Progress, start: nat, refs: seq<Ref>, rv: nat, now: seq<Ref>) {
    && m.server.live == Widgets(z, now, if now == refs then rv else start + 3) && m.combined == NOTHING
    && m.server.calls == start + (if now == refs then 2 else 3)
    && z.was.name != "" && Inv(z).name != "" && m.visited == {KeyID(z.was.Id()).value} + {KeyID(Inv(z)).value}
  }

  lemma AppliesFrom(z: Scene, r: Round, p: Progress, a: RuntimeObject, refs: seq<Ref>, rv: nat, now: seq<Ref>)
    requires PlainConfig(z) && Annotated(z) && Apart(z) && Begins(z, r, p, refs, rv, a, now)
    requires AnswersUntil(r.env, p.server.calls, p.server.calls + 3)
    ensures InHeap([Builds(a, Static(StatePresent)), Builds(r.box, Static(StatePresent))], p.heap)
    ensures var m := ApplyAll(r.env, r.cfg, p, [Builds(a, Static(StatePresent)), Builds(r.box, Static(StatePresent))]);
      AppliedFrom(z, m, p.server.calls, refs, rv, now)
  {
    AppliesBoth(z, r.env, p, a, r.box, refs, rv, now);
  }

  lemma AppliesRound(z: Scene, r: Round, w: World, p: Progress, refs: seq<Ref>, rv: nat, a: RuntimeObject,
                     now: seq<Ref>)
    requires PlainConfig(z) && Annotated(z) && Apart(z) && Begins(z, r, p, refs, rv, a, now)
    requires InHeap(r.builders, w.heap) && p == RoundStart(StartWorld(r, w))
    requires AnswersUntil(r.env, p.server.calls, p.server.calls + 3)
    requires FinalBuilders(r, w) == [Builds(a, Static(StatePresent)), Builds(r.box, Static(StatePresent))]
    ensures AppliedFrom(z, AppliedIn(r, w), p.server.calls, refs, rv, now)
  {
    AppliesFrom(z, r, p, a, refs, rv, now);
    AppliedIs(r, w, p, [Builds(a, Static(StatePresent)), Builds(r.box, Static(StatePresent))]);
  }

  lemma TypesAre(types: GVK, x: Ref, y: Ref, marked: seq<Ref>, markable: Ref -> bool)
    requires forall r :: r in marked <==> r in [x, y] && markable(r)
    requires markable(x) && markable(y) && x.gvk == types == y.gvk && !Untouchable(types.kind)
    ensures IsTypes(marked, [types])
  {
    assert x in marked;
  }

  /** Both recorded references are marked, and their one type is to be purged. */
  lemma MarksBoth(z: Scene, r: Round, w: World, rv: nat, a: RuntimeObject)
    requires InHeap(r.builders, w.heap) && CONFIG_MAP in r.env.served
    requires Fits(z) && Setting(z, r, w, [z.was, z.left], rv, a)
    ensures IsTypes(RoundAppend(r, w).0.book.toDelete, [z.was.gvk])
  {
    MarksRecorded(z, r, w, [z.was, z.left], rv, a);
    BothMarkable(z, r.env, w.server, rv);
    TypesAre(z.was.gvk, z.was, z.left, RoundAppend(r, w).0.book.toDelete,
             (x: Ref) => Markable(r.env, w.server, (g: GVK) => false, [RefOf(z.want)], x));
  }

  lemma BothMarkable(z: Scene, env: Env, s: Server, rv: nat)
    requires Apart(z) && Bumped(z) && s.live == Widgets(z, [z.was, z.left], rv)
    ensures Markable(env, s, (g: GVK) => false, [RefOf(z.want)], z.was)
    ensures Markable(env, s, (g: GVK) => false, [RefOf(z.want)], z.left)
  {
  }

  /** Nothing is marked once only what is wanted is recorded. */
  lemma MarksNothing(z: Scene, r: Round, w: World, rv: nat, a: RuntimeObject, now: seq<Ref>)
    requires InHeap(r.builders, w.heap) && CONFIG_MAP in r.env.served
    requires PlainConfig(z) && Apart(z) && Namespaced(z) && now == [RefOf(z.want)] && Setting(z, r, w, now, rv, a)
    ensures IsTypes(RoundAppend(r, w).0.book.toDelete, [])
  {
    MarksRecorded(z, r, w, now, rv, a);
  }

  /** The deletion of the one object left over, which may be refused. */
  lemma PurgesOne(z: Scene, r: Round, m: Progress, q: Progress, refs: seq<Ref>, rv: nat)
    requires Apart(z) && Serves(z, r.env) && m.combined == NOTHING && m.server.live == Widgets(z, refs, rv)
    requires r.plan == [LeftWidget(z)]
    requires Listing(r.env, r.cfg.mapper, m.server.calls, r.types).0 == m.server.calls + 1
    requires !r.env.answers(m.server.calls + 1).effective && !r.env.answers(m.server.calls + 1).lingers
    requires q
      == DeleteAll(r.env, m.(server := m.server.(calls := Listing(r.env, r.cfg.mapper, m.server.calls, r.types).0)),
                   r.plan)
    ensures r.env.answers(m.server.calls + 1).refusal.Some? ==>
      q.combined.errors != [] && q.server.live == Widgets(z, refs, rv)
    ensures r.env.answers(m.server.calls + 1).refusal.None? ==>
      q.combined.errors == [] && q.server.live == Widgets(z, refs, rv) - {z.left.Id()}
  {
    DeletesLeft(z, r.env, m.(server := m.server.(calls := m.server.calls + 1)), refs, rv);
  }

  /** A round that wants the first object under its new version and purges the second; its last call, the deletion,
      may be refused. */
  lemma BumpingRound(z: Scene, r: Round, w: World, a: RuntimeObject, now: seq<Ref>)
    requires InHeap(r.builders, w.heap) && CONFIG_MAP in r.env.served
    requires Fits(z)
    requires Setting(z, r, w, [z.was, z.left], 0, a) && now == [RefOf(z.want)]
    requires r.types == [z.was.gvk] && r.plan == [LeftWidget(z)] && w.server.calls == 0 && AnswersUntil(r.env, 0, 8)
    requires !r.env.answers(8).effective && !r.env.answers(8).lingers
    ensures IsRound(r, w, EndOf(r, w))
    ensures AllListed(r.env, r.cfg, AppliedIn(r, w).server.calls, r.types)
    ensures r.env.answers(8).refusal.Some? ==>
      EndOf(r, w).combined.errors != [] && EndOf(r, w).server.live == Widgets(z, now, 7)
    ensures r.env.answers(8).refusal.None? ==>
      EndOf(r, w).combined.errors == [] && EndOf(r, w).server.live == Widgets(z, now, 7) - {z.left.Id()}
  {
    MarksBoth(z, r, w, 0, a);
    AppliedAt(z, r, w, [z.was, z.left], 0, a, now, 4);
    EndsAfterPurge(z, r, w, AppliedIn(r, w), now, 7);
  }

  lemma AppliedAt(z: Scene, r: Round, w: World, refs: seq<Ref>, rv: nat, a: RuntimeObject, now: seq<Ref>, start: nat)
    requires Fits(z)
    requires InHeap(r.builders, w.heap) && CONFIG_MAP in r.env.served
    requires Setting(z, r, w, refs, rv, a) && now == [RefOf(z.want)] && start == w.server.calls + 2 + |refs|
    requires AnswersUntil(r.env, w.server.calls, start + 3)
    ensures RoundAppend(r, w).2 == Completed && AppliedFrom(z, AppliedIn(r, w), start, refs, rv, now)
  {
    ReadsAreAnswered(z, r, w, refs, rv, a);
    RoundBegins(z, r, w, refs, rv, a, now);
    FinalAt(z, r, w, refs, rv, a);
    AppliesRound(z, r, w, RoundStart(StartWorld(r, w)), refs, rv, a, now);
  }

  lemma EndsAfterPurge(z: Scene, r: Round, w: World, m: Progress, now: seq<Ref>, rv: nat)
    requires Apart(z) && IDsApart(z) && Annotated(z) && z.cfg.mapper.None? && r.cfg == z.cfg && Serves(z, r.env)
    requires InHeap(r.builders, w.heap) && m == AppliedIn(r, w) && AppliedFrom(z, m, 4, [z.was, z.left], 0, now)
    requires m.server.calls == rv == 7
    requires now != [z.was, z.left]
    requires r.box !in w.heap && RoundAppend(r, w).2 == Completed && IsTypes(RoundAppend(r, w).0.book.toDelete, r.types)
    requires r.types == [z.was.gvk] && r.plan == [LeftWidget(z)] && AnswersUntil(r.env, 0, 8)
    requires !r.env.answers(8).effective && !r.env.answers(8).lingers
    ensures IsRound(r, w, EndOf(r, w))
    ensures AllListed(r.env, r.cfg, m.server.calls, r.types)
    ensures r.env.answers(8).refusal.Some? ==>
      EndOf(r, w).combined.errors != [] && EndOf(r, w).server.live == Widgets(z, now, rv)
    ensures r.env.answers(8).refusal.None? ==>
      EndOf(r, w).combined.errors == [] && EndOf(r, w).server.live == Widgets(z, now, rv) - {z.left.Id()}
  {
    OneIsListed(r.env, r.cfg, m.server.calls, z.was.gvk);
    PlansLeft(z, m.server, m.visited, now, rv);
    IsARound(r, w);
    PurgesOne(z, r, m, EndOf(r, w), now, rv);
  }

  // ----- good rounds -----

  /** In this scenario every round that ends without an error and could list its purge types is good. */
  lemma GoodIs(z: Scene, r: Round, w: World, refs: seq<Ref>, rv: nat, a: RuntimeObject, now: seq<Ref>)
    requires InHeap(r.builders, w.heap) && CONFIG_MAP in r.env.served
    requires Fits(z)
    requires Setting(z, r, w, refs, rv, a) && now == [RefOf(z.want)]
    requires IsRound(r, w, EndOf(r, w)) && EndOf(r, w).combined.errors == []
    requires AllListed(r.env, r.cfg, AppliedIn(r, w).server.calls, r.types)
    ensures GoodRound(r, w, EndOf(r, w), [], (g: GVK) => false)
  {
    GoodFacts(z, r, w, refs, rv, a);
    NamesAreFine(z, r, w, refs, rv, a, now);
    InventoryIsFine(z, r, w, refs, rv, a, now);
    AbsenceIsFine(r, w, a);
    GoodIf(r, w, EndOf(r, w), [], (g: GVK) => false);
  }

  lemma GoodFacts(z: Scene, r: Round, w: World, refs: seq<Ref>, rv: nat, a: RuntimeObject)
    requires InHeap(r.builders, w.heap) && CONFIG_MAP in r.env.served
    requires PlainConfig(z) && Apart(z) && Namespaced(z) && Setting(z, r, w, refs, rv, a)
    ensures InventoryPrepared(r, w).1.Draft? && NothingLeaves(r, w) && CollectDesired(r.builders).Some?
    ensures ScopesKnown(r, w, [], (g: GVK) => false)
  {
    RoundFactsOf(z, r, w, refs, rv, a);
    KnowsScopes(z, r, w, refs, a);
  }

  lemma GoodIf(r: Round, w: World, end: Progress, lists: Lists, scope: GVK -> bool)
    requires IsRound(r, w, end) && end.combined.errors == [] && CONFIG_MAP in r.env.served
    requires InventoryPrepared(r, w).1.Draft? && NothingLeaves(r, w) && CollectDesired(r.builders).Some?
    requires AllListed(r.env, r.cfg, AppliedIn(r, w).server.calls, r.types) && r.cfg.mapper.None?
    requires ScopesKnown(r, w, lists, scope) && NamesWell(r, w) && InventoryUndisturbed(r, w) && AbsenceStands(r, w)
    ensures GoodRound(r, w, end, lists, scope)
  {
  }

  lemma AbsenceIsFine(r: Round, w: World, a: RuntimeObject)
    requires InHeap(r.builders, w.heap) && r.builders == [Builds(a, Static(StatePresent))]
    requires CollectDesired(r.builders).Some?
    ensures AbsenceStands(r, w)
  {
  }

  lemma NamesAreFine(z: Scene, r: Round, w: World, refs: seq<Ref>, rv: nat, a: RuntimeObject, now: seq<Ref>)
    requires InHeap(r.builders, w.heap) && CONFIG_MAP in r.env.served
    requires Fits(z)
    requires Setting(z, r, w, refs, rv, a) && now == [RefOf(z.want)]
    ensures CollectDesired(r.builders).Some? && NamesWell(r, w)
  {
    RoundFactsOf(z, r, w, refs, rv, a);
    WantedIsClean(z, now);
    NamesTwo(z, r, w, refs, rv, a, now);
    OwnsThree(z, w.server, refs, rv, r.cfg.id);
    NamesWellIf(r, w, z.was.Id(), z.left.Id(), Inv(z), now);
  }

  lemma NamesTwo(z: Scene, r: Round, w: World, refs: seq<Ref>, rv: nat, a: RuntimeObject, now: seq<Ref>)
    requires InHeap(r.builders, w.heap) && CONFIG_MAP in r.env.served
    requires Fits(z)
    requires Setting(z, r, w, refs, rv, a) && now == [RefOf(z.want)]
    ensures forall k :: Named(FinalBuilders(r, w), StartWorld(r, w).heap, k) ==> k == z.was.Id() || k == Inv(z)
  {
    RoundBegins(z, r, w, refs, rv, a, now);
    FinalAt(z, r, w, refs, rv, a);
    NamedAreTwo(StartWorld(r, w).heap, a, r.box);
  }

  lemma NamedAreTwo(heap: Heap, a: RuntimeObject, box: RuntimeObject)
    requires a in heap && box in heap
    ensures InHeap([Builds(a, Static(StatePresent)), Builds(box, Static(StatePresent))], heap)
    ensures forall k :: Named([Builds(a, Static(StatePresent)), Builds(box, Static(StatePresent))], heap, k) ==>
      k == heap[a].Id() || k == heap[box].Id()
  {
  }

  lemma NamesWellIf(r: Round, w: World, was: Key, left: Key, inv: Key, now: seq<Ref>)
    requires InHeap(r.builders, w.heap) && CollectDesired(r.builders).Some? && r.ns != ""
    requires Wanted(r, w) == now && forall x :: x in now ==> InventoryText.Clean(x)
    requires forall k :: Owned(w.server, r.cfg.id, k) ==> k == was || k == left || k == inv
    requires forall k :: Named(FinalBuilders(r, w), StartWorld(r, w).heap, k) ==> k == was || k == inv
    requires KeyID(was) != KeyID(left) && KeyID(inv) != KeyID(left) && KeyID(inv) != KeyID(was)
    ensures NamesWell(r, w)
  {
  }

  lemma OwnsThree(z: Scene, s: Server, refs: seq<Ref>, rv: nat, id: string)
    requires s.live == Widgets(z, refs, rv)
    ensures forall k :: Owned(s, id, k) ==> k == z.was.Id() || k == z.left.Id() || k == Inv(z)
  {
  }

  lemma InventoryIsFine(z: Scene, r: Round, w: World, refs: seq<Ref>, rv: nat, a: RuntimeObject, now: seq<Ref>)
    requires InHeap(r.builders, w.heap) && CONFIG_MAP in r.env.served
    requires Fits(z)
    requires Setting(z, r, w, refs, rv, a) && now == [RefOf(z.want)]
    ensures CollectDesired(r.builders).Some? && InventoryUndisturbed(r, w)
  {
    RoundFactsOf(z, r, w, refs, rv, a);
    DraftIs(z, r, w, now);
    InventoryIsKept(z.cfg, z.ns, InvName(z), now);
    InventoryFineIf(r, w, a, z.want, InventoryObject(z.ns, InvName(z), now));
  }

  lemma InventoryFineIf(r: Round, w: World, a: RuntimeObject, want: Obj, cm: Obj)
    requires r.builders == [Builds(a, Static(StatePresent))] && w.heap == map[a := want] && InHeap(r.builders, w.heap)
    requires CollectDesired(r.builders).Some? && Normalized(r, w) == w.heap && NewInventory(r, w) == cm
    requires want.Id() != InvKey(r)
    requires InvKey(r) in w.server.live && !w.server.live[InvKey(r)].deleting
    requires InventoryKept(r.cfg, cm) && (forall gvk, ns, name :: r.overrides(gvk, ns, name).None?)
    requires forall gvk, status :: !r.cfg.opts.recreatable(gvk, status)
    ensures InventoryUndisturbed(r, w)
  {
  }

  /** Recorded, both objects are accounted for. */
  lemma BothAccounted(z: Scene, s: Server)
    requires Apart(z) && CleanRefs(z) && s.live == Widgets(z, [z.was, z.left], 0)
    ensures Accounted(s, z.cfg.id, Inv(z), (g: GVK) => false)
  {
    var refs := [z.was, z.left];
    InventoryReads(z, s, refs, 0);
    OwnsThree(z, s, refs, 0, z.cfg.id);
    assert z.was in refs && z.left in refs;
  }

  /** A round over an inventory that already records what is wanted writes nothing and purges nothing. */
  lemma QuietRound(z: Scene, r: Round, w: World, rv: nat, a: RuntimeObject, now: seq<Ref>, start: nat)
    requires InHeap(r.builders, w.heap) && CONFIG_MAP in r.env.served
    requires Fits(z)
    requires Setting(z, r, w, now, rv, a) && now == [RefOf(z.want)] && r.types == [] && r.plan == []
    requires start == w.server.calls + 2 + |now| && AnswersUntil(r.env, w.server.calls, start + 3)
    ensures IsRound(r, w, EndOf(r, w)) && EndOf(r, w).combined.errors == []
    ensures EndOf(r, w).server.live == Widgets(z, now, rv)
    ensures AllListed(r.env, r.cfg, AppliedIn(r, w).server.calls, r.types)
  {
    MarksNothing(z, r, w, rv, a, now);
    AppliedAt(z, r, w, now, rv, a, now, start);
    EndsQuietly(z, r, w, AppliedIn(r, w), now, rv, start);
  }

  lemma EndsQuietly(z: Scene, r: Round, w: World, m: Progress, now: seq<Ref>, rv: nat, start: nat)
    requires InHeap(r.builders, w.heap) && r.types == [] && r.plan == []
    requires m == AppliedIn(r, w) && AppliedFrom(z, m, start, now, rv, now)
    requires r.box !in w.heap && RoundAppend(r, w).2 == Completed && IsTypes(RoundAppend(r, w).0.book.toDelete, [])
    ensures IsRound(r, w, EndOf(r, w)) && EndOf(r, w).combined.errors == []
    ensures EndOf(r, w).server.live == Widgets(z, now, rv)
    ensures AllListed(r.env, r.cfg, m.server.calls, r.types)
  {
    EndsAtOnce(r, w, m);
  }

  lemma EndsAtOnce(r: Round, w: World, m: Progress)
    requires InHeap(r.builders, w.heap) && m == AppliedIn(r, w) && m.combined.errors == [] && r.types == []
    requires r.plan == []
    requires r.box !in w.heap && RoundAppend(r, w).2 == Completed && IsTypes(RoundAppend(r, w).0.book.toDelete, [])
    ensures IsRound(r, w, EndOf(r, w)) && EndOf(r, w) == m
    ensures AllListed(r.env, r.cfg, m.server.calls, r.types)
  {
    assert Listing(r.env, r.cfg.mapper, m.server.calls, []) == (m.server.calls, []);
    IsARound(r, w);
  }

  /** Good rounds exist: one that wants an object under another version than the recorded one, in a world that is
      accounted for, and purges the object left over. */
  lemma GoodRoundsBump(z: Scene, r: Round, w: World, a: RuntimeObject, now: seq<Ref>)
    requires InHeap(r.builders, w.heap) && CONFIG_MAP in r.env.served
    requires Fits(z)
    requires Setting(z, r, w, [z.was, z.left], 0, a) && now == [RefOf(z.want)]
    requires r.types == [z.was.gvk] && r.plan == [LeftWidget(z)] && w.server.calls == 0 && AnswersUntil(r.env, 0, 8)
    requires r.env.answers(8).refusal.None? && !r.env.answers(8).effective && !r.env.answers(8).lingers
    ensures GoodRound(r, w, EndOf(r, w), [], (g: GVK) => false)
    ensures Accounted(w.server, z.cfg.id, Inv(z), (g: GVK) => false)
    ensures z.left.Id() in w.server.live && z.left.Id() !in EndOf(r, w).server.live
  {
    BumpingRound(z, r, w, a, now);
    GoodIs(z, r, w, [z.was, z.left], 0, a, now);
    BothAccounted(z, w.server);
  }

  lemma LeftIsOwned(z: Scene, s: Server, refs: seq<Ref>, rv: nat)
    requires Apart(z) && Annotated(z) && Bumped(z) && s.live == Widgets(z, refs, rv)
    ensures Owned(s, z.cfg.id, z.left.Id())
  {
    LeftIsShown(z, s, refs, rv);
    OwnsWidgets(z);
  }

  lemma LeftIsUnwanted(z: Scene, r: Round, w: World, refs: seq<Ref>, rv: nat, a: RuntimeObject)
    requires InHeap(r.builders, w.heap) && CONFIG_MAP in r.env.served
    requires PlainConfig(z) && Apart(z) && Namespaced(z) && Setting(z, r, w, refs, rv, a)
    ensures CollectDesired(r.builders).Some? && !Listed(Wanted(r, w), z.left.Id())
  {
    RoundFactsOf(z, r, w, refs, rv, a);
  }

  /** How an object is lost. The first round stores the new inventory, and then the deletion of the object left over
      is refused. The second is a good round, and leaves that object alive: of the component, and unwanted. */
  lemma ForgottenSurvives(z: Scene, r1: Round, w1: World, r2: Round, w2: World, a: RuntimeObject, now: seq<Ref>)
    requires InHeap(r1.builders, w1.heap) && CONFIG_MAP in r1.env.served && InHeap(r2.builders, w2.heap)
    requires CONFIG_MAP in r2.env.served
    requires Fits(z)
    requires Setting(z, r1, w1, [z.was, z.left], 0, a) && now == [RefOf(z.want)]
    requires r1.types == [z.was.gvk] && r1.plan == [LeftWidget(z)] && w1.server.calls == 0 && AnswersUntil(r1.env, 0, 8)
    requires r1.env.answers(8).refusal.Some? && !r1.env.answers(8).effective && !r1.env.answers(8).lingers
    requires w2.server == EndOf(r1, w1).server && r2.types == [] && r2.plan == []
    requires Setting(z, r2, w2, now, 7, a) && AnswersUntil(r2.env, w2.server.calls, w2.server.calls + 2 + |now| + 3)
    ensures IsRound(r1, w1, EndOf(r1, w1)) && EndOf(r1, w1).combined.errors != []
    ensures GoodRound(r2, w2, EndOf(r2, w2), [], (g: GVK) => false)
    ensures Owned(EndOf(r2, w2).server, z.cfg.id, z.left.Id()) && !Listed(Wanted(r2, w2), z.left.Id())
  {
    BumpingRound(z, r1, w1, a, now);
    QuietRound(z, r2, w2, 7, a, now, w2.server.calls + 2 + |now|);
    GoodIs(z, r2, w2, now, 7, a, now);
    LeftIsOwned(z, EndOf(r2, w2).server, now, 7);
    LeftIsUnwanted(z, r2, w2, now, 7, a);
  }

  // ----- a swallowed error -----

  /** A round of a fresh reconciler whose second call, reading the inventory, is refused. */
  ghost predicate Unread(z: Scene, r: Round, w: World, a: RuntimeObject) {
    && r.cfg == z.cfg && r.ns == z.ns && r.release == z.release && r.overrides == z.overrides
    && r.builders == [Builds(a, Static(StatePresent))]
    && w.heap == map[a := z.want] && w.book.toDelete == [] && w.server.live == Widgets(z, [z.was, z.left], 0)
    && w.server.calls == 0
    && r.env.answers(0).refusal.None? && r.env.answers(1).refusal.Some? && r.env.answers(2).refusal.None?
    && r.types == [] && r.plan == []
  }

  lemma UnreadAppends(z: Scene, r: Round, w: World, a: RuntimeObject)
    requires InHeap(r.builders, w.heap) && CONFIG_MAP in r.env.served && NAMESPACE_GVK in r.env.served && Apart(z)
    requires Unread(z, r, w, a)
    ensures var (w1, all, ending) := RoundAppend(r, w);
      ending == Completed && all == r.builders && w1.book.toDelete == [] && w1.heap == w.heap
          && w1.server == w.server.(calls := 2)
  {
    UnreadReads(z, r, w, a);
    FatalAppends(r, w);
  }

  lemma UnreadReads(z: Scene, r: Round, w: World, a: RuntimeObject)
    requires InHeap(r.builders, w.heap) && CONFIG_MAP in r.env.served && NAMESPACE_GVK in r.env.served && Apart(z)
    requires Unread(z, r, w, a)
    ensures NamespaceRead(r, w) == Err(NotFound) && Fatal(InventoryRead(r, w))
  {
    NamespaceIsMissing(z, r.env, w.server, [z.was, z.left], 0);
  }

  lemma FatalAppends(r: Round, w: World)
    requires InHeap(r.builders, w.heap) && NamespaceRead(r, w) == Err(NotFound) && Fatal(InventoryRead(r, w))
    ensures var (w1, all, ending) := RoundAppend(r, w);
      && ending == Completed && all == r.builders && w1.book.toDelete == w.book.toDelete && w1.heap == w.heap
      && w1.server == w.server.(calls := w.server.calls + 2)
  {
    SwallowedIff(r, w);
  }

  lemma UnreadApplies(z: Scene, r: Round, w: World, a: RuntimeObject, p: Progress)
    requires InHeap(r.builders, w.heap) && CONFIG_MAP in r.env.served && PlainConfig(z) && Apart(z) && Annotated(z)
    requires Serves(z, r.env)
    requires a in p.heap && p.heap[a] == z.want && p.server.live == Widgets(z, [z.was, z.left], 0)
    requires r.cfg == z.cfg && r.env.answers(p.server.calls).refusal.None?
    requires p == RoundStart(StartWorld(r, w)) && FinalBuilders(r, w) == [Builds(a, Static(StatePresent))]
    ensures AppliedIn(r, w).combined == NOTHING && AppliedIn(r, w).server.live == Widgets(z, [z.was, z.left], 0)
  {
    VisitsWidget(z, r.env, p, a, [z.was, z.left], 0);
    OneInTurn(r.env, r.cfg, p, a);
    AppliedIs(r, w, p, [Builds(a, Static(StatePresent))]);
  }

  lemma UnreadNames(r: Round, w: World, a: RuntimeObject, want: Obj, k: Key)
    requires InHeap(r.builders, w.heap) && FinalBuilders(r, w) == [Builds(a, Static(StatePresent))]
    requires a in StartWorld(r, w).heap && StartWorld(r, w).heap[a] == want && want.Id() != k
    ensures !Named(FinalBuilders(r, w), StartWorld(r, w).heap, k)
  {
  }

  lemma UnreadRuns(z: Scene, r: Round, w: World, a: RuntimeObject)
    requires InHeap(r.builders, w.heap) && CONFIG_MAP in r.env.served && NAMESPACE_GVK in r.env.served
    requires r.box !in w.heap
    requires PlainConfig(z) && Unforced(z) && Apart(z) && Annotated(z) && Serves(z, r.env) && Unread(z, r, w, a)
    ensures IsRound(r, w, EndOf(r, w)) && EndOf(r, w).combined.errors == []
    ensures EndOf(r, w).server.live == Widgets(z, [z.was, z.left], 0)
  {
    UnreadAppends(z, r, w, a);
    FinalIsOne(z, r, w, a);
    UnreadApplies(z, r, w, a, RoundStart(StartWorld(r, w)));
    EndsAtOnce(r, w, AppliedIn(r, w));
  }

  lemma UnreadNamesOne(z: Scene, r: Round, w: World, a: RuntimeObject)
    requires InHeap(r.builders, w.heap) && CONFIG_MAP in r.env.served && NAMESPACE_GVK in r.env.served
    requires Unforced(z) && Apart(z) && Unread(z, r, w, a)
    ensures !Named(FinalBuilders(r, w), StartWorld(r, w).heap, z.left.Id())
  {
    UnreadAppends(z, r, w, a);
    FinalIsOne(z, r, w, a);
    UnreadNames(r, w, a, z.want, z.left.Id());
  }

  /** The round reports no error, and yet leaves a recorded object of the component alive that no builder names. */
  lemma SwallowedErrorLeaks(z: Scene, r: Round, w: World, a: RuntimeObject)
    requires InHeap(r.builders, w.heap) && CONFIG_MAP in r.env.served && NAMESPACE_GVK in r.env.served
    requires r.box !in w.heap
    requires PlainConfig(z) && Unforced(z) && Apart(z) && Bumped(z) && CleanRefs(z) && Annotated(z) && Serves(z, r.env)
    requires Unread(z, r, w, a)
    ensures IsRound(r, w, EndOf(r, w)) && EndOf(r, w).combined.errors == []
    ensures Recorded(w.server, Inv(z)) == Some([z.was, z.left]) && Owned(EndOf(r, w).server, z.cfg.id, z.left.Id())
    ensures !Named(FinalBuilders(r, w), StartWorld(r, w).heap, z.left.Id())
  {
    InventoryReads(z, w.server, [z.was, z.left], 0);
    UnreadRuns(z, r, w, a);
    UnreadNamesOne(z, r, w, a);
    LeftIsOwned(z, EndOf(r, w).server, [z.was, z.left], 0);
  }

  lemma FinalIsOne(z: Scene, r: Round, w: World, a: RuntimeObject)
    requires Unforced(z) && InHeap(r.builders, w.heap) && r.builders == [Builds(a, Static(StatePresent))]
    requires r.overrides == z.overrides
    requires RoundAppend(r, w).1 == r.builders
    ensures FinalBuilders(r, w) == [Builds(a, Static(StatePresent))]
  {
  }

  lemma OneInTurn(env: Env, cfg: Config, p: Progress, a: RuntimeObject)
    requires a in p.heap
    ensures InHeap([Builds(a, Static(StatePresent))], p.heap)
    ensures ApplyAll(env, cfg, p, [Builds(a, Static(StatePresent))]) == Visit(env, cfg, p, a, Static(StatePresent))
  {
    assert [Builds(a, Static(StatePresent))][..0] == [];
  }

  // ----- an ignored mark -----

  /** A run of one builder and no purge types. */
  lemma OneBuilderRuns(env: Env, cfg: Config, p: Progress, b: Builder)
    requires InHeap([b], p.heap) && (b.Builds? ==> b.target in p.heap)
    ensures IsRun(env, cfg, p, [b], [], [], Step(env, cfg, p, b))
  {
    assert [b][..0] == [];
    assert ApplyAll(env, cfg, p, [b]) == Step(env, cfg, p, b);
    assert Listing(env, cfg.mapper, Step(env, cfg, p, b).server.calls, []).1 == [];
  }

  /** A live object that is marked create-only, but handed out under an override, is updated by a run. */
  lemma MarkedIsUpdatedByRun(env: Env, cfg: Config, p: Progress, o: RuntimeObject, ds: DesiredState)
    requires o in p.heap && ds == Stacked(Static(StatePresent), Static(StatePresent))
    requires Prepare(cfg, p.heap[o]).error.None?
    requires DESIRED_STATE_CREATED in Desired(cfg, p.heap[o]).content.annotations
    requires Alive(p.server, p.heap[o].Id()) && env.answers(p.server.calls).refusal.None? && p.heap[o].gvk in env.served
    requires p.server.live[p.heap[o].Id()].content.body != Desired(cfg, p.heap[o]).content.body
    ensures InHeap([Builds(o, ds)], p.heap)
    ensures var q := Visit(env, cfg, p, o, ds);
      IsRun(env, cfg, p, [Builds(o, ds)], [], [], q) && Follows(p.server, q.server)
          && Updated(p.heap[o].Id()) in Added(p.server, q.server)
  {
    OneBuilderRuns(env, cfg, p, Builds(o, ds));
    StatesThatIgnoreTheMark(ds, (d: Obj) => None);
    MarkedIsUpdatedIff(env, cfg, p, o, ds);
  }

  // ----- such rounds exist -----

  /** A round of the scene with the given environment and server. */
  lemma SetRound(z: Scene, env: Env, a: RuntimeObject, box: RuntimeObject, types: seq<GVK>, plan: seq<Obj>, s: Server,
                 refs: seq<Ref>, rv: nat)
    returns (r: Round, w: World)
    requires a != box && Serves(z, env) && s.live == Widgets(z, refs, rv)
    requires AnswersUntil(env, s.calls, s.calls + 2 + |refs|)
    requires forall x :: x in refs ==> InventoryText.Clean(x) && x.ns != "" && InNamespaces(z.sc, x.gvk)
    ensures InHeap(r.builders, w.heap) && CONFIG_MAP in r.env.served && Setting(z, r, w, refs, rv, a)
    ensures r.env == env && r.types == types && r.plan == plan && w.server == s && r.box == box && w.book.toDelete == []
  {
    r := Round(env, z.sc, z.cfg, z.ns, z.release, [Builds(a, Static(StatePresent))], z.overrides, box, types, plan);
    w := World(s, Scopes(map[], map[], 0), map[a := z.want], Book([], [], []));
  }

  lemma RefusesOnly(z: Scene, call: Option<nat>)
    ensures Serves(z, Refusing(z, call)) && CONFIG_MAP in Refusing(z, call).served
    ensures forall n: nat :: Refusing(z, call).answers(n).refusal.Some? <==> call == Some(n)
    ensures forall n: nat :: !Refusing(z, call).answers(n).effective && !Refusing(z, call).answers(n).lingers
  {
  }

  lemma RecordedRefs(z: Scene)
    requires CleanRefs(z) && Apart(z) && Namespaced(z)
    ensures forall x :: x in [z.was, z.left] ==> InventoryText.Clean(x) && x.ns != "" && InNamespaces(z.sc, x.gvk)
    ensures forall x :: x in [RefOf(z.want)] ==> InventoryText.Clean(x) && x.ns != "" && InNamespaces(z.sc, x.gvk)
  {
  }

  /** The first round, with or without its last call refused. */
  lemma FirstRound(z: Scene, a: RuntimeObject, box: RuntimeObject, refused: Option<nat>) returns (r: Round, w: World)
    requires CleanRefs(z) && Apart(z) && Namespaced(z) && a != box && (refused.Some? ==> refused.value >= 8)
    ensures InHeap(r.builders, w.heap) && CONFIG_MAP in r.env.served && Setting(z, r, w, [z.was, z.left], 0, a)
    ensures r.types == [z.was.gvk] && r.plan == [LeftWidget(z)] && w.server.calls == 0 && AnswersUntil(r.env, 0, 8)
    ensures r.box == box
    ensures r.env.answers(8).refusal.Some? <==> refused == Some(8)
    ensures !r.env.answers(8).effective && !r.env.answers(8).lingers
  {
    RefusesOnly(z, refused);
    RecordedRefs(z);
    r, w := SetRound(z, Refusing(z, refused), a, box, [z.was.gvk], [LeftWidget(z)],
                     Server(Widgets(z, [z.was, z.left], 0), 0, []), [z.was, z.left], 0);
  }

  /** A good round with all that the lemma about version bumps asks for. */
  lemma GoodRoundExists(z: Scene, a: RuntimeObject, box: RuntimeObject) returns (r: Round, w: World)
    requires Fits(z) && a != box
    ensures InHeap(r.builders, w.heap) && GoodRound(r, w, EndOf(r, w), [], (g: GVK) => false)
    ensures Accounted(w.server, z.cfg.id, Inv(z), (g: GVK) => false)
    ensures z.left.Id() in w.server.live && z.left.Id() !in EndOf(r, w).server.live
    ensures Recorded(w.server, InvKey(r)) == Some([z.was, z.left]) && Wanted(r, w) == [RefOf(z.want)]
    ensures StatesGiven(r.builders)
    ensures z.was.Id() == RefOf(z.want).Id() && Stale(w.server, (g: GVK) => false, [RefOf(z.want)], z.was)
  {
    r, w := FirstRound(z, a, box, None);
    var now := [RefOf(z.want)];
    GoodRoundsBump(z, r, w, a, now);
    BumpIsSeen(z, r, w, a);
    StateIsGiven(z, r, w, a);
    WasIsStale(z, w.server);
  }

  lemma BumpIsSeen(z: Scene, r: Round, w: World, a: RuntimeObject)
    requires InHeap(r.builders, w.heap) && CONFIG_MAP in r.env.served
    requires Fits(z) && Setting(z, r, w, [z.was, z.left], 0, a)
    ensures CollectDesired(r.builders).Some?
    ensures Recorded(w.server, InvKey(r)) == Some([z.was, z.left]) && Wanted(r, w) == [RefOf(z.want)]
  {
    RoundFactsOf(z, r, w, [z.was, z.left], 0, a);
  }

  lemma StateIsGiven(z: Scene, r: Round, w: World, a: RuntimeObject)
    requires Setting(z, r, w, [z.was, z.left], 0, a)
    ensures StatesGiven(r.builders) && w.server.live == Widgets(z, [z.was, z.left], 0)
  {
  }

  lemma WasIsStale(z: Scene, s: Server)
    requires Apart(z) && Bumped(z) && s.live == Widgets(z, [z.was, z.left], 0)
    ensures Stale(s, (g: GVK) => false, [RefOf(z.want)], z.was)
  {
  }

  /** A round that wants nothing and has nothing recorded. */
  lemma IdleRound(r: Round, w: World)
    requires r.builders == [] && r.types == [] && r.plan == [] && r.box !in w.heap && InvKey(r) !in w.server.live
    requires CONFIG_MAP in r.env.served && NAMESPACE_GVK in r.env.served
    requires r.env.answers(w.server.calls).refusal.None? && r.env.answers(w.server.calls + 1).refusal.None?
    ensures IsRound(r, w, EndOf(r, w)) && FinalBuilders(r, w) == []
  {
    IdleAppends(r, w);
    assert AppliedIn(r, w) == RoundStart(StartWorld(r, w));
    IsARound(r, w);
  }

  lemma IdleAppends(r: Round, w: World)
    requires r.builders == [] && InvKey(r) !in w.server.live
    requires CONFIG_MAP in r.env.served && NAMESPACE_GVK in r.env.served
    requires r.env.answers(w.server.calls).refusal.None? && r.env.answers(w.server.calls + 1).refusal.None?
    ensures var (w1, all, ending) := RoundAppend(r, w); ending == Completed && all == [] && w1.book.toDelete == []
  {
    ParseUndoesPrint([]);
    var w2 := InventoryPrepared(r, w).0;
    assert w2.book.current == [] && w2.book.desired == [];
    assert InventoryPrepared(r, w).1 == Draft(InventoryObject(r.ns, InvKey(r).name, []));
  }

  /** Rounds of two components in turn: a good one, and then one of another release, whose component ID differs. */
  lemma InterleavingExists(z: Scene, a: RuntimeObject, box: RuntimeObject, id: string, release: string)
    returns (history: seq<Finished>)
    requires Fits(z) && a != box && id != z.cfg.id && release != z.release
    ensures |history| == 2 && Interleaved(history, z.cfg.id, Inv(z), (g: GVK) => false)
    ensures history[0].round.cfg.id == z.cfg.id && history[1].round.cfg.id == id
    ensures Accounted(history[0].before.server, z.cfg.id, Inv(z), (g: GVK) => false)
  {
    var r1, w1 := FirstRound(z, a, box, None);
    GoodRoundLeaves(z, r1, w1, a, [RefOf(z.want)]);
    var r2, w2 := OtherIdles(z, box, id, release, EndOf(r1, w1).server, [RefOf(z.want)]);
    history := PairInterleaves(r1, w1, r2, w2, z.cfg.id, Inv(z), (g: GVK) => false);
  }

  lemma GoodRoundLeaves(z: Scene, r: Round, w: World, a: RuntimeObject, now: seq<Ref>)
    requires InHeap(r.builders, w.heap) && CONFIG_MAP in r.env.served
    requires Fits(z)
    requires Setting(z, r, w, [z.was, z.left], 0, a) && now == [RefOf(z.want)]
    requires r.types == [z.was.gvk] && r.plan == [LeftWidget(z)] && w.server.calls == 0 && AnswersUntil(r.env, 0, 8)
    requires r.env.answers(8).refusal.None? && !r.env.answers(8).effective && !r.env.answers(8).lingers
    ensures GoodRound(r, w, EndOf(r, w), [], (g: GVK) => false)
    ensures Accounted(w.server, z.cfg.id, Inv(z), (g: GVK) => false)
    ensures EndOf(r, w).server.live == Widgets(z, now, 7) - {z.left.Id()}
    ensures r.cfg.id == z.cfg.id && InvKey(r) == Inv(z)
  {
    BumpingRound(z, r, w, a, now);
    GoodRoundsBump(z, r, w, a, now);
  }

  lemma PairInterleaves(r1: Round, w1: World, r2: Round, w2: World, id: string, inventory: Key, scope: GVK -> bool)
    returns (history: seq<Finished>)
    requires InHeap(r1.builders, w1.heap) && GoodRound(r1, w1, EndOf(r1, w1), [], scope)
    requires InHeap(r2.builders, w2.heap) && IsOtherRound(r2, w2, EndOf(r2, w2), id, inventory)
    requires r1.cfg.id == id && InvKey(r1) == inventory && w2.server == EndOf(r1, w1).server
    ensures history == [Finished(r1, w1, EndOf(r1, w1), []), Finished(r2, w2, EndOf(r2, w2), [])]
    ensures Interleaved(history, id, inventory, scope)
  {
    history := [Finished(r1, w1, EndOf(r1, w1), []), Finished(r2, w2, EndOf(r2, w2), [])];
    assert Either(history[0], id, inventory, scope);
    assert Either(history[1], id, inventory, scope);
    Pair(history, id, inventory, scope);
  }

  lemma Pair(history: seq<Finished>, id: string, inventory: Key, scope: GVK -> bool)
    requires |history| == 2 && forall h :: h == history[0] || h == history[1] ==> Either(h, id, inventory, scope)
    requires history[1].before.server == history[0].end.server
    ensures Interleaved(history, id, inventory, scope)
  {
  }

  lemma OtherIdles(z: Scene, box: RuntimeObject, id: string, release: string, s: Server, refs: seq<Ref>)
    returns (r: Round, w: World)
    requires Apart(z) && PlainConfig(z) && id != z.cfg.id && release != z.release
    requires s.live == Widgets(z, refs, 7) - {z.left.Id()}
    ensures InHeap(r.builders, w.heap) && IsOtherRound(r, w, EndOf(r, w), z.cfg.id, Inv(z))
    ensures w.server == s && r.cfg.id == id
  {
    RefusesOnly(z, None);
    r := Round(Refusing(z, None), z.sc, z.cfg.(id := id), z.ns, release, [], z.overrides, box, [], []);
    w := World(s, Scopes(map[], map[], 0), map[], Book([], [], []));
    if InvKey(r) == Inv(z) {
      InventoriesSeparate(z.cfg.owner, z.cfg.owner, z.ns, release, z.release);
    }
    assert InvKey(r).gk == Inv(z).gk;
    IdleRound(r, w);
    StockIsMarked(z, s, refs);
  }

  lemma StockIsMarked(z: Scene, s: Server, refs: seq<Ref>)
    requires Apart(z) && s.live == Widgets(z, refs, 7) - {z.left.Id()}
    ensures Bears(s, Inv(z), z.cfg.id)
  {
  }

  /** A round that swallows an error. */
  lemma SwallowingRoundExists(z: Scene, a: RuntimeObject, box: RuntimeObject) returns (r: Round, w: World)
    requires Fits(z) && a != box
    ensures InHeap(r.builders, w.heap) && IsRound(r, w, EndOf(r, w)) && EndOf(r, w).combined.errors == []
    ensures Recorded(w.server, Inv(z)) == Some([z.was, z.left]) && Owned(EndOf(r, w).server, z.cfg.id, z.left.Id())
    ensures !Named(FinalBuilders(r, w), StartWorld(r, w).heap, z.left.Id())
  {
    r, w := SetUnread(z, a, box);
    SwallowedErrorLeaks(z, r, w, a);
  }

  lemma SetUnread(z: Scene, a: RuntimeObject, box: RuntimeObject) returns (r: Round, w: World)
    requires a != box
    ensures InHeap(r.builders, w.heap) && CONFIG_MAP in r.env.served && NAMESPACE_GVK in r.env.served
    ensures r.box !in w.heap
    ensures Serves(z, r.env) && Unread(z, r, w, a)
  {
    var env := Refusing(z, Some(1));
    RefusesOnly(z, Some(1));
    r := Round(env, z.sc, z.cfg, z.ns, z.release, [Builds(a, Static(StatePresent))], z.overrides, box, [], []);
    w := World(Server(Widgets(z, [z.was, z.left], 0), 0, []), Scopes(map[], map[], 0), map[a := z.want],
               Book([], [], []));
  }

  /** And two rounds, one after the other, that lose an object. */
  lemma ForgettingRoundsExist(z: Scene, a: RuntimeObject, box: RuntimeObject)
    returns (r1: Round, w1: World, r2: Round, w2: World)
    requires Fits(z) && a != box
    ensures InHeap(r1.builders, w1.heap) && IsRound(r1, w1, EndOf(r1, w1)) && EndOf(r1, w1).combined.errors != []
    ensures w2.server == EndOf(r1, w1).server
    ensures InHeap(r2.builders, w2.heap) && GoodRound(r2, w2, EndOf(r2, w2), [], (g: GVK) => false)
    ensures Owned(EndOf(r2, w2).server, z.cfg.id, z.left.Id()) && !Listed(Wanted(r2, w2), z.left.Id())
  {
    var now := [RefOf(z.want)];
    r1, w1 := FirstRound(z, a, box, Some(8));
    r2, w2 := SecondRound(z, r1, w1, a, box, now);
    ForgottenSurvives(z, r1, w1, r2, w2, a, now);
  }

  lemma SecondRound(z: Scene, r1: Round, w1: World, a: RuntimeObject, box: RuntimeObject, now: seq<Ref>)
    returns (r: Round, w: World)
    requires InHeap(r1.builders, w1.heap) && CONFIG_MAP in r1.env.served && a != box
    requires Fits(z)
    requires Setting(z, r1, w1, [z.was, z.left], 0, a) && now == [RefOf(z.want)]
    requires r1.types == [z.was.gvk] && r1.plan == [LeftWidget(z)] && w1.server.calls == 0 && AnswersUntil(r1.env, 0, 8)
    requires r1.env.answers(8).refusal.Some? && !r1.env.answers(8).effective && !r1.env.answers(8).lingers
    ensures InHeap(r.builders, w.heap) && CONFIG_MAP in r.env.served && Setting(z, r, w, now, 7, a)
    ensures w.server == EndOf(r1, w1).server && r.types == [] && r.plan == []
    ensures AnswersUntil(r.env, w.server.calls, w.server.calls + 2 + |now| + 3)
  {
    BumpingRound(z, r1, w1, a, now);
    r, w := QuietSetting(z, a, box, EndOf(r1, w1).server, now, 7);
  }

  lemma QuietSetting(z: Scene, a: RuntimeObject, box: RuntimeObject, s: Server, now: seq<Ref>, rv: nat)
    returns (r: Round, w: World)
    requires CleanRefs(z) && Apart(z) && Namespaced(z) && a != box && now == [RefOf(z.want)]
    requires s.live == Widgets(z, now, rv)
    ensures InHeap(r.builders, w.heap) && CONFIG_MAP in r.env.served && Setting(z, r, w, now, rv, a)
    ensures w.server == s && r.types == [] && r.plan == []
    ensures AnswersUntil(r.env, w.server.calls, w.server.calls + 2 + |now| + 3)
  {
    RefusesOnly(z, None);
    RecordedRefs(z);
    r, w := SetRound(z, Refusing(z, None), a, box, [], [], s, now, rv);
  }

  // ----- the scene exists -----

  const EXAMPLE: Scene := Scene(
    Ref(GVK("g", "v1", "W"), "n", "a"),
    Obj(GVK("g", "v2", "W"), "n", "a",
        Content(map[], map[MANAGED_COMPONENT := "id", RELATED_TO := RelatedTo(EXAMPLE_OWNER)], "", OtherBody("")), 0),
    Ref(GVK("g", "v1", "W"), "n", "b"),
    Config("id", EXAMPLE_OWNER, false, [],
           Options(false, 0, None, None, (gvk: GVK, status: ApiStatus) => false, false, false), None),
    Scoping(Some({}), (n: nat) => None), "n", "r", (gvk: GVK, ns: string, name: string) => None)

  const EXAMPLE_OWNER := Owner(GVK("g", "v1", "K"), "n", "o", "u", false)

  lemma ExampleIsPlain()
    ensures PlainConfig(EXAMPLE) && Unforced(EXAMPLE) && Namespaced(EXAMPLE) && Annotated(EXAMPLE)
  {
  }

  lemma ExampleIsApart()
    ensures Apart(EXAMPLE) && Bumped(EXAMPLE)
  {
    var was, left := EXAMPLE.was, EXAMPLE.left;
    assert was.name != left.name && was.gvk.group != CONFIG_MAP.group;
    assert RefOf(EXAMPLE.want).gvk.version != was.gvk.version;
  }

  lemma ExampleIDsAreApart()
    ensures IDsApart(EXAMPLE)
  {
    ExampleIsApart();
    ExampleHasNoDashes();
    KindsDiffer(Inv(EXAMPLE), EXAMPLE.was.Id());
    KindsDiffer(Inv(EXAMPLE), EXAMPLE.left.Id());
    IDsSeparate(EXAMPLE.was.Id(), EXAMPLE.left.Id());
    IDsSeparate(Inv(EXAMPLE), EXAMPLE.left.Id());
    IDsSeparate(Inv(EXAMPLE), EXAMPLE.was.Id());
  }

  lemma ExampleHasNoDashes()
    ensures DashFree(EXAMPLE.was.Id()) && DashFree(EXAMPLE.left.Id()) && DashFree(Inv(EXAMPLE))
  {
  }

  lemma KindsDiffer(k: Key, l: Key)
    requires k.gk.ToString() != "" && l.gk.ToString() != ""
    requires LowerChar(k.gk.ToString()[0]) != LowerChar(l.gk.ToString()[0])
    ensures !SameLowerKind(k, l)
  {
    assert Lower(k.gk.ToString())[0] != Lower(l.gk.ToString())[0];
  }

  lemma IDsSeparate(k: Key, l: Key)
    requires DashFree(k) && DashFree(l) && k.ns != "" && l.ns != "" && k.name != ""
    requires k.name != l.name || !SameLowerKind(k, l)
    ensures KeyID(k) != KeyID(l)
  {
    if KeyID(k) == KeyID(l) {
      ResourceIDsSeparate(k, l);
    }
  }

  lemma ExampleFits()
    ensures Fits(EXAMPLE)
  {
    ExampleIsPlain();
    ExampleIsApart();
    ExampleIDsAreApart();
    ExampleIsClean();
    FitsIf(EXAMPLE);
  }

  lemma ExampleIsClean()
    ensures CleanRefs(EXAMPLE)
  {
  }

  lemma FitsIf(z: Scene)
    requires PlainConfig(z) && Unforced(z) && Namespaced(z) && Apart(z) && Bumped(z) && IDsApart(z) && CleanRefs(z)
    requires Annotated(z)
    ensures Fits(z)
  {
  }
}
