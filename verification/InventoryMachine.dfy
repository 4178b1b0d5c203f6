/** Inventory management around a run, as functions: what the last round recorded, what this round wants, and
    which types must be purged for the difference. */
module InventoryMachine {
  import opened Objects
  import opened Cluster
  import opened DesiredStates
  import opened Scope
  import opened InventoryText
  import opened NativeMachine
  import Results

  const REFERENCES_KEY := "refs"
  const CONFIG_MAP := GVK("", "v1", "ConfigMap")
  const NAMESPACE_GVK := GVK("", "v1", "Namespace")

  /** How scopes are found out: by a fixed table, or by discovery. */
  datatype Scoping = Scoping(table: Option<set<string>>, discovery: Discovery)

  /** InventoryData. The desired objects are the builders' own objects. */
  datatype Book = Book(current: seq<Ref>, desired: seq<RuntimeObject>, toDelete: seq<Ref>)

  datatype World = World(server: Server, scopes: Scopes, heap: Heap, book: Book)

  function Sanitize(sc: Scoping, s: Scopes, o: Obj): (Scopes, Obj) {
    var (s', answer) := Lookup(sc.table, sc.discovery, s, o.gvk);
    (s', if answer == Scoped(true) && o.ns != "" then o.(ns := "") else o)
  }

  function EnsureNamespace(sc: Scoping, namespace: string, s: Scopes, o: Obj): (Scopes, Obj) {
    var (s', answer) := Lookup(sc.table, sc.discovery, s, o.gvk);
    (s', if answer == Scoped(false) && o.ns == "" then o.(ns := namespace) else o)
  }

  function Sanitizer(sc: Scoping): (Scopes, Obj) -> (Scopes, Obj) {
    (s: Scopes, o: Obj) => Sanitize(sc, s, o)
  }

  function NamespaceEnsurer(sc: Scoping, namespace: string): (Scopes, Obj) -> (Scopes, Obj) {
    (s: Scopes, o: Obj) => EnsureNamespace(sc, namespace, s, o)
  }

  predicate Held(objects: seq<RuntimeObject>, heap: Heap) {
    forall i :: 0 <= i < |objects| ==> objects[i] in heap
  }

  /** One pass over a list of objects, changing each in place. An object may occur more than once. */
  function Pass(step: (Scopes, Obj) -> (Scopes, Obj), s: Scopes, heap: Heap,
                objects: seq<RuntimeObject>): (r: (Scopes, Heap))
    requires Held(objects, heap)
    ensures r.1.Keys == heap.Keys
  {
    if objects == [] then (s, heap)
    else
      var (s1, h1) := Pass(step, s, heap, objects[..|objects| - 1]);
      var o := objects[|objects| - 1];
      var (s2, v) := step(s1, h1[o]);
      (s2, h1[o := v])
  }

  lemma PassNext(step: (Scopes, Obj) -> (Scopes, Obj), s: Scopes, heap: Heap, objects: seq<RuntimeObject>, i: nat)
    requires i < |objects| && Held(objects, heap)
    ensures var (s1, h1) := Pass(step, s, heap, objects[..i]); var (s2, v) := step(s1, h1[objects[i]]);
      Pass(step, s, heap, objects[..i + 1]) == (s2, h1[objects[i] := v])
  {
    assert objects[..i + 1][..i] == objects[..i];
  }

  /** sanitizeDesiredObjects, then ensureNamespace. */
  function Normalize(sc: Scoping, namespace: string, s: Scopes, heap: Heap,
                     objects: seq<RuntimeObject>): (r: (Scopes, Heap))
    requires Held(objects, heap)
    ensures r.1.Keys == heap.Keys
  {
    var (s1, h1) := Pass(Sanitizer(sc), s, heap, objects);
    Pass(NamespaceEnsurer(sc, namespace), s1, h1, objects)
  }

  predicate BuildsThis(b: Builder, o: RuntimeObject) {
    b.Builds? && b.target == o
  }

  ghost predicate BuiltBySome(builders: seq<Builder>, o: RuntimeObject) {
    exists j :: 0 <= j < |builders| && BuildsThis(builders[j], o)
  }

  /** Each object is some builder's. */
  ghost predicate AllBuilt(builders: seq<Builder>, objects: seq<RuntimeObject>) {
    forall i :: 0 <= i < |objects| ==> BuiltBySome(builders, objects[i])
  }

  lemma StillBuilt(init: seq<Builder>, last: Builder, objects: seq<RuntimeObject>)
    requires AllBuilt(init, objects)
    ensures AllBuilt(init + [last], objects)
    ensures last.Builds? ==> AllBuilt(init + [last], objects + [last.target])
  {
    var all := init + [last];
    forall i | 0 <= i < |objects| ensures BuiltBySome(all, objects[i]) {
      var j :| 0 <= j < |init| && BuildsThis(init[j], objects[i]);
      assert BuildsThis(all[j], objects[i]);
    }
    if last.Builds? {
      assert BuildsThis(all[|init|], last.target);
    }
  }

  /** What the builders yield: their objects but the statically absent ones, up to the first nil object, and
      whether there was one. */
  datatype Yield = Yield(objects: seq<RuntimeObject>, nilled: bool)

  /** Collecting goes through all builders; `None` if one fails. */
  function Gather(builders: seq<Builder>): (r: Option<Yield>)
    ensures r.Some? ==> AllBuilt(builders, r.value.objects)
  {
    if builders == [] then Some(Yield([], false))
    else
      var init := Gather(builders[..|builders| - 1]);
      if init.None? then None
      else
        assert AllBuilt(builders, init.value.objects) by {
          StillBuilt(builders[..|builders| - 1], builders[|builders| - 1], init.value.objects);
          assert builders[..|builders| - 1] + [builders[|builders| - 1]] == builders;
        }
        match builders[|builders| - 1]
        case Fails => None
        case Nothing(ds) => Some(if IsAbsent(ds) then init.value else init.value.(nilled := true))
        case Builds(o, ds) =>
          assert AllBuilt(builders, init.value.objects + [o]) by {
            StillBuilt(builders[..|builders| - 1], builders[|builders| - 1], init.value.objects);
            assert builders[..|builders| - 1] + [builders[|builders| - 1]] == builders;
          }
          Some(if IsAbsent(ds) || init.value.nilled then init.value
              else init.value.(objects := init.value.objects + [o]))
  }

  /** The objects wanted; `None` if a builder fails or returns a nil object. */
  function CollectDesired(builders: seq<Builder>): (r: Option<seq<RuntimeObject>>)
    ensures r.Some? ==> AllBuilt(builders, r.value)
  {
    var all := Gather(builders);
    if all.Some? && !all.value.nilled then Some(all.value.objects) else None
  }

  function RefsOf(objects: seq<RuntimeObject>, heap: Heap): (refs: seq<Ref>)
    requires Held(objects, heap)
    ensures |refs| == |objects| && forall i :: 0 <= i < |objects| ==> refs[i] == RefOf(heap[objects[i]])
  {
    seq(|objects|, i requires 0 <= i < |objects| => RefOf(heap[objects[i]]))
  }

  function InventoryName(parent: Owner, ns: string, component: string): string {
    parent.name + "-" + ns + "-" + component + "-object-inventory"
  }

  function InventoryKey(parent: Owner, ns: string, component: string): Key {
    Key(CONFIG_MAP.Gk(), ns, InventoryName(parent, ns, component))
  }

  function InventoryObject(ns: string, name: string, refs: seq<Ref>): Obj {
    Obj(CONFIG_MAP, ns, name, Content(map[], map[], "", ConfigMapBody(map[REFERENCES_KEY := PrintAll(refs)])), 0)
  }

  /** The reference text of a stored inventory; a missing one reads as empty. */
  function ReferenceText(c: Content): string {
    if c.body.ConfigMapBody? && REFERENCES_KEY in c.body.data then c.body.data[REFERENCES_KEY] else ""
  }

  /** How a step ends: normally, with an error that is returned, or with a panic that nothing recovers. */
  datatype Ending = Completed | Failed | Panicked

  /** The new inventory object, an error, or a panic. */
  datatype Draft = Draft(value: Obj) | NoDraft | Panic

  /** The first half of PrepareDesiredObjects: what the last round recorded. A malformed record is a panic. */
  function ReadCurrent(env: Env, w: World, key: Key): (r: (World, Ending))
    ensures r.0.heap == w.heap
  {
    var (s1, got) := GetCall(env, w.server, CONFIG_MAP, key);
    var w1 := w.(server := s1);
    if got.Err? && got.error != NoMatch && got.error != NotFound then (w1, Failed)
    else
      var current := Parse(if got.Ok? then ReferenceText(got.value.content) else "");
      if current.None? then (w1, Panicked) else (w1.(book := w1.book.(current := current.value)), Completed)
  }

  /** The second half: collect, normalise and record what is desired. A nil object gets as far as the first pass,
      where its missing metadata is a panic. */
  function RecordDesired(sc: Scoping, w: World, ns: string, name: string, builders: seq<Builder>): (r: (World, Draft))
    requires InHeap(builders, w.heap)
    ensures r.0.heap.Keys == w.heap.Keys
    ensures r.1.Draft? ==> Held(r.0.book.desired, r.0.heap)
  {
    var all := Gather(builders);
    if all.None? then (w, NoDraft)
    else if all.value.nilled then
      var (scopes, heap) := Pass(Sanitizer(sc), w.scopes, w.heap, all.value.objects);
      (w.(scopes := scopes, heap := heap), Panic)
    else
      var desired := all.value.objects;
      var (scopes, heap) := Normalize(sc, ns, w.scopes, w.heap, desired);
      (w.(scopes := scopes, heap := heap, book := w.book.(desired := desired)),
       Draft(InventoryObject(ns, name, RefsOf(desired, heap))))
  }

  /** PrepareDesiredObjects. */
  function PrepareDesired(env: Env, sc: Scoping, w: World, ns: string, component: string, parent: Owner,
                          builders: seq<Builder>): (r: (World, Draft))
    requires InHeap(builders, w.heap)
    ensures r.0.heap.Keys == w.heap.Keys
    ensures r.1.Draft? ==> Held(r.0.book.desired, r.0.heap)
  {
    var (w1, ending) := ReadCurrent(env, w, InventoryKey(parent, ns, component));
    match ending
    case Completed => RecordDesired(sc, w1, ns, InventoryName(parent, ns, component), builders)
    case Failed => (w1, NoDraft)
    case Panicked => (w1, Panic)
  }

  /** Kinds that are never purged through the inventory. */
  predicate Untouchable(kind: string) {
    kind == CUSTOM_RESOURCE_DEFINITION || kind == NAMESPACE
  }

  datatype Verdict = Spare | Mark | ReadFailed

  /** One recorded reference. One of unknown scope, or namespaced but without a namespace, is not even read. */
  function Judge(env: Env, sc: Scoping, s: Server, scopes: Scopes, desired: seq<Ref>, r: Ref): (Server, Scopes,
                 Verdict) {
    var (scopes1, answer) := Lookup(sc.table, sc.discovery, scopes, r.gvk);
    if !answer.Scoped? || (!answer.cluster && r.ns == "") then (s, scopes1, Spare)
    else
      var (s1, got) := GetCall(env, s, r.gvk, r.Id());
      (s1, scopes1,
       if got.Err? && got.error != NoMatch && got.error != NotFound then ReadFailed
       else if (got.Ok? && got.value.deleting) || Untouchable(r.gvk.kind) || r in desired then Spare
       else Mark)
  }

  /** The recorded references no longer desired, of live or vanished objects; `None` on a failing read. */
  function Deletable(env: Env, sc: Scoping, s: Server, scopes: Scopes, desired: seq<Ref>, current: seq<Ref>): (Server,
                     Scopes, Option<seq<Ref>>) {
    if current == [] then (s, scopes, Some([]))
    else
      var (s1, scopes1, init) := Deletable(env, sc, s, scopes, desired, current[..|current| - 1]);
      var r := current[|current| - 1];
      if init.None? then (s1, scopes1, None)
      else
        var (s2, scopes2, verdict) := Judge(env, sc, s1, scopes1, desired, r);
        match verdict
        case Spare => (s2, scopes2, init)
        case Mark => (s2, scopes2, Some(init.value + [r]))
        case ReadFailed => (s2, scopes2, None)
  }

  function PrepareDeletable(env: Env, sc: Scoping, w: World): (r: (World, bool))
    requires Held(w.book.desired, w.heap)
    ensures r.0.heap == w.heap
  {
    var (s, scopes, found) := Deletable(env, sc, w.server, w.scopes, RefsOf(w.book.desired, w.heap), w.book.current);
    var w1 := w.(server := s, scopes := scopes);
    if found.None? then (w1, false) else (w1.(book := w1.book.(toDelete := found.value)), true)
  }

  /** The types handed to the purge, each once, in any order. */
  ghost predicate IsTypes(toDelete: seq<Ref>, types: seq<GVK>) {
    && (forall g :: g in types <==>
      !Untouchable(g.kind) && exists r :: r in toDelete && r.gvk == g)
    && (forall i, j :: 0 <= i < j < |types| ==> types[i] != types[j])
  }

  /** The builders of the round once the inventory object is there: it is added (in `box`) unless the namespace
      or the owner is going away or there is nothing to record. */
  function AppendInventory(w: World, leaving: bool, inventory: Obj, builders: seq<Builder>,
                           box: RuntimeObject): (r: (World, seq<Builder>))
    requires InHeap(builders, w.heap)
    ensures InHeap(r.1, r.0.heap) && w.heap.Keys <= r.0.heap.Keys
  {
    if leaving || ReferenceText(inventory.content) == "" then (w, builders)
    else (w.(heap := w.heap[box := inventory]), builders + [Builds(box, Static(StatePresent))])
  }

  /** The rest of Append once the new inventory is drafted. */
  function MarkAndAppend(env: Env, sc: Scoping, w: World, leaving: bool, cm: Obj, builders: seq<Builder>,
                         box: RuntimeObject): (r: (World, seq<Builder>, Ending))
    requires InHeap(builders, w.heap) && Held(w.book.desired, w.heap)
    ensures InHeap(r.1, r.0.heap) && w.heap.Keys <= r.0.heap.Keys
  {
    var (w1, ok) := PrepareDeletable(env, sc, w);
    if !ok then (w1, builders, Failed)
    else
      var (w2, all) := AppendInventory(w1, leaving, cm, builders, box);
      (w2, all, Completed)
  }

  /** Append. An error while preparing the inventory is dropped: the builders come back as they are. */
  function Append(env: Env, sc: Scoping, w: World, ns: string, component: string, parent: Owner,
                  builders: seq<Builder>, box: RuntimeObject): (r: (World, seq<Builder>, Ending))
    requires InHeap(builders, w.heap)
    ensures InHeap(r.1, r.0.heap) && w.heap.Keys <= r.0.heap.Keys
  {
    var (s1, namespace) := GetCall(env, w.server, NAMESPACE_GVK, Key(NAMESPACE_GVK.Gk(), "", ns));
    var w1 := w.(server := s1);
    if namespace.Err? && namespace.error != NotFound then (w1, builders, Failed)
    else
      var (w2, inventory) := PrepareDesired(env, sc, w1, ns, component, parent, builders);
      match inventory
      case Panic => (w2, builders, Panicked)
      case NoDraft => (w2, builders, Completed)
      case Draft(cm) => MarkAndAppend(env, sc, w2, (namespace.Ok? && namespace.value.deleting)
          || parent.deleting, cm, builders, box)
  }

  /** Desired-state overrides by exact object or by type. An entry may be nil. */
  type Overrides = (GVK, string, string) -> Option<DesiredState>

  /** The type's entry is looked up first, and replaced by the exact one. */
  function OverrideFor(overrides: Overrides, o: Obj): Option<DesiredState> {
    var byType := overrides(o.gvk, "", "");
    var exact := overrides(o.gvk, o.ns, o.name);
    var found := if exact.Some? then exact else byType;
    if found.Some? && found.value.NoState? then None else found
  }

  /** What the overrides do to the built states, entry by entry: an exact one is what is stacked, without one the
      type's is, and without either, or where the one that counts is nil, the state stays. */
  ghost predicate Overrode(overrides: Overrides, o: Obj, was: DesiredState, now: DesiredState) {
    var exact, byType := overrides(o.gvk, o.ns, o.name), overrides(o.gvk, "", "");
    && (exact.Some? && !exact.value.NoState? ==> now == Stacked(was, exact.value))
    && (exact.None? && byType.Some? && !byType.value.NoState? ==> now == Stacked(was, byType.value))
    && (exact.None? && byType.None? ==> now == was)
    && ((exact.Some? && exact.value.NoState?) || (exact.None? && byType.Some? && byType.value.NoState?) ==> now == was)
  }

  /** setDesiredStateOverrides: an override is stacked on the built state. A builder without an object fails. */
  function WithOverrides(overrides: Overrides, builders: seq<Builder>, heap: Heap): (r: seq<Builder>)
    requires InHeap(builders, heap)
    ensures |r| == |builders| && InHeap(r, heap)
    ensures forall i :: 0 <= i < |r| ==> if builders[i].Builds? then r[i].Builds? else r[i] == Fails
    ensures forall i :: 0 <= i < |r| && r[i].Builds? ==>
      && r[i].target == builders[i].target
      && var override := OverrideFor(overrides, heap[builders[i].target]);
         r[i].state == if override.Some? then Stacked(builders[i].state, override.value) else builders[i].state
  {
    seq(|builders|, i requires 0 <= i < |builders| =>
      match builders[i]
      case Builds(o, ds) =>
        var override := OverrideFor(overrides, heap[o]);
        Builds(o, if override.Some? then Stacked(ds, override.value) else ds)
      case _ => Fails)
  }

  /** The fixed inputs of one round of HelmReconciler.reconcile. */
  datatype Round = Round(env: Env, sc: Scoping, cfg: Config, ns: string, release: string, builders: seq<Builder>,
                         overrides: Overrides, box: RuntimeObject, types: seq<GVK>, plan: seq<Obj>)

  function RoundAppend(r: Round, w: World): (World, seq<Builder>, Ending)
    requires InHeap(r.builders, w.heap)
  {
    Append(r.env, r.sc, w, r.ns, r.release, r.cfg.owner, r.builders, r.box)
  }

  function RoundStart(w: World): Progress {
    Progress(w.server, w.heap, {}, [], [], [], Results.NOTHING)
  }

  /** A whole round from `w`: the inventory prepared, the run made with the types it asks to purge. */
  ghost predicate IsRound(r: Round, w: World, end: Progress) {
    && InHeap(r.builders, w.heap) && r.box !in w.heap
    && var (w1, builders, ending) := RoundAppend(r, w);
      && ending == Completed
      && IsTypes(w1.book.toDelete, r.types)
      && IsRun(r.env, r.cfg, RoundStart(w1), WithOverrides(r.overrides, builders, w1.heap), r.types, r.plan, end)
  }
}
