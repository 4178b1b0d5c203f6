/** A whole reconcile run over many objects as a function: prepare and apply every built object, then purge
    what carries the component ID and was not visited. */
module NativeMachine {
  import opened Objects
  import opened Cluster
  import opened DesiredStates
  import opened ResourceMachine
  import opened Results
  import opened Identity
  import opened Sort

  /** What a ResourceBuilder returns: an error, a nil object, or an object, each of the latter with its desired
      state. */
  datatype Builder = Fails | Nothing(state: DesiredState) | Builds(target: RuntimeObject, state: DesiredState)

  datatype Mapping = NoMapping | MapperFailed | Mappings(gvks: seq<GVK>)

  /** What stays fixed during a run. Modifiers rewrite contents in place, or fail. */
  datatype Config = Config(
    id: string,
    owner: Owner,
    controllerRef: bool,
    modifiers: seq<(Obj, Owner) -> Option<Content>>,
    opts: Options,
    mapper: Option<GVK -> Mapping>)

  /** Everything a run changes: the cluster, the in-memory objects, the IDs excluded from purging, the objects
      reported as present, absent and purged, and the combined result. */
  datatype Progress = Progress(
    server: Server,
    heap: Heap,
    visited: set<string>,
    present: seq<Obj>,
    absent: seq<Obj>,
    purged: seq<Obj>,
    combined: Combined)

  function WithAnnotation(d: Obj, key: string, value: string): Obj {
    d.(content := d.content.(annotations := d.content.annotations[key := value]))
  }

  /** addComponentIDAnnotation: an object of another component is refused. */
  function AddComponentID(d: Obj, id: string): Option<Obj> {
    if MANAGED_COMPONENT in d.content.annotations then
      if d.content.annotations[MANAGED_COMPONENT] == id then Some(d) else None
    else Some(WithAnnotation(d, MANAGED_COMPONENT, id))
  }

  /** NamespacedName.String of the owner. */
  function RelatedTo(owner: Owner): string {
    owner.ns + (['/'] + owner.name)
  }

  /** CRDs and Namespaces never get a controller reference, nor do objects outside a namespaced owner's namespace. */
  predicate Controllable(owner: Owner, d: Obj) {
    && !IsCrd(d.gvk) && d.gvk.Gk() != GroupKind("", NAMESPACE)
    && (owner.ns == "" || owner.ns == d.ns)
  }

  function SetController(owner: Owner, d: Obj): Option<Obj> {
    if d.content.controller == "" || d.content.controller == owner.uid
        then Some(d.(content := d.content.(controller := owner.uid)))
    else None
  }

  datatype Prepared = Prepared(desired: Obj, error: Option<Error>)

  function Modify(modifiers: seq<(Obj, Owner) -> Option<Content>>, owner: Owner, d: Obj): Prepared {
    if modifiers == [] then Prepared(d, None)
    else
      var p := Modify(modifiers[..|modifiers| - 1], owner, d);
      if p.error.Some? then p
      else
        var c := modifiers[|modifiers| - 1](p.desired, owner);
        if c.None? then p.(error := Some(ModifierFailed)) else Prepared(p.desired.(content := c.value), None)
  }

  /** Everything done to a built object before it is applied. */
  function Prepare(cfg: Config, d: Obj): Prepared {
    var annotated := AddComponentID(d, cfg.id);
    if annotated.None? then Prepared(d, Some(ForeignComponent))
    else
      var related := WithAnnotation(annotated.value, RELATED_TO, RelatedTo(cfg.owner));
      if cfg.controllerRef && Controllable(cfg.owner, related) then
        var controlled := SetController(cfg.owner, related);
        if controlled.None? then Prepared(related, Some(ControllerRefRefused))
        else Modify(cfg.modifiers, cfg.owner, controlled.value)
      else Modify(cfg.modifiers, cfg.owner, related)
  }

  /** The create-only annotation overrides Present, static or as the inner state of a dynamic one. */
  function Effective(d: Obj, ds: DesiredState): DesiredState {
    if DESIRED_STATE_CREATED in d.content.annotations && IsPresent(ds) then Static(StateCreated) else ds
  }

  predicate IsPresent(ds: DesiredState) {
    match ds
    case Static(StatePresent) => true
    case Dynamic(Static(StatePresent), _) => true
    case _ => false
  }

  predicate IsAbsent(ds: DesiredState) {
    match ds
    case Static(StateAbsent) => true
    case _ => false
  }

  /** The outcome of one built object: prepared, then applied. */
  function Visit(env: Env, cfg: Config, p: Progress, o: RuntimeObject, ds: DesiredState): (r: Progress)
    requires o in p.heap
    ensures r.heap.Keys == p.heap.Keys
  {
    var prepared := Prepare(cfg, p.heap[o]);
    var q := p.(heap := p.heap[o := prepared.desired]);
    if prepared.error.Some? then q.(combined := WithError(p.combined, prepared.error.value))
    else Apply(env, cfg.opts, q, o, Effective(prepared.desired, ds))
  }

  /** Reconcile one prepared object; on success its ID is excluded from the purge. */
  function Apply(env: Env, opts: Options, p: Progress, o: RuntimeObject, state: DesiredState): (r: Progress)
    requires o in p.heap
    ensures r.heap.Keys == p.heap.Keys
  {
    var out := ReconcileResource(env, opts, p.server, p.heap[o], state);
    var applied := p.(server := out.server, heap := p.heap[o := out.desired]);
    if out.error.Some? then applied.(combined := WithSub(p.combined, Sub(out.result, out.error)))
    else
      var id := KeyID(out.desired.Id());
      if id.None? then applied.(combined := WithError(p.combined, NameMissing))
      else
        applied.(
          visited := p.visited + {id.value},
          present := if IsAbsent(state) then p.present else p.present + [out.desired],
          absent := if IsAbsent(state) then p.absent + [out.desired] else p.absent,
          combined := WithSub(p.combined, Sub(out.result, None)))
  }

  function Step(env: Env, cfg: Config, p: Progress, b: Builder): (r: Progress)
    requires b.Builds? ==> b.target in p.heap
    ensures r.heap.Keys == p.heap.Keys
  {
    match b
    case Fails => p.(combined := WithError(p.combined, BuilderFailed))
    case Nothing(_) => p
    case Builds(o, ds) => if ds.NoState? then p else Visit(env, cfg, p, o, ds)
  }

  predicate InHeap(builders: seq<Builder>, heap: Heap) {
    forall i :: 0 <= i < |builders| && builders[i].Builds? ==> builders[i].target in heap
  }

  function ApplyAll(env: Env, cfg: Config, p: Progress, builders: seq<Builder>): (r: Progress)
    requires InHeap(builders, p.heap)
    ensures r.heap.Keys == p.heap.Keys
  {
    if builders == [] then p
    else Step(env, cfg, ApplyAll(env, cfg, p, builders[..|builders| - 1]), builders[|builders| - 1])
  }

  /** gvkExists: without a mapper, or when the mapper fails, the type is taken to exist. */
  predicate GvkExists(mapper: Option<GVK -> Mapping>, gvk: GVK) {
    if mapper.None? then true
    else
      match mapper.value(gvk)
      case NoMapping => false
      case MapperFailed => true
      case Mappings(gvks) => gvk in gvks
  }

  /** The purge types that could be listed, and the number of calls made by then. */
  function Listing(env: Env, mapper: Option<GVK -> Mapping>, calls: nat, types: seq<GVK>): (nat, seq<GVK>) {
    if types == [] then (calls, [])
    else
      var (n, listed) := Listing(env, mapper, calls, types[..|types| - 1]);
      var gvk := types[|types| - 1];
      if !GvkExists(mapper, gvk) then (n, listed)
      else (n + 1, if ListAnswered(env, n, gvk) then listed + [gvk] else listed)
  }

  /** An object that purging must delete: shown by one of the lists, of this component, and not visited. */
  predicate Purgeable(id: string, s: Server, visited: set<string>, listed: seq<GVK>, o: Obj) {
    && o.gvk in listed && Listable(s, o)
    && KeyID(o.Id()).value !in visited
    && MANAGED_COMPONENT in o.content.annotations && o.content.annotations[MANAGED_COMPONENT] == id
  }

  /** The deletions of a purge: exactly the purgeable objects, in uninstall order. */
  ghost predicate IsPlan(id: string, s: Server, visited: set<string>, listed: seq<GVK>, plan: seq<Obj>) {
    && (forall o :: o in plan <==> Purgeable(id, s, visited, listed, o))
    && Sorted(ScoreOf(UninstallOrder), plan)
  }

  /** One deletion; an object that is already gone counts as purged. */
  function DeleteOne(env: Env, q: Progress, o: Obj): Progress {
    var (s, reply) := DeleteCall(env, q.server, o.gvk, o.Id(), false);
    if reply.Err? && reply.error != NotFound then q.(server := s, combined := WithError(q.combined, Api(reply.error)))
    else q.(server := s, purged := q.purged + [o])
  }

  /** One deletion after the other. */
  function DeleteAll(env: Env, p: Progress, plan: seq<Obj>): Progress {
    if plan == [] then p else DeleteOne(env, DeleteAll(env, p, plan[..|plan| - 1]), plan[|plan| - 1])
  }

  /** A purge from `p` to `q`: all lists first, then the deletions. */
  ghost predicate IsPurge(env: Env, cfg: Config, p: Progress, types: seq<GVK>, plan: seq<Obj>, q: Progress) {
    var (n, listed) := Listing(env, cfg.mapper, p.server.calls, types);
    && IsPlan(cfg.id, p.server, p.visited, listed, plan)
    && q == DeleteAll(env, p.(server := p.server.(calls := n)), plan)
  }

  /** A run from `p` to `q`. `plan` is what was purged, in order: nothing at all after any error. */
  ghost predicate IsRun(env: Env, cfg: Config, p: Progress, builders: seq<Builder>, types: seq<GVK>, plan: seq<Obj>,
                        q: Progress) {
    InHeap(builders, p.heap) &&
    var applied := ApplyAll(env, cfg, p, builders);
    if applied.combined.errors != [] then plan == [] && q == applied
    else IsPurge(env, cfg, applied, types, plan, q)
  }

  ghost function ObjectsOf(builders: seq<Builder>): set<RuntimeObject> {
    set i | 0 <= i < |builders| && builders[i].Builds? :: builders[i].target
  }
}
