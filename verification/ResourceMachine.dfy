/** The per-object state machine as a function of the server, the environment and the desired object:
    create, merge and update, recreate, delete. */
module ResourceMachine {
  import opened Strings
  import opened Objects
  import opened Cluster
  import opened DesiredStates
  import MetaBase

  const TERMINATING_REQUEUE := 2
  const DEFAULT_RECREATE_REQUEUE_DELAY := 10

  datatype Requeue = Requeue(requeue: bool, after: int)

  datatype Error =
    | Api(error: ApiError)
    | HookFailed
    | CrdNotReady
    | ResourceAlreadyExists
    | RecreateNotAllowed(error: ApiError)
    | RecreateNotEnabled(error: ApiError)
    | BuilderFailed
    | ForeignComponent
    | ControllerRefRefused
    | ModifierFailed
    | NameMissing
    | ObjectBeingDeleted
    | StatusUpdateFailed
    | FinishFailed

  /** Options as a caller sets them; `None` is an unset pointer or function. */
  datatype RawOptions = RawOptions(
    enableRecreate: bool,
    delay: Option<int>,
    condition: Option<string -> bool>,
    substring: Option<string>,
    recreatable: Option<(GVK, ApiStatus) -> bool>,
    immediately: bool,
    foreground: bool)

  datatype Options = Options(
    enableRecreate: bool,
    delay: int,
    condition: Option<string -> bool>,
    substring: Option<string>,
    recreatable: (GVK, ApiStatus) -> bool,
    immediately: bool,
    foreground: bool)

  predicate MatchImmutableErrorMessages(message: string) {
    || Contains(message, "immutable")
    || Contains(message, "may not change once set")
    || Contains(message, "updates to statefulset spec for fields other than")
  }

  const DEFAULT_RECREATE_GROUP_KINDS: seq<GroupKind> :=
    [GroupKind("", "Service"), GroupKind("apps", "StatefulSet"), GroupKind("apps", "DaemonSet"),
     GroupKind("apps", "Deployment")]

  /** The defaults NewGenericReconciler fills in. */
  function Defaults(raw: RawOptions): Options {
    var unset := raw.substring.None?;
    Options(
      raw.enableRecreate,
      if raw.delay.Some? then raw.delay.value else DEFAULT_RECREATE_REQUEUE_DELAY,
      if unset && raw.condition.None? then Some(MatchImmutableErrorMessages) else raw.condition,
      if unset && raw.condition.Some? then Some("immutable") else raw.substring,
      if raw.recreatable.Some? then raw.recreatable.value
      else (gvk: GVK, status: ApiStatus) => gvk.Gk() in DEFAULT_RECREATE_GROUP_KINDS,
      raw.immediately,
      raw.foreground)
  }

  predicate ShouldRecreate(opts: Options, message: string) {
    if opts.condition.Some? then opts.condition.value(message)
    else Contains(message, if opts.substring.Some? then opts.substring.value else "")
  }

  /** The object a read produced, or, after a veto on creation, the desired object itself (`aliased`). */
  datatype Current = Current(obj: Obj, deleting: bool, aliased: bool)

  datatype CreateOut = CreateOut(server: Server, desired: Obj, created: bool, current: Current, error: Option<Error>)

  datatype Outcome = Outcome(server: Server, desired: Obj, result: Option<Requeue>, error: Option<Error>)

  predicate IsCrd(gvk: GVK) {
    gvk.Gk() == GroupKind("apiextensions.k8s.io", CUSTOM_RESOURCE_DEFINITION)
  }

  /** The client fills the desired object with what the server stored. */
  function Filled(d: Obj, st: Stored): Obj {
    d.(content := st.content, rv := st.rv)
  }

  function CreateIfNotExist(env: Env, s: Server, d: Obj, ds: DesiredState): (r: CreateOut)
    ensures r.desired.SameIdentity(d)
  {
    var (s1, got) := GetCall(env, s, d.gvk, d.Id());
    match got
    case Ok(st) => CreateOut(s1, d, false, Current(Filled(d, st), st.deleting, false), None)
    case Err(e) =>
      if e != NotFound then CreateOut(s1, d, false, Current(d, false, true), Some(Api(e)))
      else CreateMissing(env, s1, d, ds)
  }

  function CreateMissing(env: Env, s: Server, d: Obj, ds: DesiredState): (r: CreateOut)
    ensures r.desired.SameIdentity(d)
  {
    var prepared := BeforeCreate(ds, d);
    if prepared.None? then CreateOut(s, d, false, Current(d, false, true), Some(HookFailed))
    else
      var d1 := prepared.value;
      var should := ShouldCreate(ds, d1);
      if should.None? then CreateOut(s, d1, false, Current(d1, false, true), Some(HookFailed))
      else if !should.value then CreateOut(s, d1, false, Current(d1, false, true), None)
      else
        var (s1, made) := CreateCall(env, s, d1);
        match made
        case Err(e) => CreateOut(s1, d1, false, Current(d1, false, true), Some(Api(e)))
        case Ok(st) =>
          var d2 := Filled(d1, st);
          if IsCrd(d.gvk) then
            // readiness polling, seen as one more call that succeeds or times out
            var s2 := s1.(calls := s1.calls + 1);
            var ready := env.answers(s1.calls).refusal.None?;
            CreateOut(s2, d2, ready, Current(d2, false, true), if ready then None else Some(CrdNotReady))
          else CreateOut(s1, d2, true, Current(d2, false, true), None)
  }

  /** Labels and annotations of the live object stay unless the desired one overrides them, and an object
      that is live without the component annotation is not given it. */
  function MergeMeta(current: Content, desired: Content): Content {
    var annotations := MetaBase.Merged(desired.annotations, current.annotations);
    desired.(
      labels := MetaBase.Merged(desired.labels, current.labels),
      annotations := if MANAGED_COMPONENT in current.annotations then annotations
          else annotations - {MANAGED_COMPONENT})
  }

  function ReconcileResource(env: Env, opts: Options, s: Server, d: Obj, ds: DesiredState): (r: Outcome)
    ensures r.desired.SameIdentity(d)
  {
    match Resolve(ds)
    case CreateOnly =>
      var c := CreateIfNotExist(env, s, d, ds);
      Outcome(c.server, c.desired, None, c.error)
    case Remove =>
      var (s1, error) := DeleteResource(env, s, d, ds);
      Outcome(s1, d, None, error)
    case Converge =>
      var c := CreateIfNotExist(env, s, d, ds);
      if c.error.Some? || c.created then Outcome(c.server, c.desired, None, c.error)
      else if c.current.deleting then Outcome(c.server, c.desired, Some(Requeue(false, TERMINATING_REQUEUE)), None)
      else UpdateExisting(env, opts, c.server, c.current, c.desired, ds)
  }

  function UpdateExisting(env: Env, opts: Options, s: Server, current: Current, d: Obj, ds: DesiredState): (r: Outcome)
    ensures r.desired.SameIdentity(d)
  {
    var d1 := d.(content := MergeMeta(current.obj.content, d.content));
    var should := ShouldUpdate(ds, current.obj, d1);
    if should.None? then Outcome(s, d1, None, Some(HookFailed))
    else if !should.value then Outcome(s, d1, None, None)
    else
      var hooked := BeforeUpdate(ds, current.obj, d1);
      if hooked.None? then Outcome(s, d1, None, Some(HookFailed))
      else
        var (c2, d2) := hooked.value;
        if current.aliased || c2.content == d2.content then Outcome(s, d2, None, None)
        else SendUpdate(env, opts, s, d2.(rv := current.obj.rv), ds)
  }

  function SendUpdate(env: Env, opts: Options, s: Server, d: Obj, ds: DesiredState): (r: Outcome)
    ensures r.desired.SameIdentity(d)
  {
    var (s1, reply) := UpdateCall(env, s, d);
    match reply
    case Ok(st) => Outcome(s1, Filled(d, st), None, None)
    case Err(e) =>
      if IsImmutableRejection(opts, e) then
        if !opts.enableRecreate then Outcome(s1, d, None, Some(RecreateNotEnabled(e)))
        else if !opts.recreatable(d.gvk, e.status) then Outcome(s1, d, None, Some(RecreateNotAllowed(e)))
        else Recreate(env, opts, s1, d, ds)
      else Outcome(s1, d, None, Some(Api(e)))
  }

  /** A 422 Invalid answer whose message says that a field cannot change. */
  predicate IsImmutableRejection(opts: Options, e: ApiError) {
    e.Refused? && e.status.code == 422 && e.status.invalid && ShouldRecreate(opts, e.status.message)
  }

  function Recreate(env: Env, opts: Options, s: Server, d: Obj, ds: DesiredState): (r: Outcome)
    ensures r.desired.SameIdentity(d)
  {
    var (s1, reply) := DeleteCall(env, s, d.gvk, d.Id(), !opts.immediately || opts.foreground);
    if reply.Err? then Outcome(s1, d, None, Some(Api(reply.error)))
    else if opts.immediately then
      var c := CreateIfNotExist(env, s1, d.(rv := 0), ds);
      if c.error.Some? then Outcome(c.server, c.desired, None, c.error)
      else if !c.created then Outcome(c.server, c.desired, None, Some(ResourceAlreadyExists))
      else Outcome(c.server, c.desired, None, None)
    else Outcome(s1, d, Some(Requeue(true, opts.delay)), None)
  }

  function DeleteResource(env: Env, s: Server, d: Obj, ds: DesiredState): (Server, Option<Error>) {
    var (s1, got) := GetCall(env, s, d.gvk, d.Id());
    match got
    case Err(e) => (s1, if e == NoMatch || e == NotFound then None else Some(Api(e)))
    case Ok(st) =>
      if !BeforeDelete(ds, Filled(d, st)) then (s1, Some(HookFailed))
      else
        var should := ShouldDelete(ds, d);
        if should.None? then (s1, Some(HookFailed))
        else if !should.value then (s1, None)
        else
          var (s2, reply) := DeleteCall(env, s1, d.gvk, d.Id(), false);
          (s2, if reply.Err? then Some(Api(reply.error)) else None)
  }
}
