/** Desired states, their hooks, and the three update hooks the library installs itself. */
module DesiredStates {
  import opened Objects
  import MetaBase

  datatype StaticState = StateCreated | StateAbsent | StatePresent

  /** The callbacks of a DynamicDesiredState. A missing callback behaves as the one in `NO_HOOKS`. Callbacks
      rewrite contents, never identities; `None` and `false` answers of the first three mean an error. */
  datatype Hooks = Hooks(
    beforeCreate: Obj -> Option<Content>,
    beforeUpdate: (Obj, Obj) -> Option<(Content, Content)>,
    beforeDelete: Obj -> bool,
    shouldCreate: Obj -> Option<bool>,
    shouldUpdate: (Obj, Obj) -> Option<bool>,
    shouldDelete: Obj -> Option<bool>)

  /** `NoState` is the nil interface; `Callback` a DesiredStateHook; `Stacked(a, b)` the MultipleDesiredStates
      {a, b}, longer ones nesting to the right. */
  datatype DesiredState =
    | NoState
    | Static(state: StaticState)
    | Dynamic(inner: DesiredState, hooks: Hooks)
    | Callback(hook: Obj -> Option<Content>)
    | Stacked(first: DesiredState, last: DesiredState)

  /** The branch ReconcileResource takes: anything but Created and Absent lands in the default branch. */
  datatype Mode = CreateOnly | Remove | Converge

  /** GetDesiredState of the two states that have it. */
  function GetDesiredState(ds: DesiredState): DesiredState
    requires ds.Dynamic? || ds.Stacked?
  {
    match ds
    case Dynamic(inner, _) => inner
    case Stacked(_, last) => if last.Dynamic? || last.Stacked? then GetDesiredState(last) else last
  }

  function Resolve(ds: DesiredState): Mode {
    var st := if ds.Dynamic? || ds.Stacked? then GetDesiredState(ds) else ds;
    match st
    case Static(StateCreated) => CreateOnly
    case Static(StateAbsent) => Remove
    case _ => Converge
  }

  function BeforeCreate(ds: DesiredState, d: Obj): (r: Option<Obj>)
    ensures r.Some? ==> r.value.SameIdentity(d) && r.value.rv == d.rv
  {
    match ds
    case Dynamic(_, hooks) =>
      var c := hooks.beforeCreate(d);
      if c.Some? then Some(d.(content := c.value)) else None
    case Callback(hook) =>
      var c := hook(d);
      if c.Some? then Some(d.(content := c.value)) else None
    case Stacked(first, last) =>
      var r := BeforeCreate(first, d);
      if r.Some? then BeforeCreate(last, r.value) else None
    case _ => Some(d)
  }

  /** Hooks may change the object they read as well as the desired one; a Callback only changes the former. */
  function BeforeUpdate(ds: DesiredState, c: Obj, d: Obj): (r: Option<(Obj, Obj)>)
    ensures r.Some? ==>
      r.value.0.SameIdentity(c) && r.value.0.rv == c.rv && r.value.1.SameIdentity(d) && r.value.1.rv == d.rv
  {
    match ds
    case Dynamic(_, hooks) =>
      var p := hooks.beforeUpdate(c, d);
      if p.Some? then Some((c.(content := p.value.0), d.(content := p.value.1))) else None
    case Callback(hook) =>
      var p := hook(c);
      if p.Some? then Some((c.(content := p.value), d)) else None
    case Stacked(first, last) =>
      var r := BeforeUpdate(first, c, d);
      if r.Some? then BeforeUpdate(last, r.value.0, r.value.1) else None
    case _ => Some((c, d))
  }

  predicate BeforeDelete(ds: DesiredState, c: Obj) {
    match ds
    case Dynamic(_, hooks) => hooks.beforeDelete(c)
    case Callback(hook) => hook(c).Some?
    case Stacked(first, last) => BeforeDelete(first, c) && BeforeDelete(last, c)
    case _ => true
  }

  /** The first state that objects decides; states without the callback never object. */
  function ShouldCreate(ds: DesiredState, d: Obj): Option<bool> {
    match ds
    case Dynamic(_, hooks) => hooks.shouldCreate(d)
    case Stacked(first, last) =>
      var r := ShouldCreate(first, d);
      if r == Some(true) then ShouldCreate(last, d) else r
    case _ => Some(true)
  }

  function ShouldUpdate(ds: DesiredState, c: Obj, d: Obj): Option<bool> {
    match ds
    case Dynamic(_, hooks) => hooks.shouldUpdate(c, d)
    case Stacked(first, last) =>
      var r := ShouldUpdate(first, c, d);
      if r == Some(true) then ShouldUpdate(last, c, d) else r
    case _ => Some(true)
  }

  function ShouldDelete(ds: DesiredState, d: Obj): Option<bool> {
    match ds
    case Dynamic(_, hooks) => hooks.shouldDelete(d)
    case Stacked(first, last) =>
      var r := ShouldDelete(first, d);
      if r == Some(true) then ShouldDelete(last, d) else r
    case _ => Some(true)
  }

  /** ServiceIPModifier. `None` stands for the failing type assertion on a desired object of another type. */
  function ServiceIP(c: Content, d: Content): Option<Content> {
    if !c.body.ServiceBody? then Some(d)
    else if !d.body.ServiceBody? then None
    else if d.body.clusterIP != "" then Some(d)
    else Some(d.(body := d.body.(clusterIP := c.body.clusterIP, clusterIPs := c.body.clusterIPs)))
  }

  /** KeepLabelsAndAnnotationsModifer. */
  function KeepLabelsAndAnnotations(c: Content, d: Content): Content {
    d.(labels := MetaBase.Merged(d.labels, c.labels), annotations := MetaBase.Merged(d.annotations, c.annotations))
  }

  /** KeepServiceAccountTokenReferences. */
  function KeepTokenReferences(c: Content, d: Content): Option<Content> {
    if !c.body.ServiceAccountBody? then Some(d)
    else if !d.body.ServiceAccountBody? then None
    else Some(d.(body := d.body.(secrets := c.body.secrets)))
  }

  /** The three hooks in the order built objects run them. */
  function StandardUpdate(c: Content, d: Content): Option<Content> {
    var d1 := ServiceIP(c, d);
    if d1.None? then None else KeepTokenReferences(c, KeepLabelsAndAnnotations(c, d1.value))
  }

  /** What the three hooks do to the payload. */
  function StandardBody(c: Body, d: Body): Option<Body> {
    if (c.ServiceBody? && !d.ServiceBody?) || (c.ServiceAccountBody? && !d.ServiceAccountBody?) then None
    else if c.ServiceBody? && d.clusterIP == "" then Some(d.(clusterIP := c.clusterIP, clusterIPs := c.clusterIPs))
    else if c.ServiceAccountBody? then Some(d.(secrets := c.secrets))
    else Some(d)
  }

  /** The hooks together: live metadata under the desired one, cluster-filled fields taken over. */
  lemma StandardUpdateIs(c: Content, d: Content)
    ensures StandardUpdate(c, d) ==
      if StandardBody(c.body, d.body).None? then None
      else Some(Content(MetaBase.Merged(d.labels, c.labels), MetaBase.Merged(d.annotations, c.annotations),
                        d.controller,
                        StandardBody(c.body, d.body).value))
  {
  }

  const NO_HOOKS: Hooks := Hooks(
    (d: Obj) => Some(d.content),
    (c: Obj, d: Obj) => Some((c.content, d.content)),
    (c: Obj) => true,
    (d: Obj) => Some(true),
    (c: Obj, d: Obj) => Some(true),
    (d: Obj) => Some(true))

  /** The hooks of objects wrapped by GetResourceBuildersFromObjects. */
  const STANDARD_HOOKS: Hooks := NO_HOOKS.(beforeUpdate :=
    (c: Obj, d: Obj) => var r := StandardUpdate(c.content, d.content);
      if r.Some? then Some((c.content, r.value)) else None)

  /** Static states, dynamic ones with the library's own hooks or none, and stacks of these. */
  ghost predicate Plain(ds: DesiredState) {
    match ds
    case Static(_) => true
    case Dynamic(inner, hooks) => Plain(inner) && (hooks == STANDARD_HOOKS || hooks == NO_HOOKS)
    case Stacked(first, last) => Plain(first) && Plain(last)
    case _ => false
  }

  /** Some hooks run before an update; those of an inner state never do. */
  ghost predicate Hooked(ds: DesiredState) {
    match ds
    case Dynamic(_, hooks) => hooks == STANDARD_HOOKS
    case Stacked(first, last) => Hooked(first) || Hooked(last)
    case _ => false
  }

  /** However deep the stack, a plain state runs the standard update once in effect, or not at all, and it never
      objects to anything. */
  lemma {:induction false} PlainHooks(ds: DesiredState, c: Obj, d: Obj)
    requires Plain(ds)
    ensures BeforeCreate(ds, d) == Some(d) && BeforeDelete(ds, c)
    ensures ShouldCreate(ds, d) == ShouldUpdate(ds, c, d) == ShouldDelete(ds, d) == Some(true)
    ensures BeforeUpdate(ds, c, d) ==
      if !Hooked(ds) then Some((c, d))
      else if StandardUpdate(c.content, d.content).None? then None
      else Some((c, d.(content := StandardUpdate(c.content, d.content).value)))
  {
    if ds.Stacked? {
      PlainHooks(ds.first, c, d);
      PlainHooks(ds.last, c, d);
      var updated := StandardUpdate(c.content, d.content);
      if Hooked(ds.first) && updated.Some? {
        StandardHooksAreFixedPoints(c.content, d.content);
        PlainHooks(ds.last, c, d.(content := updated.value));
      }
    }
  }

  /** The hooks as the library runs them: on the desired object, in place. */
  method ServiceIPModifier(current: Obj, desired: RuntimeObject) returns (ok: bool)
    modifies desired
    ensures ok == ServiceIP(current.content, old(desired.val.content)).Some?
    ensures desired.val == if ok
        then old(desired.val).(content := ServiceIP(current.content, old(desired.val.content)).value)
        else old(desired.val)
  {
    if current.content.body.ServiceBody? {
      var d := desired.val.content;
      if !d.body.ServiceBody? { return false; }
      if d.body.clusterIP != "" { return true; }
      var body := d.body.(clusterIP := current.content.body.clusterIP);
      body := body.(clusterIPs := current.content.body.clusterIPs);
      desired.val := desired.val.(content := d.(body := body));
    }
    return true;
  }

  method KeepLabelsAndAnnotationsModifier(current: Obj, desired: RuntimeObject)
    modifies desired
    ensures desired.val
      == old(desired.val).(content := KeepLabelsAndAnnotations(current.content, old(desired.val.content)))
  {
    var d := desired.val.content;
    var annotations := MetaBase.MergeInto(d.annotations, current.content.annotations);
    var labels := MetaBase.MergeInto(d.labels, current.content.labels);
    desired.val := desired.val.(content := d.(labels := labels, annotations := annotations));
  }

  method KeepServiceAccountTokenReferences(current: Obj, desired: RuntimeObject) returns (ok: bool)
    modifies desired
    ensures ok == KeepTokenReferences(current.content, old(desired.val.content)).Some?
    ensures desired.val == if ok
        then old(desired.val).(content := KeepTokenReferences(current.content, old(desired.val.content)).value)
        else old(desired.val)
  {
    if current.content.body.ServiceAccountBody? {
      var d := desired.val.content;
      if !d.body.ServiceAccountBody? { return false; }
      desired.val := desired.val.(content := d.(body := d.body.(secrets := current.content.body.secrets)));
    }
    return true;
  }

  /** The BeforeUpdateFunc of built objects: each hook in turn, stopping at the first failure. */
  method RunStandardHooks(current: Obj, desired: RuntimeObject) returns (ok: bool)
    modifies desired
    ensures ok == StandardUpdate(current.content, old(desired.val.content)).Some?
    ensures ok ==>
      desired.val == old(desired.val).(content := StandardUpdate(current.content, old(desired.val.content)).value)
    ensures desired.val.SameIdentity(old(desired.val))
  {
    ok := ServiceIPModifier(current, desired);
    if ok {
      KeepLabelsAndAnnotationsModifier(current, desired);
      ok := KeepServiceAccountTokenReferences(current, desired);
    }
  }

  /** The three hooks leave their own output alone, even when run against the object they produced. */
  lemma StandardHooksAreFixedPoints(c: Content, d: Content)
    requires StandardUpdate(c, d).Some?
    ensures var r := StandardUpdate(c, d).value;
      && StandardUpdate(c, r) == Some(r)
      && StandardUpdate(r, d) == Some(r)
      && StandardUpdate(r, r) == Some(r)
  {
    var r := StandardUpdate(c, d).value;
    StandardUpdateIs(c, d);
    MergedAgain(d.labels, c.labels);
    MergedAgain(d.annotations, c.annotations);
    StandardUpdateIs(c, r);
    StandardUpdateIs(r, d);
    StandardUpdateIs(r, r);
  }

  lemma MergedAgain(base: StringMap, meta: StringMap)
    ensures var r := MetaBase.Merged(base, meta);
      MetaBase.Merged(r, meta) == r && MetaBase.Merged(base, r) == r && MetaBase.Merged(r, r) == r
  {
  }
}
