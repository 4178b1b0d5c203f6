/** Overriding the containers of a pod template in place (types.PodSpecBase), and label selectors. */
module Overrides {
  import opened Objects
  import opened MetaBase

  datatype Container = Container(
    name: string,
    resources: string,
    image: string,
    pullPolicy: string,
    command: seq<string>,
    volumeMounts: seq<string>,
    securityContext: Option<string>,
    liveness: Option<string>,
    readiness: Option<string>,
    others: string)

  datatype ContainerBase = ContainerBase(
    name: string,
    resources: Option<string>,
    image: string,
    pullPolicy: string,
    command: seq<string>,
    volumeMounts: seq<string>,
    securityContext: Option<string>,
    liveness: Option<string>,
    readiness: Option<string>)
  {
    /** ContainerBase.Override. Given a readiness probe, it writes its liveness probe, whatever that is. */
    function Override(c: Container): (r: Container)
      ensures r.name == c.name && r.readiness == c.readiness && r.others == c.others
    {
      c.(resources := if resources.Some? then resources.value else c.resources,
         image := if image != "" then image else c.image,
         pullPolicy := if pullPolicy != "" then pullPolicy else c.pullPolicy,
         command := if command != [] then command else c.command,
         volumeMounts := if volumeMounts != [] then volumeMounts else c.volumeMounts,
         securityContext := if securityContext.Some? then securityContext else c.securityContext,
         liveness := if readiness.Some? then liveness else if liveness.Some? then liveness else c.liveness)
    }
  }

  /** Exactly when an override leaves the readiness probe it asks for, and exactly when it keeps a liveness probe it
      says nothing about. */
  lemma ProbesAfterOverride(b: ContainerBase, c: Container)
    ensures (b.readiness.Some? ==> b.Override(c).readiness == b.readiness) <==>
      b.readiness.None? || c.readiness == b.readiness
    ensures b.liveness.None? ==> (b.Override(c).liveness == c.liveness <==> b.readiness.None? || c.liveness.None?)
    ensures b.liveness.Some? ==> b.Override(c).liveness == b.liveness
  {}

  /** A readiness probe that is asked for, never arrives, and erases the liveness probe. */
  lemma ReadinessOverrideErasesLiveness()
    ensures var c := Container("app", "", "image:1", "", [], [], None, Some("alive"), None, "");
      var b := ContainerBase("app", None, "", "", [], [], None, None, Some("ready"));
      b.Override(c) == c.(liveness := None)
  {}

  /** All overrides that carry the container's name, from left to right. */
  function Composed(bases: seq<ContainerBase>, c: Container): (r: Container)
    ensures r.name == c.name
  {
    if bases == [] then c
    else
      var r := Composed(bases[..|bases| - 1], c);
      if bases[|bases| - 1].name == c.name then bases[|bases| - 1].Override(r) else r
  }

  /** No earlier container has this one's name. */
  predicate First(s: seq<Container>, k: nat)
    requires k < |s|
  {
    forall j :: 0 <= j < k ==> s[j].name != s[k].name
  }

  /** The containers once the overrides are through: the first container of each name carries the composition of all
      overrides of that name, every other container is untouched. */
  predicate Overridden(bases: seq<ContainerBase>, was: seq<Container>, now: seq<Container>) {
    && |now| == |was|
    && forall k :: 0 <= k < |was| ==> now[k] == if First(was, k) then Composed(bases, was[k]) else was[k]
  }

  /** One override: the scan stops at the first container of its name. */
  method OverrideFirst(b: ContainerBase, containers: array<Container>)
    modifies containers
    ensures forall k :: 0 <= k < containers.Length ==>
      containers[k] == if old(containers[k].name) == b.name && First(old(containers[..]), k)
          then b.Override(old(containers[k])) else old(containers[k])
  {
    for o := 0 to containers.Length
      invariant containers[..] == old(containers[..])
      invariant forall k :: 0 <= k < o ==> containers[k].name != b.name
    {
      if b.name == containers[o].name {
        containers[o] := b.Override(containers[o]);
        return;
      }
    }
  }

  /** The nested loops of PodSpecBase.Override. */
  method OverrideContainers(bases: seq<ContainerBase>, containers: array<Container>)
    modifies containers
    ensures Overridden(bases, old(containers[..]), containers[..])
  {
    ghost var was := containers[..];
    for i := 0 to |bases|
      invariant Overridden(bases[..i], was, containers[..])
    {
      ghost var mid := containers[..];
      OverrideFirst(bases[i], containers);
      assert bases[..i + 1][..i] == bases[..i];
      forall k | 0 <= k < |was| ensures First(mid, k) <==> First(was, k) {
        assert forall j :: 0 <= j < |was| ==> mid[j].name == was[j].name;
      }
    }
    assert bases[..|bases|] == bases;
  }

  // ----- why overriding again changes nothing -----

  /** A last writer per field. */
  datatype Patch = Patch(
    resources: Option<string>, image: Option<string>, pullPolicy: Option<string>, command: Option<seq<string>>,
    volumeMounts: Option<seq<string>>, securityContext: Option<Option<string>>, liveness: Option<Option<string>>)

  function Or<T>(given: Option<T>, x: T): T {
    if given.Some? then given.value else x
  }

  function Later<T>(given: Option<T>, x: Option<T>): Option<T> {
    if given.Some? then given else x
  }

  function Applied(p: Patch, c: Container): Container {
    c.(resources := Or(p.resources, c.resources), image := Or(p.image, c.image),
       pullPolicy := Or(p.pullPolicy, c.pullPolicy),
       command := Or(p.command, c.command), volumeMounts := Or(p.volumeMounts, c.volumeMounts),
       securityContext := Or(p.securityContext, c.securityContext), liveness := Or(p.liveness, c.liveness))
  }

  function Given<T(==)>(x: T, nothing: T): Option<T> {
    if x == nothing then None else Some(x)
  }

  function PatchOf(b: ContainerBase): Patch {
    Patch(b.resources, Given(b.image, ""), Given(b.pullPolicy, ""), Given(b.command, []), Given(b.volumeMounts, []),
          Given(b.securityContext, None), if b.liveness.Some? || b.readiness.Some? then Some(b.liveness) else None)
  }

  function Then(p: Patch, q: Patch): Patch {
    Patch(Later(q.resources, p.resources), Later(q.image, p.image), Later(q.pullPolicy, p.pullPolicy),
          Later(q.command, p.command),
          Later(q.volumeMounts, p.volumeMounts), Later(q.securityContext, p.securityContext),
              Later(q.liveness, p.liveness))
  }

  /** Some patch, the same for every container of the name, does what all the overrides do. */
  function PatchFor(bases: seq<ContainerBase>, name: string): Patch {
    if bases == [] then Patch(None, None, None, None, None, None, None)
    else
      var p := PatchFor(bases[..|bases| - 1], name);
      if bases[|bases| - 1].name == name then Then(p, PatchOf(bases[|bases| - 1])) else p
  }

  /** The composition sets each field to what the last override of the name that sets it says. */
  lemma {:induction false} ComposedIsPatch(bases: seq<ContainerBase>, c: Container)
    ensures Composed(bases, c) == Applied(PatchFor(bases, c.name), c)
  {
    if bases != [] {
      var init, b := bases[..|bases| - 1], bases[|bases| - 1];
      ComposedIsPatch(init, c);
      OneIsPatch(b, Composed(init, c));
      ThenApplies(PatchFor(init, c.name), PatchOf(b), c);
    }
  }

  lemma OneIsPatch(b: ContainerBase, c: Container)
    ensures b.Override(c) == Applied(PatchOf(b), c)
  {}

  lemma ThenApplies(p: Patch, q: Patch, c: Container)
    ensures Applied(Then(p, q), c) == Applied(q, Applied(p, c))
  {}

  lemma PatchTwice(p: Patch, c: Container)
    ensures Applied(p, Applied(p, c)) == Applied(p, c)
  {}

  lemma ComposedTwice(bases: seq<ContainerBase>, c: Container)
    ensures Composed(bases, Composed(bases, c)) == Composed(bases, c)
  {
    ComposedIsPatch(bases, c);
    ComposedIsPatch(bases, Composed(bases, c));
    PatchTwice(PatchFor(bases, c.name), c);
  }

  /** Number, names and order of the containers stay, and overriding the result again changes no container. */
  lemma OverriddenIsStable(bases: seq<ContainerBase>, was: seq<Container>, now: seq<Container>)
    requires Overridden(bases, was, now)
    ensures |now| == |was| && forall k :: 0 <= k < |was| ==> now[k].name == was[k].name
    ensures forall again :: Overridden(bases, now, again) <==> again == now
  {
    forall k | 0 <= k < |was| ensures now[k].name == was[k].name && now[k] == if First(now, k)
        then Composed(bases, now[k]) else now[k] {
      ComposedTwice(bases, was[k]);
    }
  }

  // ----- the pod spec around the containers -----

  /** The fields of a pod spec that an override replaces whole, where it gives them. */
  datatype Fields = Fields(
    securityContext: Option<string>, tolerations: Option<seq<string>>, nodeSelector: Option<StringMap>,
    serviceAccount: string, affinity: Option<string>, volumes: seq<string>, priorityClass: string)

  datatype PodSpec = PodSpec(fields: Fields, containers: array<Container>, initContainers: array<Container>,
                             pullSecrets: seq<string>)

  datatype PodSpecBase = PodSpecBase(
    fields: Fields, containers: seq<ContainerBase>, initContainers: seq<ContainerBase>, pullSecrets: seq<string>)

  function OverrideFields(b: Fields, f: Fields): Fields {
    Fields(Later(b.securityContext, f.securityContext), Later(b.tolerations, f.tolerations),
           Later(b.nodeSelector, f.nodeSelector),
           if b.serviceAccount != "" then b.serviceAccount else f.serviceAccount, Later(b.affinity, f.affinity),
           if b.volumes != [] then b.volumes else f.volumes, if b.priorityClass != "" then b.priorityClass
               else f.priorityClass)
  }

  /** Each field is the override's if that gives one, and stays otherwise; so an override that gives nothing changes
      nothing, and a second time it changes nothing more. */
  lemma OverriddenFields(b: Fields, f: Fields)
    ensures var r := OverrideFields(b, f);
      && (b.securityContext.Some? ==> r.securityContext == b.securityContext)
      && (b.tolerations.Some? ==> r.tolerations == b.tolerations)
      && (b.nodeSelector.Some? ==> r.nodeSelector == b.nodeSelector)
      && (b.serviceAccount != "" ==> r.serviceAccount == b.serviceAccount)
      && (b.affinity.Some? ==> r.affinity == b.affinity)
      && (b.volumes != [] ==> r.volumes == b.volumes)
      && (b.priorityClass != "" ==> r.priorityClass == b.priorityClass)
    ensures OverrideFields(Fields(None, None, None, "", None, [], ""), f) == f
    ensures OverrideFields(b, OverrideFields(b, f)) == OverrideFields(b, f)
  {
  }

  /** Two overrides in a row are one: the later one's fields over the earlier one's. */
  lemma OverridesCompose(c: Fields, b: Fields, f: Fields)
    ensures OverrideFields(c, OverrideFields(b, f)) == OverrideFields(OverrideFields(c, b), f)
  {
  }

  /** PodSpecBase.Override: containers change in place, the rest in the copy that is returned. */
  method Override(base: Option<PodSpecBase>, spec: PodSpec) returns (r: PodSpec)
    requires spec.containers != spec.initContainers
    modifies spec.containers, spec.initContainers
    ensures r.containers == spec.containers && r.initContainers == spec.initContainers
    ensures base.None? ==>
      r == spec && spec.containers[..] == old(spec.containers[..])
          && spec.initContainers[..] == old(spec.initContainers[..])
    ensures base.Some? ==>
      && r.fields == OverrideFields(base.value.fields, spec.fields)
      && Overridden(base.value.containers, old(spec.containers[..]), spec.containers[..])
      && Overridden(base.value.initContainers, old(spec.initContainers[..]), spec.initContainers[..])
      && r.pullSecrets == spec.pullSecrets + base.value.pullSecrets
  {
    if base.None? {
      return spec;
    }
    var b := base.value;
    OverrideContainers(b.containers, spec.containers);
    OverrideContainers(b.initContainers, spec.initContainers);
    r := spec.(fields := OverrideFields(b.fields, spec.fields), pullSecrets := spec.pullSecrets + b.pullSecrets);
  }

  /** Overriding twice gives what overriding once gives, except that the pull secrets come again: the whole result
      is the same iff there are none. */
  method OverrideTwice(base: PodSpecBase, spec: PodSpec) returns (once: PodSpec, twice: PodSpec,
                       ghost mid: seq<Container>, ghost midInit: seq<Container>)
    requires spec.containers != spec.initContainers
    modifies spec.containers, spec.initContainers
    ensures spec.containers[..] == mid && spec.initContainers[..] == midInit
    ensures Overridden(base.containers, old(spec.containers[..]), mid)
    ensures Overridden(base.initContainers, old(spec.initContainers[..]), midInit)
    ensures twice.fields == once.fields
    ensures twice == once <==> base.pullSecrets == []
  {
    once := Override(Some(base), spec);
    mid, midInit := spec.containers[..], spec.initContainers[..];
    OverriddenIsStable(base.containers, old(spec.containers[..]), mid);
    OverriddenIsStable(base.initContainers, old(spec.initContainers[..]), midInit);
    twice := Override(Some(base), once);
    assert |once.pullSecrets + base.pullSecrets| == |once.pullSecrets| + |base.pullSecrets|;
  }

  // ----- label selectors -----

  /** A selector that is changed through a pointer; a nil map and a nil list are told from empty ones. */
  class LabelSelector {
    var labels: Option<StringMap>
    var expressions: Option<seq<string>>

    constructor ()
      ensures labels == None && expressions == None
    {
      labels, expressions := None, None;
    }
  }

  /** What a selector asks for. */
  function LabelsOf(labels: Option<StringMap>): StringMap {
    if labels.Some? then labels.value else map[]
  }

  function ExpressionsOf(expressions: Option<seq<string>>): seq<string> {
    if expressions.Some? then expressions.value else []
  }

  /** mergeSelectors. Expressions with no labels beside them, and no selector to add them to, are a nil dereference. */
  method MergeSelectors(base: LabelSelector?, spec: LabelSelector?) returns (crashes: bool, r: LabelSelector?)
    modifies spec
    ensures crashes <==> spec == null && base != null && base.labels.None? && base.expressions.Some?
    ensures !crashes && base == null ==> r == spec
    ensures spec != null ==> r == spec
    ensures r != null && r != spec ==> fresh(r)
    ensures !crashes && base != null ==> (r == null <==> spec == null && base.labels.None?)
    ensures spec != null && base == null ==>
      spec.labels == old(spec.labels) && spec.expressions == old(spec.expressions)
    ensures !crashes && base != null && r != null ==>
      && LabelsOf(r.labels)
        == Merged(old(LabelsOf(base.labels)), old(if spec == null then map[] else LabelsOf(spec.labels)))
      && ExpressionsOf(r.expressions)
        == old(if spec == null then [] else ExpressionsOf(spec.expressions)) + old(ExpressionsOf(base.expressions))
  {
    if base == null {
      return false, spec;
    }
    r := spec;
    if base.labels.Some? {
      if r == null {
        r := new LabelSelector();
      }
      if r.labels.None? {
        r.labels := Some(map[]);
      }
      var merged := MergeInto(base.labels.value, r.labels.value);
      r.labels := Some(merged);
    }
    if base.expressions.Some? {
      if r == null {
        return true, null;
      }
      r.expressions := Some(ExpressionsOf(r.expressions) + base.expressions.value);
    }
    crashes := false;
  }
}
