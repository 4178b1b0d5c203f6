/** Kubernetes objects as the reconcilers see them: identities, contents, and the in-memory objects that
    builders hand out and the reconcilers change in place. */
module Objects {

  datatype Option<+T> = None | Some(value: T)

  const MANAGED_COMPONENT := "banzaicloud.io/managed-component"
  const RELATED_TO := "banzaicloud.io/related-to"
  const DESIRED_STATE_CREATED := "banzaicloud.io/desired-state-created"

  const CUSTOM_RESOURCE_DEFINITION := "CustomResourceDefinition"
  const NAMESPACE := "Namespace"

  type StringMap = map<string, string>

  datatype GroupKind = GroupKind(group: string, kind: string) {
    /** schema.GroupKind.String: the core group is not printed. */
    function ToString(): string {
      if group == "" then kind else kind + "." + group
    }
  }

  datatype GVK = GVK(group: string, version: string, kind: string) {
    function Gk(): GroupKind {
      GroupKind(group, kind)
    }

    /** schema.GroupVersionKind.ToAPIVersionAndKind, first result. */
    function ApiVersion(): string {
      if group == "" then version else group + "/" + version
    }
  }

  /** What makes two objects the same object for the API server: the version plays no part. */
  datatype Key = Key(gk: GroupKind, ns: string, name: string)

  /** The typed payload of an object. Services and service accounts hold fields that the cluster fills in. */
  datatype Body =
    | ServiceBody(clusterIP: string, clusterIPs: seq<string>, spec: string)
    | ServiceAccountBody(secrets: seq<string>, spec: string)
    | ConfigMapBody(data: StringMap)
    | OtherBody(spec: string)

  /** Everything the patch calculation compares. `controller` is the UID of the controlling owner, "" if none. */
  datatype Content = Content(labels: StringMap, annotations: StringMap, controller: string, body: Body)

  /** An object in memory. `rv` is its resourceVersion, 0 when unset. */
  datatype Obj = Obj(gvk: GVK, ns: string, name: string, content: Content, rv: nat) {
    function Id(): Key {
      Key(gvk.Gk(), ns, name)
    }

    predicate SameIdentity(other: Obj) {
      gvk == other.gvk && ns == other.ns && name == other.name
    }
  }

  datatype Owner = Owner(gvk: GVK, ns: string, name: string, uid: string, deleting: bool)

  /** A runtime.Object pointer: several builders or lists may share one. */
  class RuntimeObject {
    var val: Obj

    constructor (o: Obj)
      ensures val == o
    {
      val := o;
    }
  }

  type Heap = map<RuntimeObject, Obj>

  /** The values of a set of in-memory objects. */
  ghost function Snapshot(objects: set<RuntimeObject>): (heap: Heap)
    reads objects
    ensures heap.Keys == objects
  {
    map o | o in objects :: o.val
  }
}
