/** Ordering of objects for installation and removal (utils.RuntimeObjects.Sort). */
module Sort {
  import opened Strings
  import opened Objects

  datatype ResourceOrder = InstallOrder | UninstallOrder | AnyOrder

  const INSTALL: seq<string> := [
    "CustomResourceDefinition", "Namespace", "ResourceQuota", "LimitRange", "PodDisruptionBudget", "Secret",
    "ConfigMap", "StorageClass", "PersistentVolume", "PersistentVolumeClaim", "ServiceAccount", "ClusterRole",
    "ClusterRoleList", "ClusterRoleBinding", "ClusterRoleBindingList", "Role", "RoleList", "RoleBinding",
    "RoleBindingList", "Service", "DaemonSet", "Pod", "ReplicationController", "ReplicaSet", "Deployment",
    "HorizontalPodAutoscaler", "StatefulSet", "Job", "CronJob", "Ingress", "APIService",
    "ValidatingWebhookConfiguration", "MutatingWebhookConfiguration"]

  const UNINSTALL: seq<string> := [
    "MutatingWebhookConfiguration", "ValidatingWebhookConfiguration", "APIService", "Ingress", "Service", "CronJob",
    "Job", "StatefulSet", "HorizontalPodAutoscaler", "Deployment", "ReplicaSet", "ReplicationController", "Pod",
    "DaemonSet", "RoleBindingList", "RoleBinding", "RoleList", "Role", "ClusterRoleBindingList", "ClusterRoleBinding",
    "ClusterRoleList", "ClusterRole", "ServiceAccount", "PersistentVolumeClaim", "PersistentVolume", "StorageClass",
    "ConfigMap", "Secret", "PodDisruptionBudget", "LimitRange", "ResourceQuota", "Policy", "Gateway", "VirtualService",
    "DestinationRule", "Handler", "Instance", "Rule", "Namespace", "CustomResourceDefinition"]

  const SERVICE_PLACE := 19
  const LAST_WORKLOAD_PLACE := 28

  /** The index of each kind; a kind listed twice keeps its last index. */
  function OrderOf(table: seq<string>): map<string, int> {
    if table == [] then map[] else OrderOf(table[..|table| - 1])[table[|table| - 1] := |table| - 1]
  }

  method BuildOrder(table: seq<string>) returns (order: map<string, int>)
    ensures order == OrderOf(table)
  {
    order := map[];
    for i := 0 to |table|
      invariant order == OrderOf(table[..i])
    {
      assert table[..i + 1][..i] == table[..i];
      order := order[table[i] := i];
    }
    assert table[..|table|] == table;
  }

  /** The score function built from a table, with the score of kinds it does not list. */
  function Scorer(table: seq<string>, unknown: int): string -> int {
    var order := OrderOf(table);
    (kind: string) => if kind in order then order[kind] else unknown
  }

  /** Unknown kinds are installed last, and removed first. */
  function ScoreOf(order: ResourceOrder): string -> int {
    match order
    case InstallOrder => Scorer(INSTALL, 1000)
    case UninstallOrder => Scorer(UNINSTALL, 0)
    case AnyOrder => (kind: string) => 0
  }

  /** The comparator handed to sort.Slice. */
  predicate Before(score: string -> int, a: Obj, b: Obj) {
    var i, j := score(a.gvk.kind), score(b.gvk.kind);
    || i < j
    || (i == j && Less(a.gvk.group, b.gvk.group))
    || (i == j && a.gvk.group == b.gvk.group && Less(a.gvk.kind, b.gvk.kind))
    || (i == j && a.gvk.group == b.gvk.group && a.gvk.kind == b.gvk.kind && Less(a.name, b.name))
  }

  ghost predicate Sorted(score: string -> int, s: seq<Obj>) {
    forall i, j :: 0 <= i < j < |s| ==> !Before(score, s[j], s[i])
  }

  /** The comparator is a strict weak order: irreflexive, transitive, and incomparability is transitive. */
  lemma StrictWeakOrder(score: string -> int, a: Obj, b: Obj, c: Obj)
    ensures !Before(score, a, a)
    ensures Before(score, a, b) && Before(score, b, c) ==> Before(score, a, c)
    ensures !Before(score, a, b) && !Before(score, b, c) ==> !Before(score, a, c)
  {
    LessIrreflexive(a.gvk.group);
    LessIrreflexive(a.gvk.kind);
    LessIrreflexive(a.name);
    TextOrder(a.gvk.group, b.gvk.group, c.gvk.group);
    TextOrder(a.gvk.kind, b.gvk.kind, c.gvk.kind);
    TextOrder(a.name, b.name, c.name);
  }

  lemma TextOrder(a: string, b: string, c: string)
    ensures Less(a, b) && Less(b, c) ==> Less(a, c)
    ensures !Less(a, b) && !Less(b, c) ==> !Less(a, c)
    ensures !(Less(a, b) && Less(b, a))
    ensures Less(a, b) || Less(b, a) || a == b
  {
    LessTotal(a, b);
    LessTotal(b, c);
    LessIrreflexive(a);
    if Less(a, b) {
      if Less(b, a) { LessTransitive(a, b, a); }
      if Less(b, c) { LessTransitive(a, b, c); }
    }
    if Less(b, a) && Less(a, c) { LessTransitive(b, a, c); }
    if Less(c, b) && Less(a, c) { LessTransitive(a, c, b); }
  }

  /** RuntimeObjects.Sort: pick the scores, then sort in place. */
  method SortObjects(a: array<Obj>, order: ResourceOrder)
    modifies a
    ensures Sorted(ScoreOf(order), a[..])
    ensures multiset(a[..]) == multiset(old(a[..]))
  {
    var score := ScoreOf(order);
    var before := (x: Obj, y: Obj) => Before(score, x, y);
    ghost var elements := set x | x in a[..];
    forall x, y, z | x in elements && y in elements && z in elements
      ensures before(x, y) ==> !before(y, x)
      ensures !before(x, y) && !before(y, z) ==> !before(x, z)
    {
      StrictWeakOrder(score, x, y, x);
      StrictWeakOrder(score, x, y, z);
    }
    SortInPlace(a, before, elements);
  }

  /** The same sort on a slice of pointers: the objects pointed to are compared, the pointers move. */
  method SortPointers(a: array<RuntimeObject>, order: ResourceOrder)
    modifies a
    ensures Sorted(ScoreOf(order), Values(a[..]))
    ensures multiset(a[..]) == multiset(old(a[..]))
  {
    var score := ScoreOf(order);
    var values := map o | o in a[..] :: o.val;
    var before := (x: RuntimeObject, y: RuntimeObject) => x in values && y in values
        && Before(score, values[x], values[y]);
    forall x, y, z | x in values && y in values && z in values
      ensures before(x, y) ==> !before(y, x)
      ensures !before(x, y) && !before(y, z) ==> !before(x, z)
    {
      StrictWeakOrder(score, values[x], values[y], values[x]);
      StrictWeakOrder(score, values[x], values[y], values[z]);
    }
    SortInPlace(a, before, values.Keys);
    forall o | o in a[..] ensures o in values {
      assert o in multiset(a[..]);
    }
    assert forall i :: 0 <= i < a.Length ==> a[..][i] in values;
  }

  ghost function Values(objects: seq<RuntimeObject>): (values: seq<Obj>)
    reads objects
    ensures |values| == |objects| && forall i :: 0 <= i < |objects| ==> values[i] == objects[i].val
  {
    seq(|objects|, i requires 0 <= i < |objects| reads objects => objects[i].val)
  }

  ghost predicate InOrder<T>(before: (T, T) -> bool, s: seq<T>) {
    forall i, j :: 0 <= i < j < |s| ==> !before(s[j], s[i])
  }

  ghost predicate WeakOrder<T>(before: (T, T) -> bool, elements: set<T>) {
    && (forall x, y :: x in elements && y in elements && before(x, y) ==> !before(y, x))
    && (forall x, y, z :: x in elements && y in elements && z in elements && !before(x, y) && !before(y, z) ==>
      !before(x, z))
  }

  /** Everything is in order but the element at `j`, which belongs before all that follow it. */
  ghost predicate Sinking<T>(before: (T, T) -> bool, s: seq<T>, j: nat) {
    && j < |s|
    && (forall p, q :: 0 <= p < q < |s| && p != j && q != j ==> !before(s[q], s[p]))
    && (forall q :: j < q < |s| ==> before(s[j], s[q]))
  }

  /** sort.Slice. Elements the comparator does not separate may come out in any order. */
  method SortInPlace<T>(a: array<T>, before: (T, T) -> bool, ghost elements: set<T>)
    requires WeakOrder(before, elements) && forall x :: x in a[..] ==> x in elements
    modifies a
    ensures InOrder(before, a[..])
    ensures multiset(a[..]) == multiset(old(a[..]))
  {
    for n := 0 to a.Length
      invariant InOrder(before, a[..n])
      invariant multiset(a[..]) == multiset(old(a[..]))
    {
      forall x | x in a[..] ensures x in elements {
        assert x in multiset(a[..]);
      }
      Insert(a, n, before, elements);
    }
    assert a[..a.Length] == a[..];
  }

  /** One more element sinks to its place. */
  method Insert<T>(a: array<T>, n: nat, before: (T, T) -> bool, ghost elements: set<T>)
    requires n < a.Length && InOrder(before, a[..n])
    requires WeakOrder(before, elements) && forall x :: x in a[..] ==> x in elements
    modifies a
    ensures InOrder(before, a[..n + 1])
    ensures multiset(a[..]) == multiset(old(a[..]))
  {
    var j := n;
    while j > 0 && before(a[j], a[j - 1])
      invariant 0 <= j <= n
      invariant Sinking(before, a[..n + 1], j)
      invariant multiset(a[..]) == multiset(old(a[..]))
    {
      SinkOnce(a, n, j, before);
      j := j - 1;
    }
    forall x | x in a[..n + 1] ensures x in elements {
      assert x in multiset(a[..]);
    }
    Sunk(before, a[..n + 1], j, elements);
  }

  method SinkOnce<T>(a: array<T>, n: nat, j: nat, before: (T, T) -> bool)
    requires 0 < j <= n < a.Length && before(a[j], a[j - 1]) && Sinking(before, a[..n + 1], j)
    modifies a
    ensures Sinking(before, a[..n + 1], j - 1)
    ensures multiset(a[..]) == multiset(old(a[..]))
  {
    SinkFurther(before, a[..n + 1], j);
    ghost var s := a[..n + 1];
    a[j], a[j - 1] := a[j - 1], a[j];
    assert a[..n + 1] == s[j := s[j - 1]][j - 1 := s[j]];
  }

  lemma SinkFurther<T>(before: (T, T) -> bool, s: seq<T>, j: nat)
    requires Sinking(before, s, j) && j > 0 && before(s[j], s[j - 1])
    ensures Sinking(before, s[j := s[j - 1]][j - 1 := s[j]], j - 1)
  {
  }

  lemma Sunk<T>(before: (T, T) -> bool, s: seq<T>, j: nat, elements: set<T>)
    requires WeakOrder(before, elements) && Sinking(before, s, j) && forall x :: x in s ==> x in elements
    requires j > 0 ==> !before(s[j], s[j - 1])
    ensures InOrder(before, s)
  {
    forall p, q | 0 <= p < q < |s|
      ensures !before(s[q], s[p])
    {
      if q == j && p < j - 1 {
        assert !before(s[j - 1], s[p]);
      }
    }
  }

  predicate Distinct(table: seq<string>) {
    DistinctRows(table, 0, |table|)
  }

  predicate DistinctRows(table: seq<string>, lo: nat, hi: nat) {
    forall i, j :: lo <= i < hi && i < j < |table| ==> table[i] != table[j]
  }

  lemma {:induction false} OrderOfDistinct(table: seq<string>)
    requires Distinct(table)
    ensures forall i :: 0 <= i < |table| ==> table[i] in OrderOf(table) && OrderOf(table)[table[i]] == i
  {
    if table != [] {
      OrderOfDistinct(table[..|table| - 1]);
    }
  }

  /** Where the uninstall table lists the kind that the install table lists at `i`: backwards, except that
      Service moves up past the workloads and seven further kinds sit between. */
  function Place(i: nat): (p: nat)
    requires i < 33
    ensures p < 40
  {
    if i < 2 then 39 - i
    else if i == SERVICE_PLACE then 4
    else if SERVICE_PLACE < i <= LAST_WORKLOAD_PLACE then 33 - i
    else 32 - i
  }

  /** How the two tables are related. */
  predicate Mirrors(up: seq<string>, down: seq<string>) {
    && |up| == 33 && |down| == 40
    && up[SERVICE_PLACE] == "Service"
    && Distinct(down)
    && (forall i :: 0 <= i < 33 ==> down[Place(i)] == up[i])
  }

  lemma Rows0()
    ensures DistinctRows(UNINSTALL, 0, 1)
  {
  }

  lemma Rows1()
    ensures DistinctRows(UNINSTALL, 1, 2)
  {
  }

  lemma Rows2()
    ensures DistinctRows(UNINSTALL, 2, 4)
  {
  }

  lemma Rows4()
    ensures DistinctRows(UNINSTALL, 4, 6)
  {
  }

  lemma Rows6()
    ensures DistinctRows(UNINSTALL, 6, 8)
  {
  }

  lemma Rows8()
    ensures DistinctRows(UNINSTALL, 8, 10)
  {
  }

  lemma Rows10()
    ensures DistinctRows(UNINSTALL, 10, 13)
  {
  }

  lemma Rows13()
    ensures DistinctRows(UNINSTALL, 13, 40)
  {
  }

  lemma PlacesAgree(i: nat)
    requires i < 12
    ensures |INSTALL| == 33 && |UNINSTALL| == 40 && UNINSTALL[Place(i)] == INSTALL[i]
  {
  }

  lemma MiddlePlacesAgree(i: nat)
    requires 12 <= i < 23
    ensures |INSTALL| == 33 && |UNINSTALL| == 40 && UNINSTALL[Place(i)] == INSTALL[i]
  {
  }

  lemma LaterPlacesAgree(i: nat)
    requires 23 <= i < 33
    ensures |INSTALL| == 33 && |UNINSTALL| == 40 && UNINSTALL[Place(i)] == INSTALL[i]
  {
  }

  lemma TablesMirror()
    ensures Mirrors(INSTALL, UNINSTALL)
  {
    Rows0();
    Rows1();
    Rows2();
    Rows4();
    Rows6();
    Rows8();
    Rows10();
    Rows13();
    forall i | 0 <= i < 33
      ensures |INSTALL| == 33 && |UNINSTALL| == 40 && UNINSTALL[Place(i)] == INSTALL[i]
    {
      if i < 12 {
        PlacesAgree(i);
      } else if i < 23 {
        MiddlePlacesAgree(i);
      } else {
        LaterPlacesAgree(i);
      }
    }
  }

  predicate Workload(up: seq<string>, kind: string) {
    |up| > LAST_WORKLOAD_PLACE && kind in up[SERVICE_PLACE + 1..LAST_WORKLOAD_PLACE + 1]
  }

  /** The pairs of kinds that both orders treat alike: a Service and a workload that needs it. */
  predicate ServiceAndWorkload(up: seq<string>, a: string, b: string) {
    (a == "Service" && Workload(up, b)) || (b == "Service" && Workload(up, a))
  }

  lemma PlaceOf(up: seq<string>, down: seq<string>, kind: string) returns (p: nat)
    requires Mirrors(up, down) && kind in up
    ensures p < 33 && up[p] == kind
    ensures Scorer(up, 1000)(kind) == p && Scorer(down, 0)(kind) == Place(p)
    ensures Workload(up, kind) <==> SERVICE_PLACE < p <= LAST_WORKLOAD_PLACE
    ensures kind == "Service" <==> p == SERVICE_PLACE
  {
    p :| p < |up| && up[p] == kind;
    assert Distinct(up) by {
      forall i, j | 0 <= i < j < 33
        ensures up[i] != up[j]
      {
        assert down[Place(i)] == up[i] && down[Place(j)] == up[j];
        assert Place(i) < Place(j) || Place(j) < Place(i);
      }
    }
    OrderOfDistinct(up);
    OrderOfDistinct(down);
    assert down[Place(p)] == kind;
    var workloads := up[SERVICE_PLACE + 1..LAST_WORKLOAD_PLACE + 1];
    if SERVICE_PLACE < p <= LAST_WORKLOAD_PLACE {
      assert workloads[p - SERVICE_PLACE - 1] == kind;
    }
  }

  /** Kinds that no table lists: installed after every listed kind, and removed before every listed one but the very
      first, with which they tie. */
  lemma UnlistedKinds(s: seq<Obj>, i: nat, j: nat)
    requires i < |s| && j < |s|
    ensures Sorted(ScoreOf(InstallOrder), s) && s[i].gvk.kind in INSTALL && s[j].gvk.kind !in INSTALL ==> i < j
    ensures Sorted(ScoreOf(UninstallOrder), s) && s[i].gvk.kind in UNINSTALL[1..] && s[j].gvk.kind !in UNINSTALL ==>
      j < i
  {
    TablesMirror();
    UnlistedLast(INSTALL, s, i, j);
    UnlistedFirst(UNINSTALL, s, i, j);
  }

  /** Definitions are installed first and namespaces next, and they are removed in the reverse order, last. */
  lemma DefinitionsAndNamespaces(s: seq<Obj>, i: nat, j: nat)
    requires i < |s| && j < |s|
    ensures var a, b := s[i].gvk.kind, s[j].gvk.kind; Sorted(ScoreOf(InstallOrder), s) && a != b ==>
      (a == "CustomResourceDefinition" || (a == "Namespace" && b != "CustomResourceDefinition") ==> i < j)
    ensures var a, b := s[i].gvk.kind, s[j].gvk.kind; Sorted(ScoreOf(UninstallOrder), s) && a != b ==>
      (a == "CustomResourceDefinition" || (a == "Namespace" && b != "CustomResourceDefinition") ==> j < i)
  {
    TablesMirror();
    FirstTwo(INSTALL, s, i, j);
    LastTwo(UNINSTALL, s, i, j);
  }

  lemma FirstTwo(table: seq<string>, s: seq<Obj>, i: nat, j: nat)
    requires 1 < |table| < 1000 && Distinct(table) && i < |s| && j < |s|
    ensures var a, b := s[i].gvk.kind, s[j].gvk.kind; Sorted(Scorer(table, 1000), s) && a != b ==>
      (a == table[0] || (a == table[1] && b != table[0]) ==> i < j)
  {
    OrderOfRange(table);
    OrderOfDistinct(table);
    var a, b := s[i].gvk.kind, s[j].gvk.kind;
    if Sorted(Scorer(table, 1000), s) && a != b && (a == table[0] || (a == table[1] && b != table[0])) {
      if b in table {
        var p :| 0 <= p < |table| && table[p] == b;
      }
      SortedByScore(Scorer(table, 1000), s, i, j);
    }
  }

  lemma LastTwo(table: seq<string>, s: seq<Obj>, i: nat, j: nat)
    requires 2 < |table| && Distinct(table) && i < |s| && j < |s|
    ensures var a, b, n := s[i].gvk.kind, s[j].gvk.kind, |table|; Sorted(Scorer(table, 0), s) && a != b ==>
      (a == table[n - 1] || (a == table[n - 2] && b != table[n - 1]) ==> j < i)
  {
    OrderOfRange(table);
    OrderOfDistinct(table);
    var a, b, n := s[i].gvk.kind, s[j].gvk.kind, |table|;
    if Sorted(Scorer(table, 0), s) && a != b && (a == table[n - 1] || (a == table[n - 2] && b != table[n - 1])) {
      if b in table {
        var p :| 0 <= p < n && table[p] == b;
      }
      SortedByScore(Scorer(table, 0), s, i, j);
    }
  }

  lemma UnlistedLast(table: seq<string>, s: seq<Obj>, i: nat, j: nat)
    requires |table| < 1000 && i < |s| && j < |s|
    ensures Sorted(Scorer(table, 1000), s) && s[i].gvk.kind in table && s[j].gvk.kind !in table ==> i < j
  {
    OrderOfRange(table);
    if Sorted(Scorer(table, 1000), s) && s[i].gvk.kind in table && s[j].gvk.kind !in table {
      SortedByScore(Scorer(table, 1000), s, i, j);
    }
  }

  lemma UnlistedFirst(table: seq<string>, s: seq<Obj>, i: nat, j: nat)
    requires table != [] && Distinct(table) && i < |s| && j < |s|
    ensures Sorted(Scorer(table, 0), s) && s[i].gvk.kind in table[1..] && s[j].gvk.kind !in table ==> j < i
  {
    OrderOfRange(table);
    OrderOfDistinct(table);
    if Sorted(Scorer(table, 0), s) && s[i].gvk.kind in table[1..] && s[j].gvk.kind !in table {
      var p :| 0 < p < |table| && table[p] == s[i].gvk.kind;
      SortedByScore(Scorer(table, 0), s, i, j);
    }
  }

  lemma {:induction false} OrderOfRange(table: seq<string>)
    ensures forall kind :: kind in OrderOf(table) <==> kind in table
    ensures forall kind :: kind in table ==> 0 <= OrderOf(table)[kind] < |table|
  {
    if table != [] {
      OrderOfRange(table[..|table| - 1]);
      assert table == table[..|table| - 1] + [table[|table| - 1]];
    }
  }

  /** Objects of one score come out by group, within a group by kind, within a kind by name. Without a score, that is
      all there is to the order. */
  lemma TiesAreBroken(score: string -> int, s: seq<Obj>, i: nat, j: nat)
    requires Sorted(score, s) && i < j < |s|
    ensures score(s[i].gvk.kind) <= score(s[j].gvk.kind)
    ensures score(s[i].gvk.kind) == score(s[j].gvk.kind) ==>
      || Less(s[i].gvk.group, s[j].gvk.group)
      || (s[i].gvk.group == s[j].gvk.group
          && (Less(s[i].gvk.kind, s[j].gvk.kind)
              || (s[i].gvk.kind == s[j].gvk.kind && (Less(s[i].name, s[j].name) || s[i].name == s[j].name))))
    ensures ScoreOf(AnyOrder)(s[i].gvk.kind) == ScoreOf(AnyOrder)(s[j].gvk.kind)
  {
    assert !Before(score, s[j], s[i]);
    LessTotal(s[i].gvk.group, s[j].gvk.group);
    LessTotal(s[i].gvk.kind, s[j].gvk.kind);
    LessTotal(s[i].name, s[j].name);
  }

  /** A sort puts objects of different scores in the order of their scores. */
  lemma SortedByScore(score: string -> int, s: seq<Obj>, i: nat, j: nat)
    requires Sorted(score, s) && i < |s| && j < |s|
    requires score(s[i].gvk.kind) != score(s[j].gvk.kind)
    ensures i < j <==> score(s[i].gvk.kind) < score(s[j].gvk.kind)
  {
    if j < i {
      assert !Before(score, s[i], s[j]);
    }
  }

  lemma MirroredSorts(up: seq<string>, down: seq<string>, s: seq<Obj>, t: seq<Obj>, i: nat, j: nat, i': nat, j': nat)
    requires Mirrors(up, down)
    requires Sorted(Scorer(up, 1000), s) && Sorted(Scorer(down, 0), t)
    requires i < |s| && j < |s| && i' < |t| && j' < |t| && s[i] == t[i'] && s[j] == t[j']
    requires s[i].gvk.kind in up && s[j].gvk.kind in up && s[i].gvk.kind != s[j].gvk.kind
    ensures (i < j <==> j' < i') <==> !ServiceAndWorkload(up, s[i].gvk.kind, s[j].gvk.kind)
  {
    var p := PlaceOf(up, down, s[i].gvk.kind);
    var q := PlaceOf(up, down, s[j].gvk.kind);
    SortedByScore(Scorer(up, 1000), s, i, j);
    SortedByScore(Scorer(down, 0), t, i', j');
  }

  /** Removal undoes installation: any two objects of different kinds that the install table lists come out
      of the two sorts in opposite orders, except a Service and a workload, which keep theirs. */
  lemma UninstallReversesInstall(s: seq<Obj>, t: seq<Obj>, i: nat, j: nat, i': nat, j': nat)
    requires Sorted(ScoreOf(InstallOrder), s) && Sorted(ScoreOf(UninstallOrder), t)
    requires i < |s| && j < |s| && i' < |t| && j' < |t| && s[i] == t[i'] && s[j] == t[j']
    requires s[i].gvk.kind in INSTALL && s[j].gvk.kind in INSTALL && s[i].gvk.kind != s[j].gvk.kind
    ensures (i < j <==> j' < i') <==> !ServiceAndWorkload(INSTALL, s[i].gvk.kind, s[j].gvk.kind)
  {
    TablesMirror();
    MirroredSorts(INSTALL, UNINSTALL, s, t, i, j, i', j');
  }
}
