/** Component statuses and their aggregation (types.ReconcileStatus, AggregatedState). */
module Status {
  datatype ReconcileStatus = Unset | Failed | Reconciling | Available | Unmanaged | Removed | Succeeded | Pending {
    predicate Stable() {
      Unmanaged? || Removed? || Available?
    }
  }

  /** AggregatedState: a map of the statuses seen and a flag for unstable ones, then the decision. */
  method AggregatedState(statuses: seq<ReconcileStatus>) returns (overall: ReconcileStatus)
    ensures overall == Succeeded <==> forall s :: s in statuses ==> s.Unset? || s.Stable()
    ensures overall == Failed <==> Failed in statuses
    ensures overall == Succeeded || overall == Failed || overall == Reconciling
    ensures overall == Aggregate(statuses)
  {
    overall := Reconciling;
    var seen: set<ReconcileStatus> := {};
    var hasUnstable := false;
    for i := 0 to |statuses|
      invariant forall s :: s in seen <==> s in statuses[..i] && !s.Unset?
      invariant hasUnstable <==> exists s :: s in statuses[..i] && !(s.Unset? || s.Stable())
    {
      var cs := statuses[i];
      assert statuses[..i + 1] == statuses[..i] + [cs];
      if !cs.Unset? {
        seen := seen + {cs};
      }
      if !(cs.Unset? || cs.Stable()) {
        hasUnstable := true;
      }
    }
    assert statuses[..|statuses|] == statuses;
    if Failed in seen {
      overall := Failed;
    } else if Reconciling in seen {
      overall := Reconciling;
    }
    if !hasUnstable {
      overall := Succeeded;
    }
  }

  /** The same as a value: success needs every status unset or stable, a failure wins over the rest. */
  function Aggregate(statuses: seq<ReconcileStatus>): ReconcileStatus {
    if Failed in statuses then Failed
    else if exists s | s in statuses :: !(s.Unset? || s.Stable()) then Reconciling
    else Succeeded
  }
}
