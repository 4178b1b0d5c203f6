/** Running many components on one object (Dispatcher.Handle). */
module Dispatcher {
  import opened Objects
  import opened ResourceMachine
  import opened Results
  import opened Sort
  import opened Status

  /** Which optional interfaces a component has. `optional` is the answer of IsOptional, if it has one. */
  datatype Component = Component(hasStatus: bool, hasLifecycle: bool, optional: Option<bool>)

  /** What happens when a component's turn comes: its answers, and whether the object is then being deleted
      (`None`: its metadata cannot be accessed). */
  datatype Turn = Turn(
    skipped: bool,
    enabled: bool,
    firstUpdateFails: bool,
    deleting: Option<bool>,
    result: Option<Requeue>,
    failed: bool,
    lastUpdateFails: bool,
    finishFails: bool)

  datatype Event = StatusSet(turn: nat, status: ReconcileStatus) | Reconciled(turn: nat)

  /** `seen` turns have come; `subs` are the sub-results combined so far; `stopped` ends the loop, `fatal` drops
      the combined result. */
  datatype Handling = Handling(seen: nat, subs: seq<Sub>, combined: Combined, log: seq<Event>, stopped: bool,
                               fatal: bool)

  const BEGIN: Handling := Handling(0, [], NOTHING, [], false, false)

  function Push(h: Handling, sub: Sub): Handling {
    h.(subs := h.subs + [sub], combined := WithSub(h.combined, sub))
  }

  function Reversed<T>(s: seq<T>): (r: seq<T>)
    ensures |r| == |s| && forall i :: 0 <= i < |s| ==> r[i] == s[|s| - 1 - i]
  {
    if s == [] then [] else [s[|s| - 1]] + Reversed(s[..|s| - 1])
  }

  /** ComponentReconcilers.Get: backwards for removal only. */
  function Ordered<T>(components: seq<T>, order: ResourceOrder): seq<T> {
    if order == UninstallOrder then Reversed(components) else components
  }

  method Get<T>(components: seq<T>, order: ResourceOrder) returns (r: seq<T>)
    ensures r == Ordered(components, order)
  {
    if order != UninstallOrder {
      return components;
    }
    r := [];
    var i := |components| - 1;
    while i >= 0
      invariant -1 <= i < |components|
      invariant |r| == |components| - 1 - i
      invariant forall j :: 0 <= j < |r| ==> r[j] == components[|components| - 1 - j]
    {
      r := r + [components[i]];
      i := i - 1;
    }
  }

  function OrderFor(deleting: bool, force: Option<ResourceOrder>): ResourceOrder {
    if force.Some? then force.value else if deleting then UninstallOrder else InstallOrder
  }

  /** The order in which components have their turns: backwards if that order is forced, or if none is and the object
      is being deleted; as they are listed otherwise. */
  ghost predicate ComesInTurn(components: seq<Component>, deleting: bool, force: Option<ResourceOrder>,
                              order: seq<Component>) {
    && |order| == |components|
    && forall i :: 0 <= i < |order| ==>
         order[i] == components[if force == Some(UninstallOrder) || (force == None && deleting) then |order| - 1 - i
                                else i]
  }

  lemma OrderIsChosen(components: seq<Component>, deleting: bool, force: Option<ResourceOrder>)
    ensures ComesInTurn(components, deleting, force, Ordered(components, OrderFor(deleting, force)))
  {
  }

  predicate Settles(result: Option<Requeue>) {
    result.None? || (!result.value.requeue && result.value.after == 0)
  }

  function WithStatus(h: Handling, status: ReconcileStatus, fails: bool): Handling {
    if fails then Push(h, Sub(None, Some(StatusUpdateFailed)))
    else h.(log := h.log + [StatusSet(h.seen, status)])
  }

  function ErrorOf(t: Turn): Option<Error> {
    if t.failed then Some(HookFailed) else None
  }

  /** Reconcile has run; its outcome goes into the status, unless it must be repeated. */
  function AfterReconcile(c: Component, t: Turn, h: Handling): Handling {
    var h2 := h.(log := h.log + [Reconciled(h.seen)]);
    if !c.hasStatus then h2
    else if t.failed then WithStatus(h2, Failed, t.lastUpdateFails)
    else if Settles(t.result) then WithStatus(h2, if t.enabled then Available else Removed, t.lastUpdateFails)
    else h2
  }

  /** A failing notification combines the result once more, with its own error. */
  function Finished(c: Component, t: Turn, h: Handling): Handling {
    var h3 := AfterReconcile(c, t, h);
    var h4 := if c.hasLifecycle && t.finishFails then Push(h3, Sub(t.result, Some(FinishFailed))) else h3;
    Push(h4, Sub(t.result, ErrorOf(t)))
  }

  /** One turn of the loop. */
  function TakeTurn(start: bool, c: Component, t: Turn, h: Handling): Handling {
    var h1 := if c.hasStatus then WithStatus(h, if t.skipped then Unmanaged else Reconciling, t.firstUpdateFails)
        else h;
    if c.hasStatus && t.skipped then h1.(seen := h.seen + 1)
    else if t.deleting.None? then h1.(seen := h.seen + 1, stopped := true, fatal := true)
    else if t.deleting.value != start then
      Push(h1, Sub(Some(Requeue(true, 0)), Some(ObjectBeingDeleted))).(seen := h.seen + 1, stopped := true)
    else
      Finished(c, t, h1).(seen := h.seen + 1, stopped := c.optional.Some? && t.failed && !c.optional.value)
  }

  /** The loop, up to the first stop. */
  function TakeTurns(start: bool, components: seq<Component>, turns: seq<Turn>): Handling
    requires |components| == |turns|
  {
    if turns == [] then BEGIN
    else
      var h := TakeTurns(start, components[..|turns| - 1], turns[..|turns| - 1]);
      if h.stopped then h else TakeTurn(start, components[|turns| - 1], turns[|turns| - 1], h)
  }

  /** What Handle returns: nothing of the combined result survives a metadata error. */
  function Returned(h: Handling): Combined {
    if h.fatal then Combined(Requeue(false, 0), [HookFailed]) else h.combined
  }

  class Handler {
    const components: seq<Component>
    const force: Option<ResourceOrder>
    var log: seq<Event>

    constructor (components: seq<Component>, force: Option<ResourceOrder>)
      ensures this.components == components && this.force == force && log == []
    {
      this.components, this.force, log := components, force, [];
    }

    method Update(turn: nat, status: ReconcileStatus, fails: bool, combined: CombinedResult)
      modifies this`log, combined
      ensures log == if fails then old(log) else old(log) + [StatusSet(turn, status)]
      ensures combined.Value() == if fails then WithSub(old(combined.Value()), Sub(None, Some(StatusUpdateFailed)))
          else old(combined.Value())
    {
      if fails {
        combined.CombineErr(Some(StatusUpdateFailed));
      } else {
        log := log + [StatusSet(turn, status)];
      }
    }

    /** One turn: status, deletion check, reconcile, status, notification. */
    method RunTurn(i: nat, start: bool, c: Component, t: Turn, combined: CombinedResult, ghost h: Handling)
      returns (stop: bool, fatal: bool)
      requires i == h.seen && log == h.log && combined.Value() == h.combined && !h.stopped && !h.fatal
      modifies this`log, combined
      ensures var next := TakeTurn(start, c, t, h);
        log == next.log && stop == next.stopped && fatal == next.fatal && combined.Value() == next.combined
    {
      if c.hasStatus {
        Update(i, if t.skipped then Unmanaged else Reconciling, t.firstUpdateFails, combined);
        if t.skipped {
          return false, false;
        }
      }
      if t.deleting.None? {
        return true, true;
      }
      ghost var h1 := if c.hasStatus then WithStatus(h, Reconciling, t.firstUpdateFails) else h;
      if t.deleting.value != start {
        combined.Combine(Some(Requeue(true, 0)), Some(ObjectBeingDeleted));
        return true, false;
      }
      Finish(i, c, t, combined, h1);
      return c.optional.Some? && t.failed && !c.optional.value, false;
    }

    /** The second half of a turn, from the component's Reconcile on. */
    method Finish(i: nat, c: Component, t: Turn, combined: CombinedResult, ghost h: Handling)
      requires i == h.seen && log == h.log && combined.Value() == h.combined
      modifies this`log, combined
      ensures var done := Finished(c, t, h); log == done.log && combined.Value() == done.combined
    {
      log := log + [Reconciled(i)];
      if c.hasStatus {
        if t.failed {
          Update(i, Failed, t.lastUpdateFails, combined);
        } else if Settles(t.result) {
          Update(i, if t.enabled then Available else Removed, t.lastUpdateFails, combined);
        }
      }
      if c.hasLifecycle && t.finishFails {
        combined.Combine(t.result, Some(FinishFailed));
      }
      combined.Combine(t.result, ErrorOf(t));
    }

    /** Handle. The i-th of `turns` is what happens at the i-th turn of the chosen order. */
    method Handle(deleting: Option<bool>, turns: seq<Turn>) returns (result: Requeue, errors: seq<Error>,
                  ghost h: Handling)
      requires |turns| == |components| && log == []
      modifies this`log
      ensures deleting.None? ==> result == Requeue(false, 0) && errors != [] && log == []
      ensures deleting.Some? ==>
        && h == TakeTurns(deleting.value, Ordered(components, OrderFor(deleting.value, force)), turns)
        && log == h.log && Combined(result, errors) == Returned(h)
      ensures deleting.Some? ==> ComesInTurn(components, deleting.value, force,
                                             Ordered(components, OrderFor(deleting.value, force)))
    {
      if deleting.None? {
        return Requeue(false, 0), [HookFailed], BEGIN;
      }
      var order := Get(components, OrderFor(deleting.value, force));
      OrderIsChosen(components, deleting.value, force);
      result, errors, h := Dispatch(deleting.value, order, turns);
    }

    /** The loop over the chosen order. */
    method Dispatch(start: bool, order: seq<Component>, turns: seq<Turn>)
      returns (result: Requeue, errors: seq<Error>, ghost h: Handling)
      requires |turns| == |order| && log == []
      modifies this`log
      ensures h == TakeTurns(start, order, turns) && log == h.log && Combined(result, errors) == Returned(h)
    {
      h := BEGIN;
      var combined := new CombinedResult();
      for i := 0 to |order|
        invariant |order| == |turns| && fresh(combined)
        invariant h == TakeTurns(start, order[..i], turns[..i]) && !h.stopped && !h.fatal && h.seen == i
        invariant log == h.log && combined.Value() == h.combined
      {
        TurnsExtend(start, order, turns, i);
        var stop, fatal := RunTurn(i, start, order[i], turns[i], combined, h);
        h := TakeTurn(start, order[i], turns[i], h);
        if stop {
          StoppedStays(start, order, turns, i + 1);
          if fatal {
            return Requeue(false, 0), [HookFailed], h;
          }
          return combined.result, combined.errors, h;
        }
      }
      assert order[..|order|] == order && turns[..|order|] == turns;
      return combined.result, combined.errors, h;
    }
  }

  lemma TurnsExtend(start: bool, components: seq<Component>, turns: seq<Turn>, i: nat)
    requires |components| == |turns| && i < |turns| && !TakeTurns(start, components[..i], turns[..i]).stopped
    ensures TakeTurns(start, components[..i + 1], turns[..i + 1])
      == TakeTurn(start, components[i], turns[i], TakeTurns(start, components[..i], turns[..i]))
  {
    assert components[..i + 1][..i] == components[..i] && turns[..i + 1][..i] == turns[..i];
  }

  /** Nothing happens after a stop. */
  lemma {:induction false} StoppedStays(start: bool, components: seq<Component>, turns: seq<Turn>, i: nat)
    requires |components| == |turns| && i <= |turns| && TakeTurns(start, components[..i], turns[..i]).stopped
    ensures TakeTurns(start, components, turns) == TakeTurns(start, components[..i], turns[..i])
  {
    if i == |turns| {
      assert components[..i] == components && turns[..i] == turns;
    } else {
      var n := |turns| - 1;
      assert components[..n][..i] == components[..i] && turns[..n][..i] == turns[..i];
      StoppedStays(start, components[..n], turns[..n], i);
    }
  }
}
