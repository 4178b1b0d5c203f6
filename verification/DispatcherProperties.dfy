/** What a whole run over the components looks like: how far it gets, what it starts, what it returns and what it
    leaves in the component statuses. */
module DispatcherProperties {
  import opened Objects
  import opened ResourceMachine
  import opened Results
  import opened Status
  import opened Dispatcher

  /** A component that asks neither for a repetition nor for a delay. */
  predicate NothingLeft(result: Option<Requeue>) {
    result == None || result == Some(Requeue(false, 0))
  }

  predicate PassedOver(c: Component, t: Turn) {
    c.hasStatus && t.skipped
  }

  /** The component's own Reconcile may start. */
  predicate MayStart(start: bool, c: Component, t: Turn) {
    !PassedOver(c, t) && t.deleting == Some(start)
  }

  /** The object's deletion state is not what it was at the start of the run. */
  predicate Flips(start: bool, c: Component, t: Turn) {
    !PassedOver(c, t) && t.deleting == Some(!start)
  }

  /** The loop ends with this turn. */
  predicate Stops(start: bool, c: Component, t: Turn) {
    !PassedOver(c, t) && (t.deleting != Some(start) || (t.failed && c.optional == Some(false)))
  }

  /** Nothing goes wrong in this turn. */
  predicate NoTrouble(start: bool, c: Component, t: Turn) {
    && (c.hasStatus ==> !t.firstUpdateFails)
    && (PassedOver(c, t) || (
        && t.deleting == Some(start) && !t.failed
        && (c.hasLifecycle ==> !t.finishFails)
        && (c.hasStatus && NothingLeft(t.result) ==> !t.lastUpdateFails)))
  }

  function When<T(!new)>(b: bool, x: T): (r: seq<T>)
    ensures forall y :: y in r <==> b && y == x
  {
    if b then [x] else []
  }

  /** The combined result is that of the sub-results so far. */
  predicate Sums(h: Handling) {
    h.combined == CombineAll(h.subs)
  }

  lemma PushSums(h: Handling, sub: Sub)
    requires Sums(h)
    ensures Sums(Push(h, sub))
  {
    var subs := h.subs + [sub];
    assert subs[..|subs| - 1] == h.subs;
  }

  /** A step of the loop leaves what came before and adds events and sub-results of its own. */
  predicate Adds(h: Handling, next: Handling, events: seq<Event>, subs: seq<Sub>) {
    && next.log == h.log + events && next.subs == h.subs + subs
    && next.seen == h.seen && next.stopped == h.stopped && next.fatal == h.fatal
    && (Sums(h) ==> Sums(next))
  }

  lemma AddsInTurn(h: Handling, mid: Handling, next: Handling, e: seq<Event>, f: seq<Event>, s: seq<Sub>, r: seq<Sub>)
    requires Adds(h, mid, e, s) && Adds(mid, next, f, r)
    ensures Adds(h, next, e + f, s + r)
  {
    assert h.log + e + f == h.log + (e + f) && h.subs + s + r == h.subs + (s + r);
  }

  lemma PushAdds(h: Handling, b: bool, sub: Sub)
    ensures Adds(h, if b then Push(h, sub) else h, [], When(b, sub))
  {
    if Sums(h) {
      PushSums(h, sub);
    }
  }

  lemma StatusAdds(h: Handling, b: bool, status: ReconcileStatus, fails: bool)
    ensures Adds(h, if b then WithStatus(h, status, fails) else h,
                 When(b && !fails, StatusSet(h.seen, status)), When(b && fails, Sub(None, Some(StatusUpdateFailed))))
  {
    if b && fails {
      PushAdds(h, true, Sub(None, Some(StatusUpdateFailed)));
    }
  }

  /** The outcome goes into the status, unless it must be repeated. */
  predicate Reported(c: Component, t: Turn) {
    c.hasStatus && (t.failed || NothingLeft(t.result))
  }

  function LastStatus(t: Turn): ReconcileStatus {
    if t.failed then Failed else if t.enabled then Available else Removed
  }

  function EventsOfReconcile(c: Component, t: Turn, i: nat): seq<Event> {
    [Reconciled(i)] + When(Reported(c, t) && !t.lastUpdateFails, StatusSet(i, LastStatus(t)))
  }

  function SubsOfReconcile(c: Component, t: Turn): seq<Sub> {
    When(Reported(c, t) && t.lastUpdateFails, Sub(None, Some(StatusUpdateFailed)))
    + When(c.hasLifecycle && t.finishFails, Sub(t.result, Some(FinishFailed)))
    + [Sub(t.result, ErrorOf(t))]
  }

  lemma AfterReconcileAdds(c: Component, t: Turn, h: Handling)
    ensures Adds(h, AfterReconcile(c, t, h), EventsOfReconcile(c, t, h.seen),
                 When(Reported(c, t) && t.lastUpdateFails, Sub(None, Some(StatusUpdateFailed))))
  {
    var h2 := h.(log := h.log + [Reconciled(h.seen)]);
    StatusAdds(h2, Reported(c, t), LastStatus(t), t.lastUpdateFails);
    AddsInTurn(h, h2, AfterReconcile(c, t, h), [Reconciled(h.seen)],
               When(Reported(c, t) && !t.lastUpdateFails, StatusSet(h.seen, LastStatus(t))),
               [], When(Reported(c, t) && t.lastUpdateFails, Sub(None, Some(StatusUpdateFailed))));
  }

  lemma FinishedAdds(c: Component, t: Turn, h: Handling)
    ensures Adds(h, Finished(c, t, h), EventsOfReconcile(c, t, h.seen), SubsOfReconcile(c, t))
  {
    var h3 := AfterReconcile(c, t, h);
    var late, last := Sub(t.result, Some(FinishFailed)), Sub(t.result, ErrorOf(t));
    var h4 := if c.hasLifecycle && t.finishFails then Push(h3, late) else h3;
    var lost := When(Reported(c, t) && t.lastUpdateFails, Sub(None, Some(StatusUpdateFailed)));
    AfterReconcileAdds(c, t, h);
    PushAdds(h3, c.hasLifecycle && t.finishFails, late);
    AddsInTurn(h, h3, h4, EventsOfReconcile(c, t, h.seen), [], lost, When(c.hasLifecycle && t.finishFails, late));
    PushAdds(h4, true, last);
    AddsInTurn(h, h4, Push(h4, last), EventsOfReconcile(c, t, h.seen) + [], [],
               lost + When(c.hasLifecycle && t.finishFails, late), [last]);
  }

  /** One turn's events. */
  function EventsOf(start: bool, c: Component, t: Turn, i: nat): seq<Event> {
    When(c.hasStatus && !t.firstUpdateFails, StatusSet(i, if t.skipped then Unmanaged else Reconciling))
    + if MayStart(start, c, t) then EventsOfReconcile(c, t, i) else []
  }

  /** One turn's sub-results. */
  function SubsOf(start: bool, c: Component, t: Turn): seq<Sub> {
    When(c.hasStatus && t.firstUpdateFails, Sub(None, Some(StatusUpdateFailed)))
    + if MayStart(start, c, t) then SubsOfReconcile(c, t)
      else When(Flips(start, c, t), Sub(Some(Requeue(true, 0)), Some(ObjectBeingDeleted)))
  }

  /** What a turn does once the first status is set, but for moving on. */
  function SecondHalf(start: bool, c: Component, t: Turn, h: Handling): Handling {
    if MayStart(start, c, t) then Finished(c, t, h)
    else if Flips(start, c, t) then Push(h, Sub(Some(Requeue(true, 0)), Some(ObjectBeingDeleted)))
    else h
  }

  lemma SecondHalfAdds(start: bool, c: Component, t: Turn, h: Handling)
    ensures Adds(h, SecondHalf(start, c, t, h),
                 if MayStart(start, c, t) then EventsOfReconcile(c, t, h.seen) else [],
                 if MayStart(start, c, t) then SubsOfReconcile(c, t)
                 else When(Flips(start, c, t), Sub(Some(Requeue(true, 0)), Some(ObjectBeingDeleted))))
  {
    if MayStart(start, c, t) {
      FinishedAdds(c, t, h);
    } else {
      PushAdds(h, Flips(start, c, t), Sub(Some(Requeue(true, 0)), Some(ObjectBeingDeleted)));
    }
  }

  /** A turn in two halves: the first status, and the rest. */
  lemma TurnInHalves(start: bool, c: Component, t: Turn, h: Handling)
    requires !h.stopped && !h.fatal
    ensures var first := if t.skipped then Unmanaged else Reconciling;
      var h1 := if c.hasStatus then WithStatus(h, first, t.firstUpdateFails) else h;
      TakeTurn(start, c, t, h) == SecondHalf(start, c, t, h1).(
        seen := h.seen + 1, stopped := Stops(start, c, t), fatal := !PassedOver(c, t) && t.deleting.None?)
  {
    if t.deleting.Some? && t.deleting.value != start {
      assert t.deleting == Some(!start);
    }
  }

  /** A turn adds the same events and sub-results whatever came before it. */
  lemma TurnAdds(start: bool, c: Component, t: Turn, h: Handling)
    requires !h.stopped && !h.fatal && Sums(h)
    ensures var next := TakeTurn(start, c, t, h);
      && next.log == h.log + EventsOf(start, c, t, h.seen) && next.subs == h.subs + SubsOf(start, c, t)
      && next.seen == h.seen + 1 && next.stopped == Stops(start, c, t)
      && next.fatal == (!PassedOver(c, t) && t.deleting.None?) && Sums(next)
  {
    var first := if t.skipped then Unmanaged else Reconciling;
    var h1 := if c.hasStatus then WithStatus(h, first, t.firstUpdateFails) else h;
    StatusAdds(h, c.hasStatus, first, t.firstUpdateFails);
    SecondHalfAdds(start, c, t, h1);
    AddsInTurn(h, h1, SecondHalf(start, c, t, h1),
               When(c.hasStatus && !t.firstUpdateFails, StatusSet(h.seen, first)),
               if MayStart(start, c, t) then EventsOfReconcile(c, t, h.seen) else [],
               When(c.hasStatus && t.firstUpdateFails, Sub(None, Some(StatusUpdateFailed))),
               if MayStart(start, c, t) then SubsOfReconcile(c, t)
               else When(Flips(start, c, t), Sub(Some(Requeue(true, 0)), Some(ObjectBeingDeleted))));
    TurnInHalves(start, c, t, h);
  }

  predicate Asks(start: bool, c: Component, t: Turn, r: Requeue) {
    (MayStart(start, c, t) && t.result == Some(r)) || (Flips(start, c, t) && r == Requeue(true, 0))
  }

  /** What one turn's sub-results ask for. */
  lemma TurnAsks(start: bool, c: Component, t: Turn)
    ensures forall r :: (exists s :: s in SubsOf(start, c, t) && s.result == Some(r)) <==> Asks(start, c, t, r)
  {
    var subs := SubsOf(start, c, t);
    if MayStart(start, c, t) {
      assert subs[|subs| - 1] == Sub(t.result, ErrorOf(t));
    } else if Flips(start, c, t) {
      assert subs[|subs| - 1] == Sub(Some(Requeue(true, 0)), Some(ObjectBeingDeleted));
    }
  }

  /** One turn's sub-results report an error iff something goes wrong in it. */
  lemma TurnReports(start: bool, c: Component, t: Turn)
    requires PassedOver(c, t) || t.deleting.Some?
    ensures (forall s :: s in SubsOf(start, c, t) ==> s.error.None?) <==> NoTrouble(start, c, t)
  {
    var subs := SubsOf(start, c, t);
    if !NoTrouble(start, c, t) {
      if c.hasStatus && t.firstUpdateFails {
        assert subs[0].error.Some?;
      } else if !MayStart(start, c, t) {
        assert t.deleting == Some(t.deleting.value);
        assert t.deleting.value == !start;
        assert subs[|subs| - 1].error.Some?;
      } else if t.failed {
        assert subs[|subs| - 1].error.Some?;
      } else if c.hasLifecycle && t.finishFails {
        assert subs[|subs| - 2].error.Some?;
      } else {
        assert subs[0].error.Some?;
      }
    }
  }

  /** The turns that came are a prefix of the order; the last of them is the first that stops the loop, if any
      does. Events come in that order, and a component's Reconcile starts in exactly the turns it may start in:
      never once the deletion state differs from that at the start. */
  predicate Shaped(start: bool, components: seq<Component>, turns: seq<Turn>, h: Handling)
    requires |components| == |turns|
  {
    && h.seen <= |turns| && (!h.stopped ==> h.seen == |turns|)
    && (forall i :: 0 <= i < h.seen - 1 ==> !Stops(start, components[i], turns[i]))
    && (h.stopped <==> h.seen > 0 && Stops(start, components[h.seen - 1], turns[h.seen - 1]))
    && (h.fatal <==> h.stopped && turns[h.seen - 1].deleting.None?)
    && (forall j, k :: 0 <= j < k < |h.log| ==> h.log[j].turn <= h.log[k].turn)
    && (forall e :: e in h.log ==> e.turn < h.seen)
    && (forall i :: 0 <= i < |turns| ==>
      (Reconciled(i) in h.log <==> i < h.seen && MayStart(start, components[i], turns[i])))
  }

  lemma LogGrows(log: seq<Event>, own: seq<Event>, n: nat)
    requires forall j, k :: 0 <= j < k < |log| ==> log[j].turn <= log[k].turn
    requires forall e :: e in log ==> e.turn < n
    requires forall e :: e in own ==> e.turn == n
    ensures forall j, k :: 0 <= j < k < |log + own| ==> (log + own)[j].turn <= (log + own)[k].turn
    ensures forall e :: e in log + own ==> e.turn <= n
    ensures forall i: nat :: Reconciled(i) in log + own <==>
      if i == n then Reconciled(i) in own else Reconciled(i) in log
  {
    var all := log + own;
    forall j, k | 0 <= j < k < |all| ensures all[j].turn <= all[k].turn {
      if k >= |log| {
        assert own[k - |log|] in own;
        if j < |log| { assert log[j] in log; } else { assert own[j - |log|] in own; }
      }
    }
    forall i: nat ensures Reconciled(i) in all <==> if i == n then Reconciled(i) in own else Reconciled(i) in log {
      assert Reconciled(i).turn == i;
    }
  }

  lemma OwnEvents(start: bool, c: Component, t: Turn, n: nat)
    ensures forall e :: e in EventsOf(start, c, t, n) ==> e.turn == n
    ensures Reconciled(n) in EventsOf(start, c, t, n) <==> MayStart(start, c, t)
  {
  }

  /** The run over all but the last component, and then the last unless the loop has ended. */
  lemma TurnsInTurn(start: bool, components: seq<Component>, turns: seq<Turn>, n: nat)
    requires |components| == |turns| == n + 1
    ensures var h := TakeTurns(start, components[..n], turns[..n]);
      TakeTurns(start, components, turns) == if h.stopped then h else TakeTurn(start, components[n], turns[n], h)
  {
  }

  lemma ShapedLonger(start: bool, components: seq<Component>, turns: seq<Turn>, n: nat, h: Handling)
    requires |components| == |turns| == n + 1 && Shaped(start, components[..n], turns[..n], h) && h.stopped
    ensures Shaped(start, components, turns, h)
  {
    assert forall i :: 0 <= i < n ==> components[..n][i] == components[i] && turns[..n][i] == turns[i];
    assert Reconciled(n) in h.log ==> Reconciled(n).turn < h.seen;
  }

  lemma ShapedNext(start: bool, components: seq<Component>, turns: seq<Turn>, n: nat, h: Handling, next: Handling)
    requires |components| == |turns| == n + 1 && Shaped(start, components[..n], turns[..n], h) && !h.stopped
    requires next.log == h.log + EventsOf(start, components[n], turns[n], n) && next.seen == n + 1
    requires next.stopped == Stops(start, components[n], turns[n])
    requires next.fatal == (!PassedOver(components[n], turns[n]) && turns[n].deleting.None?)
    ensures Shaped(start, components, turns, next)
  {
    OwnEvents(start, components[n], turns[n], n);
    LogGrows(h.log, EventsOf(start, components[n], turns[n], n), n);
    assert forall i :: 0 <= i < n ==> components[..n][i] == components[i] && turns[..n][i] == turns[i];
  }

  lemma {:induction false} RunShape(start: bool, components: seq<Component>, turns: seq<Turn>)
    requires |components| == |turns|
    ensures Shaped(start, components, turns, TakeTurns(start, components, turns))
    ensures TakeTurns(start, components, turns).combined == CombineAll(TakeTurns(start, components, turns).subs)
  {
    if turns != [] {
      var n := |turns| - 1;
      RunShape(start, components[..n], turns[..n]);
      TurnsInTurn(start, components, turns, n);
      ShapeGrows(start, components, turns, n, TakeTurns(start, components[..n], turns[..n]));
    }
  }

  lemma ShapeGrows(start: bool, components: seq<Component>, turns: seq<Turn>, n: nat, h: Handling)
    requires |components| == |turns| == n + 1 && Shaped(start, components[..n], turns[..n], h) && Sums(h)
    ensures var next := if h.stopped then h else TakeTurn(start, components[n], turns[n], h);
      Shaped(start, components, turns, next) && Sums(next)
  {
    if h.stopped {
      ShapedLonger(start, components, turns, n, h);
    } else {
      TurnAdds(start, components[n], turns[n], h);
      ShapedNext(start, components, turns, n, h, TakeTurn(start, components[n], turns[n], h));
    }
  }

  /** What the sub-results combined ask for, and whether one has an error, in terms of the turns that came. */
  ghost predicate Accounts(start: bool, components: seq<Component>, turns: seq<Turn>, seen: nat, subs: seq<Sub>)
    requires |components| == |turns| && seen <= |turns|
  {
    && (forall r :: (exists s :: s in subs && s.result == Some(r)) <==>
      (exists i :: 0 <= i < seen && Asks(start, components[i], turns[i], r)))
    && ((forall s :: s in subs ==> s.error.None?) <==>
      (forall i :: 0 <= i < seen ==> NoTrouble(start, components[i], turns[i])))
  }

  lemma AccountsNext(start: bool, components: seq<Component>, turns: seq<Turn>, n: nat, subs: seq<Sub>, own: seq<Sub>)
    requires |components| == |turns| && n == |turns| - 1 && Accounts(start, components[..n], turns[..n], n, subs)
    requires own == SubsOf(start, components[n], turns[n])
    requires (PassedOver(components[n], turns[n]) || turns[n].deleting.Some?)
    ensures Accounts(start, components, turns, n + 1, subs + own)
  {
    var c, t, all := components[n], turns[n], subs + own;
    TurnAsks(start, c, t);
    TurnReports(start, c, t);
    assert forall s :: s in all <==> s in subs || s in own;
    forall r
      ensures (exists s :: s in all && s.result == Some(r)) <==>
        (exists i :: 0 <= i < n + 1 && Asks(start, components[i], turns[i], r))
    {
      if s :| s in all && s.result == Some(r) {
        assert s in subs || Asks(start, c, t, r);
      }
      if i :| 0 <= i < n + 1 && Asks(start, components[i], turns[i], r) {
        if i < n {
          assert Asks(start, components[..n][i], turns[..n][i], r);
        }
      }
    }
    assert forall i :: 0 <= i < n ==> components[..n][i] == components[i] && turns[..n][i] == turns[i];
  }

  lemma {:induction false} SubsMean(start: bool, components: seq<Component>, turns: seq<Turn>)
    requires |components| == |turns| && !TakeTurns(start, components, turns).fatal
    ensures var h := TakeTurns(start, components, turns);
      h.seen <= |turns| && Accounts(start, components, turns, h.seen, h.subs)
  {
    RunShape(start, components, turns);
    if turns != [] {
      var n := |turns| - 1;
      TurnsInTurn(start, components, turns, n);
      RunShape(start, components[..n], turns[..n]);
      var h := TakeTurns(start, components[..n], turns[..n]);
      if !h.stopped {
        TurnAdds(start, components[n], turns[n], h);
      }
      SubsMean(start, components[..n], turns[..n]);
      AccountsGrow(start, components, turns, n, h);
    }
  }

  lemma AccountsGrow(start: bool, components: seq<Component>, turns: seq<Turn>, n: nat, h: Handling)
    requires |components| == |turns| == n + 1 && !h.fatal && h.seen <= n && (!h.stopped ==> h.seen == n) && Sums(h)
    requires Accounts(start, components[..n], turns[..n], h.seen, h.subs)
    requires !h.stopped ==> PassedOver(components[n], turns[n]) || turns[n].deleting.Some?
    ensures var next := if h.stopped then h else TakeTurn(start, components[n], turns[n], h);
      next.seen <= |turns| && Accounts(start, components, turns, next.seen, next.subs)
  {
    if h.stopped {
      AccountsLonger(start, components, turns, n, h.seen, h.subs);
    } else {
      TurnAdds(start, components[n], turns[n], h);
      AccountsNext(start, components, turns, n, h.subs, SubsOf(start, components[n], turns[n]));
    }
  }

  lemma AccountsLonger(start: bool, components: seq<Component>, turns: seq<Turn>, n: nat, seen: nat, subs: seq<Sub>)
    requires |components| == |turns| && seen <= n <= |turns| && Accounts(start, components[..n], turns[..n], seen, subs)
    ensures Accounts(start, components, turns, seen, subs)
  {
    assert forall i :: 0 <= i < seen ==> components[..n][i] == components[i] && turns[..n][i] == turns[i];
    forall r
      ensures (exists s :: s in subs && s.result == Some(r)) <==>
        (exists i :: 0 <= i < seen && Asks(start, components[i], turns[i], r))
    {
      if i :| 0 <= i < seen && Asks(start, components[i], turns[i], r) {
        assert Asks(start, components[..n][i], turns[..n][i], r);
      }
    }
  }

  /** A run that is not cut off by a metadata error asks for a requeue iff the deletion state flipped or a
      component asked for one; its delay is the least positive delay any component asked for, 0 if none did; and
      it reports an error iff something went wrong in a turn that came. */
  lemma ReturnedMeans(start: bool, components: seq<Component>, turns: seq<Turn>, h: Handling, c: Combined)
    requires |components| == |turns| && h == TakeTurns(start, components, turns) && !h.fatal && c == Returned(h)
    ensures h.seen <= |turns|
    ensures c.result.requeue <==> exists i :: 0 <= i < h.seen && AsksAgain(start, components[i], turns[i])
    ensures forall i :: 0 <= i < h.seen && AsksDelay(start, components[i], turns[i]) ==>
      0 < c.result.after <= turns[i].result.value.after
    ensures c.result.after == 0
      || exists i ::
        0 <= i < h.seen && AsksDelay(start, components[i], turns[i]) && turns[i].result.value.after == c.result.after
    ensures c.errors == [] <==> forall i :: 0 <= i < h.seen ==> NoTrouble(start, components[i], turns[i])
  {
    RunShape(start, components, turns);
    SubsMean(start, components, turns);
    AnswerMeans(start, components, turns, h.seen, h.subs, c);
  }

  lemma AnswerMeans(start: bool, components: seq<Component>, turns: seq<Turn>, seen: nat, subs: seq<Sub>, c: Combined)
    requires |components| == |turns| && seen <= |turns| && Accounts(start, components, turns, seen, subs)
    requires c == CombineAll(subs)
    ensures c.result.requeue <==> exists i :: 0 <= i < seen && AsksAgain(start, components[i], turns[i])
    ensures forall i :: 0 <= i < seen && AsksDelay(start, components[i], turns[i]) ==>
      0 < c.result.after <= turns[i].result.value.after
    ensures c.result.after == 0
      || exists i ::
        0 <= i < seen && AsksDelay(start, components[i], turns[i]) && turns[i].result.value.after == c.result.after
    ensures c.errors == [] <==> forall i :: 0 <= i < seen ==> NoTrouble(start, components[i], turns[i])
  {
    CombineAllMeans(subs);
    forall i | 0 <= i < seen && AsksAgain(start, components[i], turns[i]) ensures c.result.requeue {
      Asked(start, components, turns, seen, subs, i, if Flips(start, components[i], turns[i]) then Requeue(true, 0)
          else turns[i].result.value);
    }
    forall i | 0 <= i < seen && AsksDelay(start, components[i], turns[i])
      ensures 0 < c.result.after <= turns[i].result.value.after
    {
      Asked(start, components, turns, seen, subs, i, turns[i].result.value);
    }
    if c.result.requeue {
      var s :| s in subs && s.result.Some? && s.result.value.requeue;
      var i := Asker(start, components, turns, seen, subs, s);
      assert AsksAgain(start, components[i], turns[i]);
    }
    if c.result.after != 0 {
      var s :| s in subs && Delays(s) && s.result.value.after == c.result.after;
      var i := Asker(start, components, turns, seen, subs, s);
      assert AsksDelay(start, components[i], turns[i]);
    }
  }

  lemma Asked(start: bool, components: seq<Component>, turns: seq<Turn>, seen: nat, subs: seq<Sub>, i: nat, r: Requeue)
    requires |components| == |turns| && seen <= |turns| && Accounts(start, components, turns, seen, subs)
    requires i < seen && Asks(start, components[i], turns[i], r)
    ensures exists s :: s in subs && s.result == Some(r)
  {}

  lemma Asker(start: bool, components: seq<Component>, turns: seq<Turn>, seen: nat, subs: seq<Sub>, s: Sub)
    returns (i: nat)
    requires |components| == |turns| && seen <= |turns| && Accounts(start, components, turns, seen, subs)
    requires s in subs && s.result.Some?
    ensures i < seen && Asks(start, components[i], turns[i], s.result.value)
  {
    assert s.result == Some(s.result.value);
    i :| 0 <= i < seen && Asks(start, components[i], turns[i], s.result.value);
  }

  predicate AsksAgain(start: bool, c: Component, t: Turn) {
    Flips(start, c, t) || (MayStart(start, c, t) && t.result.Some? && t.result.value.requeue)
  }

  predicate AsksDelay(start: bool, c: Component, t: Turn) {
    MayStart(start, c, t) && t.result.Some? && t.result.value.after > 0
  }

  lemma FlipIsLast(start: bool, components: seq<Component>, turns: seq<Turn>, i: nat, h: Handling)
    requires |components| == |turns| && Shaped(start, components, turns, h)
    requires i < h.seen && Flips(start, components[i], turns[i])
    ensures i == h.seen - 1 && !h.fatal && forall k: nat :: k >= i ==> Reconciled(k) !in h.log
  {
    assert Stops(start, components[i], turns[i]) && !MayStart(start, components[i], turns[i]);
    forall k: nat | k >= i ensures Reconciled(k) !in h.log {
      assert Reconciled(k) in h.log ==> Reconciled(k).turn < h.seen;
    }
  }

  /** A flip of the deletion state in a turn that comes ends the run there: nothing starts from that turn on, an
      error is returned, and the object is requeued. */
  lemma FlipEndsTheRun(start: bool, components: seq<Component>, turns: seq<Turn>, i: nat, h: Handling, c: Combined)
    requires |components| == |turns| && h == TakeTurns(start, components, turns) && c == Returned(h)
    requires i < h.seen && i < |turns| && Flips(start, components[i], turns[i])
    ensures i == h.seen - 1 && forall k: nat :: k >= i ==> Reconciled(k) !in h.log
    ensures c.result.requeue && c.errors != []
  {
    RunShape(start, components, turns);
    FlipIsLast(start, components, turns, i, h);
    ReturnedMeans(start, components, turns, h, c);
    assert AsksAgain(start, components[i], turns[i]) && !NoTrouble(start, components[i], turns[i]);
  }

  // ----- statuses -----

  /** The component statuses once the events of `log` have been stored. */
  function Stored(log: seq<Event>, was: seq<ReconcileStatus>): (now: seq<ReconcileStatus>)
    ensures |now| == |was|
  {
    if log == [] then was
    else
      var now := Stored(log[..|log| - 1], was);
      match log[|log| - 1]
      case StatusSet(i, status) => if i < |now| then now[i := status] else now
      case Reconciled(_) => now
  }

  /** What a component's status says once its turn is over. */
  function Outcome(start: bool, t: Turn): ReconcileStatus {
    if t.skipped then Unmanaged
    else if t.deleting != Some(start) then Reconciling
    else if t.failed then Failed
    else if !NothingLeft(t.result) then Reconciling
    else if t.enabled then Available else Removed
  }

  predicate Reports(c: Component, t: Turn) {
    c.hasStatus && !t.firstUpdateFails && !t.lastUpdateFails
  }

  lemma {:induction false} StoredConcat(a: seq<Event>, b: seq<Event>, was: seq<ReconcileStatus>)
    ensures Stored(a + b, was) == Stored(b, Stored(a, was))
  {
    if b == [] {
      assert a + b == a;
    } else {
      assert (a + b)[..|a + b| - 1] == a + b[..|b| - 1];
      StoredConcat(a, b[..|b| - 1], was);
    }
  }

  lemma {:induction false} StoredElsewhere(log: seq<Event>, was: seq<ReconcileStatus>, i: nat)
    requires i < |was| && forall e :: e in log ==> e.turn != i
    ensures Stored(log, was)[i] == was[i]
  {
    if log != [] {
      assert log[|log| - 1] in log;
      StoredElsewhere(log[..|log| - 1], was, i);
    }
  }

  lemma WhenStored(b: bool, i: nat, status: ReconcileStatus, was: seq<ReconcileStatus>)
    requires i < |was|
    ensures Stored(When(b, StatusSet(i, status)), was) == if b then was[i := status] else was
    ensures Stored(When(b, Reconciled(i)), was) == was
  {
    if b {
      assert [StatusSet(i, status)][..0] == [] && [Reconciled(i)][..0] == [];
    }
  }

  lemma ReconcileStores(c: Component, t: Turn, i: nat, was: seq<ReconcileStatus>)
    requires i < |was|
    ensures Stored(EventsOfReconcile(c, t, i), was) == if Reported(c, t) && !t.lastUpdateFails
        then was[i := LastStatus(t)] else was
  {
    StoredConcat([Reconciled(i)], When(Reported(c, t) && !t.lastUpdateFails, StatusSet(i, LastStatus(t))), was);
    WhenStored(true, i, LastStatus(t), was);
    assert When(true, Reconciled(i)) == [Reconciled(i)];
    WhenStored(Reported(c, t) && !t.lastUpdateFails, i, LastStatus(t), was);
  }

  /** What a turn's events come to for the statuses. */
  function TurnStored(start: bool, c: Component, t: Turn, i: nat, was: seq<ReconcileStatus>): seq<ReconcileStatus>
    requires i < |was|
  {
    var was1 := if c.hasStatus && !t.firstUpdateFails then was[i := if t.skipped then Unmanaged else Reconciling]
        else was;
    if MayStart(start, c, t) && Reported(c, t) && !t.lastUpdateFails then was1[i := LastStatus(t)] else was1
  }

  lemma TurnStores(start: bool, c: Component, t: Turn, i: nat, was: seq<ReconcileStatus>)
    requires i < |was|
    ensures Stored(EventsOf(start, c, t, i), was) == TurnStored(start, c, t, i, was)
  {
    var b, first := c.hasStatus && !t.firstUpdateFails, if t.skipped then Unmanaged else Reconciling;
    var was1 := if b then was[i := first] else was;
    WhenStored(b, i, first, was);
    StoredConcat(When(b, StatusSet(i, first)), if MayStart(start, c, t) then EventsOfReconcile(c, t, i) else [], was);
    ReconcileStores(c, t, i, was1);
  }

  /** So after a turn that reports, the component shows its outcome, and no other component's status has changed. */
  lemma TurnShows(start: bool, c: Component, t: Turn, i: nat, was: seq<ReconcileStatus>)
    requires i < |was|
    ensures forall k :: 0 <= k < |was| && k != i ==> TurnStored(start, c, t, i, was)[k] == was[k]
    ensures Reports(c, t) ==> TurnStored(start, c, t, i, was)[i] == Outcome(start, t)
  {
  }

  predicate Shows(start: bool, components: seq<Component>, turns: seq<Turn>, seen: nat, was: seq<ReconcileStatus>,
                  now: seq<ReconcileStatus>)
    requires |components| == |turns| && |was| == |now| && |turns| <= |was| && seen <= |turns|
  {
    && (forall i :: 0 <= i < seen && Reports(components[i], turns[i]) ==> now[i] == Outcome(start, turns[i]))
    && (forall i :: seen <= i < |was| ==> now[i] == was[i])
  }

  /** After the run, every component whose turn came and whose updates succeeded shows its outcome, and every
      component whose turn did not come shows what it showed before. */
  lemma {:induction false} StatusesAreOutcomes(start: bool, components: seq<Component>, turns: seq<Turn>,
      was: seq<ReconcileStatus>, h: Handling)
    requires |components| == |turns| <= |was| && h == TakeTurns(start, components, turns)
    ensures h.seen <= |turns| && Shows(start, components, turns, h.seen, was, Stored(h.log, was))
  {
    var n := |turns| - 1;
    RunShape(start, components, turns);
    if turns != [] {
      RunShape(start, components[..n], turns[..n]);
      TurnsInTurn(start, components, turns, n);
      var h0 := TakeTurns(start, components[..n], turns[..n]);
      StatusesAreOutcomes(start, components[..n], turns[..n], was, h0);
      ShowsGrow(start, components, turns, n, was, h0, h);
    }
  }

  lemma ShowsGrow(start: bool, components: seq<Component>, turns: seq<Turn>, n: nat, was: seq<ReconcileStatus>,
                  h0: Handling, h: Handling)
    requires |components| == |turns| == n + 1 <= |was| && h0.seen <= n && (!h0.stopped ==> h0.seen == n && !h0.fatal)
    requires Sums(h0)
    requires Shows(start, components[..n], turns[..n], h0.seen, was, Stored(h0.log, was))
    requires h == if h0.stopped then h0 else TakeTurn(start, components[n], turns[n], h0)
    ensures h.seen <= |turns| && Shows(start, components, turns, h.seen, was, Stored(h.log, was))
  {
    if !h0.stopped {
      TurnAdds(start, components[n], turns[n], h0);
      StoredConcat(h0.log, EventsOf(start, components[n], turns[n], n), was);
      TurnStores(start, components[n], turns[n], n, Stored(h0.log, was));
      TurnShows(start, components[n], turns[n], n, Stored(h0.log, was));
    }
    ShowsNext(start, components, turns, n, h0.seen, was, Stored(h0.log, was), h, Stored(h.log, was));
  }

  lemma ShowsNext(start: bool, components: seq<Component>, turns: seq<Turn>, n: nat, seen: nat,
                  was: seq<ReconcileStatus>, mid: seq<ReconcileStatus>, h: Handling, now: seq<ReconcileStatus>)
    requires |components| == |turns| == n + 1 <= |was| && |was| == |mid| == |now| && seen <= n
    requires Shows(start, components[..n], turns[..n], seen, was, mid)
    requires (h.seen == seen && now == mid) || (seen == n && h.seen == n + 1
      && (forall k :: 0 <= k < |was| && k != n ==> now[k] == mid[k])
      && (Reports(components[n], turns[n]) ==> now[n] == Outcome(start, turns[n])))
    ensures Shows(start, components, turns, h.seen, was, now)
  {
    assert forall i :: 0 <= i < n ==> components[..n][i] == components[i] && turns[..n][i] == turns[i];
  }

  /** When every component has a status, no status update fails and every turn comes without a flip, aggregating the
      stored statuses gives the verdict on the run: success iff every component was skipped or finished with no
      error and nothing left to repeat, failure iff some component failed, and otherwise work in progress. */
  lemma AggregateMatchesRun(start: bool, components: seq<Component>, turns: seq<Turn>, was: seq<ReconcileStatus>,
                            h: Handling, stored: seq<ReconcileStatus>)
    requires |components| == |turns| == |was| == h.seen && h == TakeTurns(start, components, turns)
    requires stored == Stored(h.log, was)
    requires forall i :: 0 <= i < |turns| ==>
      Reports(components[i], turns[i]) && (turns[i].skipped || turns[i].deleting == Some(start))
    ensures Aggregate(stored) == Succeeded <==> forall i :: 0 <= i < |turns| ==>
      turns[i].skipped || (!turns[i].failed && NothingLeft(turns[i].result))
    ensures Aggregate(stored) == Failed <==> exists i :: 0 <= i < |turns| && !turns[i].skipped && turns[i].failed
    ensures Aggregate(stored) in {Succeeded, Failed, Reconciling}
  {
    StatusesAreOutcomes(start, components, turns, was, h);
    AggregateOutcomes(start, turns, stored);
  }

  lemma AggregateOutcomes(start: bool, turns: seq<Turn>, stored: seq<ReconcileStatus>)
    requires |stored| == |turns| && forall i :: 0 <= i < |turns| ==> stored[i] == Outcome(start, turns[i])
    requires forall i :: 0 <= i < |turns| ==> turns[i].skipped || turns[i].deleting == Some(start)
    ensures Aggregate(stored) == Succeeded <==> forall i :: 0 <= i < |turns| ==>
      turns[i].skipped || (!turns[i].failed && NothingLeft(turns[i].result))
    ensures Aggregate(stored) == Failed <==> exists i :: 0 <= i < |turns| && !turns[i].skipped && turns[i].failed
  {
    forall i | 0 <= i < |turns|
      ensures (stored[i] == Failed <==> !turns[i].skipped && turns[i].failed)
        && (stored[i].Unset? || stored[i].Stable() <==>
          turns[i].skipped || (!turns[i].failed && NothingLeft(turns[i].result)))
        && stored[i] in stored
    {}
  }
}
