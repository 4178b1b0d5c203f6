/** What a successful reconciliation leaves in the cluster, and why a second one has nothing to do. The states
    are the ones the library builds itself: static, wrapped with its three update hooks, and stacks of these. */
module Convergence {
  import opened Objects
  import opened Cluster
  import opened DesiredStates
  import opened ResourceMachine
  import opened ResourceProperties

  /** The content an update of a live object asks for. */
  ghost function Goal(ds: DesiredState, current: Content, desired: Content): Option<Content> {
    var m := MergeMeta(current, desired);
    if Hooked(ds) then StandardUpdate(current, m) else Some(m)
  }

  /** What can be stored after success: the admitted desired content when nothing was there, otherwise the
      updated or recreated goal. */
  ghost predicate Landed(ds: DesiredState, before: Option<Content>, desired: Content, after: Content) {
    match before
    case None => exists a :: after == Admit(desired, a)
    case Some(c) =>
      && Goal(ds, c, desired).Some?
      && (after == Retain(c, Goal(ds, c, desired).value) || exists a :: after == Admit(Goal(ds, c, desired).value, a))
  }

  /** Static states cannot tell fields the cluster filled in from a difference; the library's hooks can. */
  ghost predicate AllocationSafe(ds: DesiredState, body: Body) {
    Hooked(ds) || !(body.ServiceAccountBody? || (body.ServiceBody? && body.clusterIP == ""))
  }

  /** A stored body carries the desired one: equal but for the fields the cluster fills in. */
  predicate Carries(stored: Body, desired: Body) {
    match desired
    case ServiceBody(ip, ips, spec) =>
      stored.ServiceBody? && stored.spec == spec && (ip != "" ==> stored.clusterIP == ip && stored.clusterIPs == ips)
    case ServiceAccountBody(_, spec) => stored.ServiceAccountBody? && stored.spec == spec
    case _ => stored == desired
  }

  /** Labels and annotations of a goal: the live ones overridden by the desired ones, minus the component
      annotation if the live object did not have it. */
  lemma GoalMeta(ds: DesiredState, c: Content, d: Content)
    requires Goal(ds, c, d).Some?
    ensures var g := Goal(ds, c, d).value; var m := MergeMeta(c, d);
      && g.labels == m.labels && g.annotations == m.annotations && g.controller == d.controller
      && Carries(g.body, d.body)
  {
    var m := MergeMeta(c, d);
    assert c.labels + m.labels == m.labels;
    assert c.annotations + m.annotations == m.annotations;
    if Hooked(ds) {
      StandardUpdateIs(c, m);
      BodyIsCarried(c.body, d.body);
    }
  }

  lemma BodyIsCarried(c: Body, d: Body)
    requires StandardBody(c, d).Some?
    ensures Carries(StandardBody(c, d).value, d)
  {
  }

  /** Merging is stable: repeating the merge against its own result, with the original or with the merged
      desired metadata, with or without the component annotation added again, changes nothing. */
  lemma MergeAgain(c: Content, d: Content, r: Content, again: Content)
    requires r.labels == MergeMeta(c, d).labels && r.annotations == MergeMeta(c, d).annotations
    requires again.labels == d.labels || again.labels == r.labels
    requires again.annotations - {MANAGED_COMPONENT} == d.annotations - {MANAGED_COMPONENT}
      || again.annotations - {MANAGED_COMPONENT} == r.annotations - {MANAGED_COMPONENT}
    requires MANAGED_COMPONENT in r.annotations && MANAGED_COMPONENT in again.annotations ==>
      again.annotations[MANAGED_COMPONENT] == r.annotations[MANAGED_COMPONENT]
    ensures MergeMeta(r, again).labels == r.labels && MergeMeta(r, again).annotations == r.annotations
  {
    assert r.labels + again.labels == r.labels;
    var merged := MergeMeta(r, again).annotations;
    forall k | k in merged
      ensures k in r.annotations && merged[k] == r.annotations[k]
    {
      if k != MANAGED_COMPONENT && k in again.annotations {
        assert k in again.annotations - {MANAGED_COMPONENT};
        if again.annotations - {MANAGED_COMPONENT} == d.annotations - {MANAGED_COMPONENT} {
          assert (d.annotations - {MANAGED_COMPONENT})[k] == (again.annotations - {MANAGED_COMPONENT})[k];
        } else {
          assert (r.annotations - {MANAGED_COMPONENT})[k] == (again.annotations - {MANAGED_COMPONENT})[k];
        }
      }
    }
    assert merged.Keys == r.annotations.Keys;
  }

  /** A desired content that says again what was stored: the desired content of the first time, or the one the
      first reconciliation left in memory, give or take a component annotation added anew. */
  ghost predicate Restates(again: Content, desired: Content, stored: Content) {
    && (again.labels == desired.labels || again.labels == stored.labels)
    && (|| again.annotations - {MANAGED_COMPONENT} == desired.annotations - {MANAGED_COMPONENT}
        || again.annotations - {MANAGED_COMPONENT} == stored.annotations - {MANAGED_COMPONENT})
    && (MANAGED_COMPONENT in stored.annotations && MANAGED_COMPONENT in again.annotations ==>
          again.annotations[MANAGED_COMPONENT] == stored.annotations[MANAGED_COMPONENT])
    && again.controller == desired.controller
    && (again.body == desired.body || again.body == stored.body)
  }

  lemma LandedMeta(ds: DesiredState, before: Option<Content>, d: Content, after: Content)
    requires Landed(ds, before, d, after)
    ensures var c := if before.Some? then before.value else d;
      && after.labels == MergeMeta(c, d).labels && after.annotations == MergeMeta(c, d).annotations
      && after.controller == d.controller
  {
    match before
    case None =>
      assert d.labels + d.labels == d.labels && d.annotations + d.annotations == d.annotations;
      if MANAGED_COMPONENT !in d.annotations {
        assert d.annotations - {MANAGED_COMPONENT} == d.annotations;
      }
    case Some(c) => GoalMeta(ds, c, d);
  }

  /** The stored body carries the desired one, whatever the cluster filled in. */
  lemma LandedCarries(ds: DesiredState, before: Option<Content>, d: Content, after: Content)
    requires Landed(ds, before, d, after)
    ensures Carries(after.body, d.body)
  {
    if before.Some? {
      GoalMeta(ds, before.value, d);
    }
  }

  lemma BodyAgain(ds: DesiredState, before: Option<Content>, d: Content, after: Content, again: Body)
    requires Landed(ds, before, d, after) && AllocationSafe(ds, d.body)
    requires again == d.body || again == after.body
    ensures if Hooked(ds) then StandardBody(after.body, again) == Some(after.body) else again == after.body
  {
    if before.Some? {
      StandardUpdateIs(before.value, MergeMeta(before.value, d));
    }
  }

  lemma GoalAgain(ds: DesiredState, after: Content, again: Content)
    requires MergeMeta(after, again).labels == after.labels && MergeMeta(after, again).annotations == after.annotations
    requires again.controller == after.controller
    requires if Hooked(ds) then StandardBody(after.body, again.body) == Some(after.body) else again.body == after.body
    ensures Goal(ds, after, again) == Some(after)
  {
    var m := MergeMeta(after, again);
    if Hooked(ds) {
      StandardUpdateIs(after, m);
      assert after.labels + m.labels == after.labels && after.annotations + m.annotations == after.annotations;
    }
  }

  /** After a success the live object is exactly what the next update would ask for. */
  lemma LandedIsStable(ds: DesiredState, before: Option<Content>, d: Content, after: Content, again: Content)
    requires Landed(ds, before, d, after) && AllocationSafe(ds, d.body)
    requires Restates(again, d, after)
    ensures Goal(ds, after, again) == Some(after)
  {
    LandedMeta(ds, before, d, after);
    MergeAgain(if before.Some? then before.value else d, d, after, again);
    BodyAgain(ds, before, d, after, again.body);
    GoalAgain(ds, after, again);
  }

  /** The live state against which a desired content needs no write at all. */
  ghost predicate InSync(ds: DesiredState, live: Option<Stored>, d: Content) {
    match Resolve(ds)
    case CreateOnly => live.Some?
    case Remove => live.None?
    case Converge => live.Some? && !live.value.deleting && Goal(ds, live.value.content, d) == Some(live.value.content)
  }

  function Live(s: Server, key: Key): Option<Stored> {
    if key in s.live then Some(s.live[key]) else None
  }

  /** An object in sync is not written to, whatever the API server answers. */
  lemma InSyncWritesNothing(env: Env, opts: Options, s: Server, d: Obj, ds: DesiredState)
    requires Plain(ds) && InSync(ds, Live(s, d.Id()), d.content)
    ensures var s' := ReconcileResource(env, opts, s, d, ds).server;
      s'.live == s.live && s'.log == s.log && s.calls <= s'.calls
  {
    var (s1, got) := GetCall(env, s, d.gvk, d.Id());
    if Resolve(ds) == Converge && got.Ok? {
      var current := Current(Filled(d, got.value), false, false);
      PlainUpdate(env, opts, s1, current, d, ds);
    }
  }

  /** How a plain state updates a live object. */
  lemma PlainUpdate(env: Env, opts: Options, s: Server, current: Current, d: Obj, ds: DesiredState)
    requires Plain(ds) && !current.aliased
    ensures var goal := Goal(ds, current.obj.content, d.content);
      var m := d.(content := MergeMeta(current.obj.content, d.content));
      UpdateExisting(env, opts, s, current, d, ds) ==
        if goal.None? then Outcome(s, m, None, Some(HookFailed))
        else if goal.value == current.obj.content then Outcome(s, d.(content := goal.value), None, None)
        else SendUpdate(env, opts, s, d.(content := goal.value, rv := current.obj.rv), ds)
  {
    PlainHooks(ds, current.obj, d.(content := MergeMeta(current.obj.content, d.content)));
  }

  /** What a success means for the object, given what was live before. */
  ghost predicate Settled(ds: DesiredState, before: Option<Stored>, d: Obj, after: Option<Stored>) {
    match Resolve(ds)
    case CreateOnly => after.Some? && if before.Some? then after == before
        else Landed(ds, None, d.content, after.value.content)
    case Remove => after.Some? ==> before.Some? && after.value == before.value.(deleting := true)
    case Converge =>
      && after.Some? && !after.value.deleting
      && Landed(ds, if before.Some? then Some(before.value.content) else None, d.content, after.value.content)
  }

  lemma CreateSettles(env: Env, s: Server, d: Obj, ds: DesiredState)
    requires Plain(ds)
    ensures var c := CreateIfNotExist(env, s, d, ds);
      && (c.error.None? && c.created ==>
          && d.Id() !in s.live && d.Id() in c.server.live && !c.server.live[d.Id()].deleting
          && Landed(ds, None, d.content, c.server.live[d.Id()].content)
          && c.desired.content == c.server.live[d.Id()].content)
      && (c.error.None? && !c.created ==>
          && d.Id() in s.live && c.server.live == s.live && c.desired == d
          && c.current == Current(Filled(d, s.live[d.Id()]), s.live[d.Id()].deleting, false))
  {
    var s1 := GetCall(env, s, d.gvk, d.Id()).0;
    if GetCall(env, s, d.gvk, d.Id()).1 == Err(NotFound) {
      PlainHooks(ds, d, d);
      var (s2, made) := CreateCall(env, s1, d);
      if made.Ok? {
        assert made.value.content == Admit(d.content, env.answers(s1.calls).granted);
      }
    }
  }

  lemma SendUpdateSettles(env: Env, opts: Options, s: Server, d: Obj, ds: DesiredState, before: Content,
                          desired: Content)
    requires Plain(ds) && Goal(ds, before, desired) == Some(d.content)
    requires d.Id() in s.live && s.live[d.Id()].content == before && !s.live[d.Id()].deleting
    ensures var out := SendUpdate(env, opts, s, d, ds);
      out.error.None? && out.result.None? ==>
        && d.Id() in out.server.live && !out.server.live[d.Id()].deleting
        && Landed(ds, Some(before), desired, out.server.live[d.Id()].content)
        && out.desired.content == out.server.live[d.Id()].content
  {
    var (s1, reply) := UpdateCall(env, s, d);
    if reply.Err? && IsImmutableRejection(opts, reply.error) && opts.immediately {
      var s2 := DeleteCall(env, s1, d.gvk, d.Id(), opts.foreground).0;
      CreateSettles(env, s2, d.(rv := 0), ds);
    }
  }

  lemma ConvergeSettles(env: Env, opts: Options, s: Server, d: Obj, ds: DesiredState)
    requires Plain(ds) && Resolve(ds) == Converge
    ensures var out := ReconcileResource(env, opts, s, d, ds);
      out.error.None? && out.result.None? ==>
        && Settled(ds, Live(s, d.Id()), d, Live(out.server, d.Id()))
        && out.desired.content == out.server.live[d.Id()].content
  {
    CreateSettles(env, s, d, ds);
    var c := CreateIfNotExist(env, s, d, ds);
    if c.error.None? && !c.created && !c.current.deleting {
      PlainUpdate(env, opts, c.server, c.current, d, ds);
      var cur := s.live[d.Id()].content;
      var goal := Goal(ds, cur, d.content);
      if goal.Some? && goal.value != cur {
        SendUpdateSettles(env, opts, c.server, d.(content := goal.value, rv := c.current.obj.rv), ds, cur, d.content);
      } else if goal.Some? {
        assert Retain(cur, goal.value) == cur;
      }
    }
  }

  /** A reconciliation that neither failed nor asked to be repeated has done its job. */
  lemma SuccessSettles(env: Env, opts: Options, s: Server, d: Obj, ds: DesiredState)
    requires Plain(ds) && d.gvk in env.served
    ensures var out := ReconcileResource(env, opts, s, d, ds);
      out.error.None? && out.result.None? ==> Settled(ds, Live(s, d.Id()), d, Live(out.server, d.Id()))
  {
    match Resolve(ds)
    case Remove => RemoveSettles(env, s, d, ds);
    case CreateOnly => CreateSettles(env, s, d, ds);
    case Converge => ConvergeSettles(env, opts, s, d, ds);
  }

  lemma RemoveSettles(env: Env, s: Server, d: Obj, ds: DesiredState)
    requires Plain(ds) && Resolve(ds) == Remove && d.gvk in env.served
    ensures var (s', error) := DeleteResource(env, s, d, ds);
      error.None? ==> Settled(ds, Live(s, d.Id()), d, Live(s', d.Id()))
  {
    var got := GetCall(env, s, d.gvk, d.Id()).1;
    if got.Ok? {
      PlainHooks(ds, Filled(d, got.value), d);
    }
  }

  /** Once settled and with nothing left terminating, the object is in sync with the same desired content. */
  lemma SettledIsInSync(ds: DesiredState, before: Option<Stored>, d: Obj, after: Option<Stored>, again: Content)
    requires Plain(ds) && Settled(ds, before, d, after)
    requires after.Some? ==> !after.value.deleting
    requires Resolve(ds) == Converge ==> AllocationSafe(ds, d.content.body)
    requires after.Some? && Resolve(ds) == Converge ==> Restates(again, d.content, after.value.content)
    ensures InSync(ds, after, again)
  {
    if Resolve(ds) == Converge {
      LandedIsStable(ds, if before.Some? then Some(before.value.content)
          else None, d.content, after.value.content, again);
    }
  }

  /** A live object that nobody marked as a component's. */
  predicate Unmanaged(s: Server, key: Key) {
    key in s.live && MANAGED_COMPONENT !in s.live[key].content.annotations
  }

  lemma UpdateKeepsUnmanaged(env: Env, opts: Options, s: Server, d: Obj, ds: DesiredState)
    requires Unmanaged(s, d.Id()) && MANAGED_COMPONENT !in d.content.annotations
    ensures var s' := SendUpdate(env, opts, s, d, ds).server;
      Follows(s, s') && (Deleted(d.Id()) in Added(s, s') || Unmanaged(s', d.Id()))
  {
    var (s1, reply) := UpdateCall(env, s, d);
    var s' := SendUpdate(env, opts, s, d, ds).server;
    UpdateTouches(env, s, d);
    UpdateCallKeepsUnmanaged(env, s, d);
    SendUpdateEnds(env, opts, s, d, ds);
    if s' != s1 {
      RecreateTouches(env, opts, s1, d, ds);
      TouchesTrans(s, s1, s', d.Id());
    }
  }

  lemma UpdateCallKeepsUnmanaged(env: Env, s: Server, d: Obj)
    requires Unmanaged(s, d.Id()) && MANAGED_COMPONENT !in d.content.annotations
    ensures Unmanaged(UpdateCall(env, s, d).0, d.Id())
  {
  }

  lemma SendUpdateEnds(env: Env, opts: Options, s: Server, d: Obj, ds: DesiredState)
    ensures var (s1, s') := (UpdateCall(env, s, d).0, SendUpdate(env, opts, s, d, ds).server);
      s' == s1 || s' == Recreate(env, opts, s1, d, ds).server
  {
  }

  /** No adoption: an object that is live without the component annotation does not get it from a
      reconciliation, unless it is deleted on the way. */
  lemma NoAdoption(env: Env, opts: Options, s: Server, d: Obj, ds: DesiredState)
    requires Plain(ds) && Unmanaged(s, d.Id())
    ensures var s' := ReconcileResource(env, opts, s, d, ds).server;
      Follows(s, s') && (Deleted(d.Id()) in Added(s, s') || Unmanaged(s', d.Id()))
  {
    OneObjectContract(env, opts, s, d, ds);
    match Resolve(ds)
    case CreateOnly => CreateIfNotExistTouches(env, s, d, ds);
    case Remove => RemoveDeletesOrKeeps(env, s, d, ds);
    case Converge =>
      CreateIfNotExistTouches(env, s, d, ds);
      var c := CreateIfNotExist(env, s, d, ds);
      if c.error.None? && !c.created && !c.current.deleting {
        CreateSettles(env, s, d, ds);
        PlainUpdate(env, opts, c.server, c.current, d, ds);
        var cur := s.live[d.Id()].content;
        var goal := Goal(ds, cur, d.content);
        if goal.Some? && goal.value != cur {
          GoalMeta(ds, cur, d.content);
          var d2 := d.(content := goal.value, rv := c.current.obj.rv);
          UpdateKeepsUnmanaged(env, opts, c.server, d2, ds);
          AddedConcat(s, c.server, SendUpdate(env, opts, c.server, d2, ds).server);
        }
      }
  }

  lemma RemoveDeletesOrKeeps(env: Env, s: Server, d: Obj, ds: DesiredState)
    ensures var s' := DeleteResource(env, s, d, ds).0;
      Follows(s, s') && (Deleted(d.Id()) in Added(s, s') || s'.live == s.live)
  {
    var s1 := GetCall(env, s, d.gvk, d.Id()).0;
    var s2 := DeleteCall(env, s1, d.gvk, d.Id(), false).0;
    GetTouches(env, s, d.gvk, d.Id());
    DeleteTouches(env, s1, d.gvk, d.Id(), false);
    AddedConcat(s, s1, s2);
    RemoveEnds(env, s, d, ds);
  }

  lemma RemoveEnds(env: Env, s: Server, d: Obj, ds: DesiredState)
    ensures var s1 := GetCall(env, s, d.gvk, d.Id()).0; var s' := DeleteResource(env, s, d, ds).0;
      s' == s1 || s' == DeleteCall(env, s1, d.gvk, d.Id(), false).0
  {
  }
}
