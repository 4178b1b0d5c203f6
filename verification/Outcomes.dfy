/** How one reconciliation ends: when it succeeds, what it writes, what stops it, and what a rejected update
    leads to. */
module Outcomes {
  import opened Strings
  import opened Objects
  import opened Cluster
  import opened DesiredStates
  import opened ResourceMachine
  import opened ResourceProperties
  import opened Convergence

  /** Every call from this one on is answered. */
  ghost predicate AnsweredFrom(env: Env, calls: nat) {
    forall n: nat :: calls <= n ==> env.answers(n).refusal.None?
  }

  /** What an object needs for its reconciliation to succeed when every call is answered. To be absent it needs
      nothing at all; otherwise its type must be served, a missing object must be fit to be created, and a live one
      that is not terminating must be fit to be updated. */
  ghost predicate Achievable(served: set<GVK>, live: Option<Stored>, d: Obj, ds: DesiredState) {
    match Resolve(ds)
    case Remove => true
    case CreateOnly => d.gvk in served && (live.None? ==> d.name != "" && d.rv == 0)
    case Converge =>
      && d.gvk in served
      && if live.None? then d.name != "" && d.rv == 0
         else live.value.deleting || Goal(ds, live.value.content, d.content).Some?
  }

  /** The writes asked for when every call is answered. */
  ghost function Writes(served: set<GVK>, live: Option<Stored>, d: Obj, ds: DesiredState): seq<WriteCall> {
    if d.gvk !in served then []
    else if Resolve(ds) == Remove then if live.Some? then [Deleted(d.Id())] else []
    else if live.None? then [Created(d.Id())]
    else if Resolve(ds) == CreateOnly || live.value.deleting then []
    else
      var goal := Goal(ds, live.value.content, d.content);
      if goal.None? || goal.value == live.value.content then [] else [Updated(d.Id())]
  }

  /** Success, exactly. With every call answered, a reconciliation succeeds iff its object is achievable; an object
      to be absent that is gone, or whose type is, is no error. Only a terminating object that should converge is
      to be looked at again, two seconds later. */
  lemma SucceedsIff(env: Env, opts: Options, s: Server, d: Obj, ds: DesiredState)
    requires Plain(ds) && AnsweredFrom(env, s.calls)
    ensures var out := ReconcileResource(env, opts, s, d, ds); var live := Live(s, d.Id());
      && (out.error.None? <==> Achievable(env.served, live, d, ds))
      && out.server.log == s.log + Writes(env.served, live, d, ds)
      && (out.result == if Resolve(ds) == Converge && d.gvk in env.served && live.Some? && live.value.deleting
            then Some(Requeue(false, 2)) else None)
  {
    assert env.answers(s.calls).refusal.None?;
    match Resolve(ds)
    case Remove => RemovalSucceeds(env, s, d, ds);
    case CreateOnly => CreateOnlySucceeds(env, s, d, ds);
    case Converge => ConvergeSucceeds(env, opts, s, d, ds);
  }

  lemma CreateOnlySucceeds(env: Env, s: Server, d: Obj, ds: DesiredState)
    requires Plain(ds) && Resolve(ds) == CreateOnly && AnsweredFrom(env, s.calls)
    ensures var c := CreateIfNotExist(env, s, d, ds); var live := Live(s, d.Id());
      && (c.error.None? <==> Achievable(env.served, live, d, ds))
      && c.server.log == s.log + Writes(env.served, live, d, ds)
  {
    var (s1, got) := GetCall(env, s, d.gvk, d.Id());
    if got == Err(NotFound) {
      CreationSucceeds(env, s1, d, ds);
    }
  }

  lemma ConvergeSucceeds(env: Env, opts: Options, s: Server, d: Obj, ds: DesiredState)
    requires Plain(ds) && Resolve(ds) == Converge && AnsweredFrom(env, s.calls)
    ensures var out := ReconcileResource(env, opts, s, d, ds); var live := Live(s, d.Id());
      && (out.error.None? <==> Achievable(env.served, live, d, ds))
      && out.server.log == s.log + Writes(env.served, live, d, ds)
      && (out.result == if d.gvk in env.served && live.Some? && live.value.deleting then Some(Requeue(false, 2))
            else None)
  {
    var (s1, got) := GetCall(env, s, d.gvk, d.Id());
    if got == Err(NotFound) {
      CreationSucceeds(env, s1, d, ds);
    } else if got.Ok? && !got.value.deleting {
      LiveIsRead(env, opts, s, d, ds);
      UpdateSucceeds(env, opts, s1, Current(Filled(d, got.value), false, false), d, ds);
    }
  }

  lemma RemovalSucceeds(env: Env, s: Server, d: Obj, ds: DesiredState)
    requires Plain(ds) && AnsweredFrom(env, s.calls)
    ensures var (s', error) := DeleteResource(env, s, d, ds);
      error.None? && s'.log == s.log + if d.gvk in env.served && d.Id() in s.live then [Deleted(d.Id())] else []
  {
    var (s1, got) := GetCall(env, s, d.gvk, d.Id());
    if got.Ok? {
      PlainHooks(ds, Filled(d, got.value), d);
    }
  }

  lemma CreationSucceeds(env: Env, s: Server, d: Obj, ds: DesiredState)
    requires Plain(ds) && AnsweredFrom(env, s.calls) && d.gvk in env.served && d.Id() !in s.live
    ensures var c := CreateMissing(env, s, d, ds);
      && (c.error.None? <==> d.name != "" && d.rv == 0) && (c.error.None? <==> c.created)
      && c.server.log == s.log + [Created(d.Id())]
  {
    PlainHooks(ds, d, d);
    assert env.answers(s.calls).refusal.None?;
    assert env.answers(s.calls + 1).refusal.None?;
  }

  lemma UpdateSucceeds(env: Env, opts: Options, s: Server, current: Current, d: Obj, ds: DesiredState)
    requires Plain(ds) && AnsweredFrom(env, s.calls) && d.gvk in env.served && d.Id() in s.live
    requires current == Current(Filled(d, s.live[d.Id()]), false, false)
    ensures var out := UpdateExisting(env, opts, s, current, d, ds);
      var goal := Goal(ds, s.live[d.Id()].content, d.content);
      && (out.error.None? <==> goal.Some?) && out.result.None?
      && out.server.log == s.log
          + if goal.None? || goal.value == s.live[d.Id()].content then [] else [Updated(d.Id())]
  {
    PlainUpdate(env, opts, s, current, d, ds);
    assert env.answers(s.calls).refusal.None?;
  }

  /** An object to be absent that is not there, or whose type is not served, is no error under any state, hooks
      included; one answered read settles it. */
  lemma AbsentIsNoError(env: Env, opts: Options, s: Server, d: Obj, ds: DesiredState)
    requires Resolve(ds) == Remove && env.answers(s.calls).refusal.None?
    requires d.gvk !in env.served || d.Id() !in s.live
    ensures ReconcileResource(env, opts, s, d, ds) == Outcome(s.(calls := s.calls + 1), d, None, None)
  {
  }

  /** An object in sync takes one answered read, and no error. */
  lemma InSyncSucceeds(env: Env, opts: Options, s: Server, d: Obj, ds: DesiredState)
    requires Plain(ds) && InSync(ds, Live(s, d.Id()), d.content) && env.answers(s.calls).refusal.None?
    requires Resolve(ds) != Remove ==> d.gvk in env.served
    ensures var out := ReconcileResource(env, opts, s, d, ds);
      out.server == s.(calls := s.calls + 1) && out.error.None? && out.result.None?
  {
    var (s1, got) := GetCall(env, s, d.gvk, d.Id());
    if Resolve(ds) == Converge {
      PlainUpdate(env, opts, s1, Current(Filled(d, got.value), false, false), d, ds);
    }
  }

  /** A refused read ends any reconciliation with its error. */
  lemma RefusedReadIsAnError(env: Env, opts: Options, s: Server, d: Obj, ds: DesiredState)
    requires env.answers(s.calls).refusal.Some?
    ensures ReconcileResource(env, opts, s, d, ds)
      == Outcome(s.(calls := s.calls + 1), d, None, Some(Api(Refused(env.answers(s.calls).refusal.value))))
  {
  }

  /** Hooks and vetoes of any state stop a deletion: the delete goes out iff the hook passes and nothing objects.
      A failing hook or a failing question is an error, a veto is not. */
  lemma DeletionIsVetoed(env: Env, opts: Options, s: Server, d: Obj, ds: DesiredState)
    requires Resolve(ds) == Remove && env.answers(s.calls).refusal.None?
    requires d.gvk in env.served && d.Id() in s.live
    ensures var out := ReconcileResource(env, opts, s, d, ds);
      var hook := BeforeDelete(ds, Obj(d.gvk, d.ns, d.name, s.live[d.Id()].content, s.live[d.Id()].rv));
      var should := ShouldDelete(ds, d);
      && out.server.log == s.log + (if hook && should == Some(true) then [Deleted(d.Id())] else [])
      && (!hook || should.None? ==> out.error == Some(HookFailed))
      && (hook && should == Some(false) ==> out.error.None?)
      && (hook && should == Some(true) ==> (out.error.None? <==> env.answers(s.calls + 1).refusal.None?))
      && out.result.None?
  {
  }

  /** Of a missing object: the create goes out iff the hook passes and nothing objects. */
  lemma CreationIsVetoed(env: Env, opts: Options, s: Server, d: Obj, ds: DesiredState)
    requires Resolve(ds) != Remove && env.answers(s.calls).refusal.None?
    requires d.gvk in env.served && d.Id() !in s.live
    ensures var out := ReconcileResource(env, opts, s, d, ds); var hooked := BeforeCreate(ds, d);
      && (hooked.None? ==> out.error == Some(HookFailed) && out.server.log == s.log)
      && (hooked.Some? ==>
        && (ShouldCreate(ds, hooked.value) == Some(true) ==> out.server.log == s.log + [Created(d.Id())])
        && (ShouldCreate(ds, hooked.value) != Some(true) ==> out.server.log == s.log && out.result.None?)
        && (ShouldCreate(ds, hooked.value).None? ==> out.error == Some(HookFailed))
        && (ShouldCreate(ds, hooked.value) == Some(false) && Resolve(ds) == CreateOnly ==> out.error.None?))
  {
    var s1 := s.(calls := s.calls + 1);
    var c := CreateMissing(env, s1, d, ds);
    assert CreateIfNotExist(env, s, d, ds) == c;
    CreationAsks(env, s1, d, ds);
    if Resolve(ds) == Converge && c.error.None? && !c.created {
      AliasedWritesNothing(env, opts, c.server, c.current, c.desired, ds);
    }
  }

  lemma CreationAsks(env: Env, s: Server, d: Obj, ds: DesiredState)
    ensures var c := CreateMissing(env, s, d, ds); var hooked := BeforeCreate(ds, d);
      var goes := hooked.Some? && ShouldCreate(ds, hooked.value) == Some(true);
      && c.server.log == s.log + (if goes then [Created(d.Id())] else [])
      && (goes ==> c.created || c.error.Some?)
      && (!goes ==>
        && !c.created && c.current.aliased && !c.current.deleting
        && c.error == if hooked.None? || ShouldCreate(ds, hooked.value).None? then Some(HookFailed) else None)
  {
  }

  lemma AliasedWritesNothing(env: Env, opts: Options, s: Server, current: Current, d: Obj, ds: DesiredState)
    requires current.aliased
    ensures var out := UpdateExisting(env, opts, s, current, d, ds); out.server == s && out.result.None?
  {
  }

  /** The metadata of an update before its hooks: desired entries over live ones, the component's own annotation only
      if the live object has it. */
  ghost function MergedContent(live: Content, d: Content): Content {
    var annotations := live.annotations + d.annotations;
    Content(live.labels + d.labels,
            if MANAGED_COMPONENT in live.annotations then annotations else annotations - {MANAGED_COMPONENT},
            d.controller, d.body)
  }

  /** Of a live object: terminating, it is left alone for two seconds. Otherwise vetoes and failing hooks stop the
      update, and so does an empty difference between what the hooks make of both sides; else the update goes out,
      under the resource version read. */
  lemma UpdateIsVetoed(env: Env, opts: Options, s: Server, d: Obj, ds: DesiredState)
    requires Resolve(ds) == Converge && env.answers(s.calls).refusal.None?
    requires d.gvk in env.served && d.Id() in s.live
    ensures var out := ReconcileResource(env, opts, s, d, ds);
      var live := Obj(d.gvk, d.ns, d.name, s.live[d.Id()].content, s.live[d.Id()].rv);
      var merged := d.(content := MergedContent(live.content, d.content));
      var should, hooked := ShouldUpdate(ds, live, merged), BeforeUpdate(ds, live, merged);
      if s.live[d.Id()].deleting then
        out == Outcome(s.(calls := s.calls + 1), d, Some(Requeue(false, 2)), None)
      else if should == Some(false) then out == Outcome(s.(calls := s.calls + 1), merged, None, None)
      else if should.None? || hooked.None? then
        out == Outcome(s.(calls := s.calls + 1), merged, None, Some(HookFailed))
      else if hooked.value.0.content == hooked.value.1.content then
        out == Outcome(s.(calls := s.calls + 1), hooked.value.1, None, None)
      else out == SendUpdate(env, opts, s.(calls := s.calls + 1), hooked.value.1.(rv := live.rv), ds)
  {
    LiveIsRead(env, opts, s, d, ds);
    assert MergedContent(s.live[d.Id()].content, d.content) == MergeMeta(s.live[d.Id()].content, d.content);
  }

  lemma LiveIsRead(env: Env, opts: Options, s: Server, d: Obj, ds: DesiredState)
    requires Resolve(ds) == Converge && env.answers(s.calls).refusal.None?
    requires d.gvk in env.served && d.Id() in s.live
    ensures var s1, st := s.(calls := s.calls + 1), s.live[d.Id()];
      ReconcileResource(env, opts, s, d, ds)
        == if st.deleting then Outcome(s1, d, Some(Requeue(false, 2)), None)
           else UpdateExisting(env, opts, s1, Current(Obj(d.gvk, d.ns, d.name, st.content, st.rv), false, false), d, ds)
  {
  }

  /** Sending an update asks for it first, and an answered one succeeds unless it is stale. */
  lemma SentUpdateMeans(env: Env, opts: Options, s: Server, d: Obj, ds: DesiredState)
    ensures var out := SendUpdate(env, opts, s, d, ds);
      && s.log + [Updated(d.Id())] <= out.server.log
      && (env.answers(s.calls).refusal.None? && d.gvk in env.served && d.Id() in s.live ==>
        && out.server.log == s.log + [Updated(d.Id())] && out.result == None
        && (out.error == None <==> d.rv == 0 || d.rv == s.live[d.Id()].rv)
        && (out.error == None ==> out.server.live[d.Id()].content == Retain(s.live[d.Id()].content, d.content)))
  {
    UpdateTouches(env, s, d);
    var s1 := UpdateCall(env, s, d).0;
    RecreateTouches(env, opts, s1, d, ds);
    SendUpdateEnds(env, opts, s, d, ds);
  }

  /** The defaults: which rejections call for a recreate, of which kinds, and when to look again. A condition of the
      caller's own replaces the test of the message, a substring of its own is looked for when there is no condition. */
  lemma DefaultsMean(raw: RawOptions, gvk: GVK, status: ApiStatus)
    ensures var opts, m := Defaults(raw), status.message;
      && (raw.condition.None? && raw.substring.None? ==>
        (ShouldRecreate(opts, m) <==>
          (|| Contains(m, "immutable") || Contains(m, "may not change once set")
           || Contains(m, "updates to statefulset spec for fields other than"))))
      && (raw.condition.None? && raw.substring.Some? ==>
        (ShouldRecreate(opts, m) <==> Contains(m, raw.substring.value)))
      && (raw.condition.Some? ==> (ShouldRecreate(opts, m) <==> raw.condition.value(m)))
      && (raw.recreatable.None? ==>
        (opts.recreatable(gvk, status) <==>
          ((gvk.group == "" && gvk.kind == "Service")
           || (gvk.group == "apps" && gvk.kind in {"StatefulSet", "DaemonSet", "Deployment"}))))
      && (raw.recreatable.Some? ==> opts.recreatable == raw.recreatable.value)
      && opts.delay == (if raw.delay.Some? then raw.delay.value else 10)
      && opts.enableRecreate == raw.enableRecreate && opts.immediately == raw.immediately
      && opts.foreground == raw.foreground
  {
    if raw.recreatable.None? {
      DefaultKinds(gvk.Gk());
    }
  }

  lemma DefaultKinds(gk: GroupKind)
    ensures gk in DEFAULT_RECREATE_GROUP_KINDS <==>
      ((gk.group == "" && gk.kind == "Service")
       || (gk.group == "apps" && gk.kind in {"StatefulSet", "DaemonSet", "Deployment"}))
  {
    var kinds := DEFAULT_RECREATE_GROUP_KINDS;
    assert kinds[0] == GroupKind("", "Service") && kinds[1] == GroupKind("apps", "StatefulSet");
    assert kinds[2] == GroupKind("apps", "DaemonSet") && kinds[3] == GroupKind("apps", "Deployment");
  }

  /** The message of a rejection is searched for a substring. */
  lemma ContainsMeans(s: string, sub: string)
    ensures Contains(s, sub) <==> exists a: string, b: string :: s == a + sub + b
  {
    if Contains(s, sub) {
      var i :| 0 <= i <= |s| && OccursAt(s, sub, i);
      assert s == s[..i] + sub + s[i + |sub|..];
    }
    if a: string, b: string :| s == a + sub + b {
      assert OccursAt(s, sub, |a|);
    }
  }

  /** An update that a reconciliation sends: the object is live and not terminating, its goal is another content, and
      the answers to the read and to the update are these. */
  ghost predicate UpdateIsRefused(env: Env, s: Server, d: Obj, ds: DesiredState, status: ApiStatus) {
    && Plain(ds) && Resolve(ds) == Converge && d.gvk in env.served
    && d.Id() in s.live && !s.live[d.Id()].deleting
    && Goal(ds, s.live[d.Id()].content, d.content).Some?
    && Goal(ds, s.live[d.Id()].content, d.content).value != s.live[d.Id()].content
    && env.answers(s.calls).refusal.None? && env.answers(s.calls + 1).refusal == Some(status)
  }

  /** A refused update, exactly. Unless it is a 422 Invalid whose message matches, the error comes back as it is; so
      does one of those when recreating is not enabled or not allowed for the object. Otherwise the object is deleted,
      in the foreground and to be looked at again after the delay, or, with the immediate option, deleted and created
      anew at once. */
  lemma RefusedUpdateMeans(env: Env, opts: Options, s: Server, d: Obj, ds: DesiredState, status: ApiStatus)
    requires UpdateIsRefused(env, s, d, ds, status)
    ensures var out := ReconcileResource(env, opts, s, d, ds); var e := Refused(status);
      if !(status.code == 422 && status.invalid && ShouldRecreate(opts, status.message)) then
        out.error == Some(Api(e)) && out.server.log == s.log + [Updated(d.Id())]
      else if !opts.enableRecreate then
        out.error == Some(RecreateNotEnabled(e)) && out.server.log == s.log + [Updated(d.Id())]
      else if !opts.recreatable(d.gvk, status) then
        out.error == Some(RecreateNotAllowed(e)) && out.server.log == s.log + [Updated(d.Id())]
      else
        DeletedForRecreate(env, opts, s.calls + 2, s.log + [Updated(d.Id())],
                           d.(content := Goal(ds, s.live[d.Id()].content, d.content).value), out)
  {
    var s1 := GetCall(env, s, d.gvk, d.Id()).0;
    var current := Current(Filled(d, s.live[d.Id()]), false, false);
    PlainUpdate(env, opts, s1, current, d, ds);
    var d2 := d.(content := Goal(ds, s.live[d.Id()].content, d.content).value, rv := s.live[d.Id()].rv);
    assert ReconcileResource(env, opts, s, d, ds) == SendUpdate(env, opts, s1, d2, ds);
    RefusedUpdateLeaves(env, s1, d2);
    var s2 := UpdateCall(env, s1, d2).0;
    if IsImmutableRejection(opts, Refused(status)) && opts.enableRecreate && opts.recreatable(d.gvk, status) {
      RecreateMeans(env, opts, s2, d2, ds);
    }
  }

  lemma RefusedUpdateLeaves(env: Env, s: Server, d: Obj)
    requires d.gvk in env.served && d.Id() in s.live && !s.live[d.Id()].deleting
    requires env.answers(s.calls).refusal.Some?
    ensures var (s', reply) := UpdateCall(env, s, d);
      && s'.calls == s.calls + 1 && s'.log == s.log + [Updated(d.Id())]
      && d.Id() in s'.live && !s'.live[d.Id()].deleting && reply == Err(Refused(env.answers(s.calls).refusal.value))
  {
  }

  /** What becomes of an object, with the content of the refused update, whose deletion is the call with this
      number. */
  ghost predicate DeletedForRecreate(env: Env, opts: Options, calls: nat, log: seq<WriteCall>, d: Obj, out: Outcome) {
    if env.answers(calls).refusal.Some? then
      && out.error == Some(Api(Refused(env.answers(calls).refusal.value)))
      && out.server.log == log + [Deleted(d.Id())]
    else if !opts.immediately then
      && out.error == None && out.result == Some(Requeue(true, opts.delay))
      && out.server.log == log + [Deleted(d.Id())]
      && d.Id() in out.server.live && out.server.live[d.Id()].deleting
    else
      out.result == None && (AnsweredFrom(env, calls + 1) ==> RecreatedAtOnce(env, opts, calls, log, d, out))
  }

  /** The immediate recreate succeeds unless the deleted object is still around. */
  ghost predicate RecreatedAtOnce(env: Env, opts: Options, calls: nat, log: seq<WriteCall>, d: Obj, out: Outcome) {
    if env.answers(calls).lingers || opts.foreground then
      out.error == Some(ResourceAlreadyExists) && out.server.log == log + [Deleted(d.Id())]
    else
      && (out.error == None <==> d.name != "")
      && out.server.log == log + [Deleted(d.Id()), Created(d.Id())]
      && (d.name != "" ==>
        && d.Id() in out.server.live && !out.server.live[d.Id()].deleting
        && exists granted :: out.server.live[d.Id()].content == Admit(d.content, granted))
  }

  lemma RecreateMeans(env: Env, opts: Options, s: Server, d: Obj, ds: DesiredState)
    requires Plain(ds) && d.gvk in env.served && d.Id() in s.live && !s.live[d.Id()].deleting
    ensures DeletedForRecreate(env, opts, s.calls, s.log, d.(rv := 0), Recreate(env, opts, s, d, ds))
  {
    if opts.immediately && env.answers(s.calls).refusal.None? && AnsweredFrom(env, s.calls + 1) {
      RecreatesAtOnce(env, opts, s, d, ds);
    }
  }

  lemma RecreatesAtOnce(env: Env, opts: Options, s: Server, d: Obj, ds: DesiredState)
    requires Plain(ds) && opts.immediately && d.gvk in env.served && d.Id() in s.live && !s.live[d.Id()].deleting
    requires env.answers(s.calls).refusal.None? && AnsweredFrom(env, s.calls + 1)
    ensures var out := Recreate(env, opts, s, d, ds);
      out.result == None && RecreatedAtOnce(env, opts, s.calls, s.log, d.(rv := 0), out)
  {
    var s1 := DeleteCall(env, s, d.gvk, d.Id(), opts.foreground).0;
    var s2 := GetCall(env, s1, d.gvk, d.Id()).0;
    assert env.answers(s1.calls).refusal.None?;
    if d.Id() !in s1.live {
      var d1 := d.(rv := 0);
      assert CreateIfNotExist(env, s1, d1, ds) == CreateMissing(env, s2, d1, ds);
      CreationSucceeds(env, s2, d1, ds);
      if d.name != "" {
        CreationStores(env, s2, d1, ds);
      }
    }
  }

  lemma CreationStores(env: Env, s: Server, d: Obj, ds: DesiredState)
    requires Plain(ds) && AnsweredFrom(env, s.calls) && d.gvk in env.served && d.Id() !in s.live
    requires d.name != "" && d.rv == 0
    ensures var s' := CreateMissing(env, s, d, ds).server;
      && d.Id() in s'.live && !s'.live[d.Id()].deleting
      && s'.live[d.Id()].content == Admit(d.content, env.answers(s.calls).granted)
  {
    PlainHooks(ds, d, d);
    assert env.answers(s.calls).refusal.None?;
  }

  /** What a success stores of the metadata: every desired entry, and every live one under another key; the component's
      own annotation only if it was there before, or the object was not. */
  lemma LandedMetadata(ds: DesiredState, before: Option<Content>, d: Content, after: Content)
    requires Landed(ds, before, d, after)
    ensures after == MergedContent(if before.Some? then before.value else d, d).(body := after.body)
  {
    LandedMeta(ds, before, d, after);
  }

  /** The three hooks: live metadata under the desired, the live address for a Service without one, the live token
      references of a service account, and nothing else; they fail only between different types. */
  lemma StandardHooksMean(c: Content, d: Content)
    ensures StandardUpdate(c, d) ==
      var r := d.(labels := c.labels + d.labels, annotations := c.annotations + d.annotations);
      match c.body
      case ServiceBody(ip, ips, _) =>
        if !d.body.ServiceBody? then None
        else if d.body.clusterIP == "" then Some(r.(body := ServiceBody(ip, ips, d.body.spec)))
        else Some(r)
      case ServiceAccountBody(secrets, _) =>
        if !d.body.ServiceAccountBody? then None else Some(r.(body := ServiceAccountBody(secrets, d.body.spec)))
      case _ => Some(r)
  {
    StandardUpdateIs(c, d);
  }

  /** A created definition must become ready, which is one more call; other objects are not waited for. */
  lemma DefinitionsMustGetReady(env: Env, opts: Options, s: Server, d: Obj, ds: DesiredState)
    requires Plain(ds) && Resolve(ds) != Remove && d.gvk in env.served && d.Id() !in s.live
    requires d.name != "" && d.rv == 0
    requires env.answers(s.calls).refusal.None? && env.answers(s.calls + 1).refusal.None?
    ensures var out := ReconcileResource(env, opts, s, d, ds);
      if d.gvk.group == "apiextensions.k8s.io" && d.gvk.kind == "CustomResourceDefinition" then
        && out.server.calls == s.calls + 3
        && out.error == if env.answers(s.calls + 2).refusal.None? then None else Some(CrdNotReady)
      else out.server.calls == s.calls + 2 && out.error == None
  {
    var s1 := s.(calls := s.calls + 1);
    CreationWaits(env, s1, d, ds);
    MissingIsCreated(env, opts, s, d, ds);
  }

  lemma CreationWaits(env: Env, s: Server, d: Obj, ds: DesiredState)
    requires Plain(ds) && d.gvk in env.served && d.Id() !in s.live && d.name != "" && d.rv == 0
    requires env.answers(s.calls).refusal.None?
    ensures var c := CreateMissing(env, s, d, ds);
      && (c.created <==> c.error == None)
      && if d.gvk.group == "apiextensions.k8s.io" && d.gvk.kind == "CustomResourceDefinition" then
           && c.server.calls == s.calls + 2
           && c.error == if env.answers(s.calls + 1).refusal.None? then None else Some(CrdNotReady)
         else c.server.calls == s.calls + 1 && c.error == None
  {
    PlainHooks(ds, d, d);
  }

  lemma MissingIsCreated(env: Env, opts: Options, s: Server, d: Obj, ds: DesiredState)
    requires Resolve(ds) != Remove && d.gvk in env.served && d.Id() !in s.live && env.answers(s.calls).refusal.None?
    ensures var c, out := CreateMissing(env, s.(calls := s.calls + 1), d, ds), ReconcileResource(env, opts, s, d, ds);
      c.created || c.error.Some? ==> out.server == c.server && out.error == c.error && out.result == None
  {
  }
}
