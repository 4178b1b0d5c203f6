/** What one reconciliation of one object guarantees, for every environment. */
module ResourceProperties {
  import opened Objects
  import opened Cluster
  import opened DesiredStates
  import opened ResourceMachine

  /** An update of the object, sent to the server `u`, is rejected as an immutable-field change that the options
      answer by a recreate. */
  predicate UpdateRejected(env: Env, opts: Options, gvk: GVK, key: Key, u: Server, o: Obj) {
    && o.gvk == gvk && o.Id() == key && opts.enableRecreate
    && var reply := UpdateCall(env, u, o).1;
      reply.Err? && IsImmutableRejection(opts, reply.error) && opts.recreatable(gvk, reply.error.status)
  }

  /** On the way from `s` to `s'` an update of the object was rejected in this way, and the next write asked for was
      its deletion. */
  ghost predicate RecreateWasDue(env: Env, opts: Options, gvk: GVK, key: Key, s: Server, s': Server) {
    exists u: Server, o: Obj :: UpdateRejected(env, opts, gvk, key, u, o) && RecreatesFrom(s, u, s', key)
  }

  predicate RecreatesFrom(s: Server, u: Server, s': Server, key: Key) {
    && s.log <= u.log && s.calls <= u.calls < s'.calls
    && u.log + [Updated(key), Deleted(key)] <= s'.log
  }

  /** What a step that may only create an object does. */
  ghost predicate CreateContract(s: Server, s': Server, key: Key) {
    && OnlyTouches(s, s', key)
    && (forall w :: w in Added(s, s') ==> w == Created(key))
    && (key in s.live ==> s'.live == s.live)
  }

  lemma CreateMissingTouches(env: Env, s: Server, d: Obj, ds: DesiredState)
    ensures CreateContract(s, CreateMissing(env, s, d, ds).server, d.Id())
  {
    var prepared := BeforeCreate(ds, d);
    var s' := CreateMissing(env, s, d, ds).server;
    if prepared.Some? && ShouldCreate(ds, prepared.value) == Some(true) {
      var s1 := CreateCall(env, s, prepared.value).0;
      CreateTouches(env, s, prepared.value);
      assert s' == s1 || s' == s1.(calls := s1.calls + 1);
      assert Added(s, s') == Added(s, s1);
    } else {
      assert s' == s;
    }
  }

  /** CreateIfNotExist reads, and creates at most. */
  lemma CreateIfNotExistTouches(env: Env, s: Server, d: Obj, ds: DesiredState)
    ensures CreateContract(s, CreateIfNotExist(env, s, d, ds).server, d.Id())
    ensures d.Id() in s.live ==> Added(s, CreateIfNotExist(env, s, d, ds).server) == []
  {
    var (s1, got) := GetCall(env, s, d.gvk, d.Id());
    GetTouches(env, s, d.gvk, d.Id());
    if got == Err(NotFound) {
      CreateMissingTouches(env, s1, d, ds);
      TouchesTrans(s, s1, CreateMissing(env, s1, d, ds).server, d.Id());
    }
  }

  lemma RecreateTouches(env: Env, opts: Options, s: Server, d: Obj, ds: DesiredState)
    ensures var s' := Recreate(env, opts, s, d, ds).server;
      && OnlyTouches(s, s', d.Id())
      && Deleted(d.Id()) in Added(s, s') && s.log + [Deleted(d.Id())] <= s'.log && s.calls < s'.calls
  {
    var s1 := DeleteCall(env, s, d.gvk, d.Id(), !opts.immediately || opts.foreground).0;
    DeleteTouches(env, s, d.gvk, d.Id(), !opts.immediately || opts.foreground);
    CreateIfNotExistTouches(env, s1, d.(rv := 0), ds);
    TouchesTrans(s, s1, CreateIfNotExist(env, s1, d.(rv := 0), ds).server, d.Id());
  }

  /** What a step may do to an object that should converge to the desired one. */
  ghost predicate UpdateContract(env: Env, opts: Options, s: Server, s': Server, d: Obj) {
    && OnlyTouches(s, s', d.Id())
    && (Deleted(d.Id()) in Added(s, s') ==> RecreateWasDue(env, opts, d.gvk, d.Id(), s, s'))
    && (d.Id() in s.live && d.Id() !in s'.live ==> Deleted(d.Id()) in Added(s, s'))
  }

  lemma SendUpdateTouches(env: Env, opts: Options, s: Server, d: Obj, ds: DesiredState)
    ensures UpdateContract(env, opts, s, SendUpdate(env, opts, s, d, ds).server, d)
  {
    var (s1, reply) := UpdateCall(env, s, d);
    UpdateTouches(env, s, d);
    if reply.Err? && IsImmutableRejection(opts, reply.error) && opts.enableRecreate
        && opts.recreatable(d.gvk, reply.error.status) {
      RecreateTouches(env, opts, s1, d, ds);
      var s' := Recreate(env, opts, s1, d, ds).server;
      TouchesTrans(s, s1, s', d.Id());
      assert s1.log + [Deleted(d.Id())] == s.log + [Updated(d.Id()), Deleted(d.Id())];
      assert UpdateRejected(env, opts, d.gvk, d.Id(), s, d) && RecreatesFrom(s, s, s', d.Id());
    }
  }

  lemma UpdateExistingTouches(env: Env, opts: Options, s: Server, current: Current, d: Obj, ds: DesiredState)
    ensures UpdateContract(env, opts, s, UpdateExisting(env, opts, s, current, d, ds).server, d)
  {
    var d1 := d.(content := MergeMeta(current.obj.content, d.content));
    var hooked := BeforeUpdate(ds, current.obj, d1);
    if hooked.Some? {
      SendUpdateTouches(env, opts, s, hooked.value.1.(rv := current.obj.rv), ds);
    }
  }

  lemma DeleteResourceTouches(env: Env, s: Server, d: Obj, ds: DesiredState)
    ensures var s' := DeleteResource(env, s, d, ds).0;
      && OnlyTouches(s, s', d.Id())
      && (forall w :: w in Added(s, s') ==> w == Deleted(d.Id()))
      && (d.Id() in s.live && d.Id() !in s'.live ==> Deleted(d.Id()) in Added(s, s'))
  {
    var (s1, got) := GetCall(env, s, d.gvk, d.Id());
    GetTouches(env, s, d.gvk, d.Id());
    var s2 := DeleteCall(env, s1, d.gvk, d.Id(), false).0;
    DeleteTouches(env, s1, d.gvk, d.Id(), false);
    TouchesTrans(s, s1, s2, d.Id());
    assert DeleteResource(env, s, d, ds).0 == s1 || DeleteResource(env, s, d, ds).0 == s2;
  }

  lemma ConvergeTouches(env: Env, opts: Options, s: Server, d: Obj, ds: DesiredState)
    requires Resolve(ds) == Converge
    ensures UpdateContract(env, opts, s, ReconcileResource(env, opts, s, d, ds).server, d)
  {
    var c := CreateIfNotExist(env, s, d, ds);
    CreateIfNotExistTouches(env, s, d, ds);
    if c.error.None? && !c.created && !c.current.deleting {
      var s' := UpdateExisting(env, opts, c.server, c.current, c.desired, ds).server;
      assert c.desired.Id() == d.Id() && c.desired.gvk == d.gvk;
      UpdateExistingTouches(env, opts, c.server, c.current, c.desired, ds);
      TouchesTrans(s, c.server, s', d.Id());
      if RecreateWasDue(env, opts, d.gvk, d.Id(), c.server, s') {
        RecreateWindow(env, opts, d.gvk, d.Id(), s, c.server, s', s');
      }
    }
  }

  /** One reconciliation changes at most the object it was given, writes nothing about any other, and deletes
      that object only when asked for its absence or to answer a rejected immutable-field change. */
  lemma OneObjectContract(env: Env, opts: Options, s: Server, d: Obj, ds: DesiredState)
    ensures var s' := ReconcileResource(env, opts, s, d, ds).server;
      && OnlyTouches(s, s', d.Id())
      && (Deleted(d.Id()) in Added(s, s') ==> Resolve(ds) == Remove || RecreateWasDue(env, opts, d.gvk, d.Id(), s, s'))
      && (d.Id() in s.live && d.Id() !in s'.live ==> Deleted(d.Id()) in Added(s, s'))
  {
    match Resolve(ds)
    case Remove => DeleteResourceTouches(env, s, d, ds);
    case CreateOnly => CreateIfNotExistTouches(env, s, d, ds);
    case Converge => ConvergeTouches(env, opts, s, d, ds);
  }

  lemma RecreateWindow(env: Env, opts: Options, gvk: GVK, key: Key, from: Server, s: Server, s': Server, to: Server)
    requires Follows(from, s) && Follows(s', to) && RecreateWasDue(env, opts, gvk, key, s, s')
    ensures RecreateWasDue(env, opts, gvk, key, from, to)
  {
    var u, o :| UpdateRejected(env, opts, gvk, key, u, o) && RecreatesFrom(s, u, s', key);
    assert RecreatesFrom(from, u, to, key);
  }

  /** A state that resolves to Created never touches an object that is already there. */
  lemma CreateOnlyLeavesExisting(env: Env, opts: Options, s: Server, d: Obj, ds: DesiredState)
    requires Resolve(ds) == CreateOnly
    ensures var s' := ReconcileResource(env, opts, s, d, ds).server;
      && OnlyTouches(s, s', d.Id())
      && (d.Id() in s.live ==> s'.live == s.live && Added(s, s') == [])
      && (forall w :: w in Added(s, s') ==> w == Created(d.Id()))
  {
    CreateIfNotExistTouches(env, s, d, ds);
  }
}
