/** The per-object reconciler itself (GenericResourceReconciler), one client call after the other. */
module ResourceReconciler {
  import opened Objects
  import opened Cluster
  import opened DesiredStates
  import opened ResourceMachine
  import MetaBase
  import Machine = ResourceMachine

  /** The desired object is changed in place and every method matches its function on values. */
  class GenericResourceReconciler {
    const client: Client
    const opts: Options

    constructor (client: Client, raw: RawOptions)
      ensures this.client == client && this.opts == Defaults(raw)
    {
      this.client, this.opts := client, Defaults(raw);
    }

    method CreateIfNotExist(desired: RuntimeObject, ds: DesiredState)
      returns (created: bool, current: Current, error: Option<Error>)
      modifies client`server, desired
      ensures CreateOut(client.server, desired.val, created, current, error) ==
              Machine.CreateIfNotExist(client.env, old(client.server), old(desired.val), ds)
    {
      var got := client.Get(desired.val.gvk, desired.val.Id());
      if got.Ok? {
        return false, Current(Filled(desired.val, got.value), got.value.deleting, false), None;
      }
      if got.error != NotFound {
        return false, Current(desired.val, false, true), Some(Api(got.error));
      }
      var prepared := BeforeCreate(ds, desired.val);
      if prepared.None? {
        return false, Current(desired.val, false, true), Some(HookFailed);
      }
      desired.val := prepared.value;
      var should := ShouldCreate(ds, desired.val);
      if should.None? {
        return false, Current(desired.val, false, true), Some(HookFailed);
      }
      if !should.value {
        return false, Current(desired.val, false, true), None;
      }
      var made := client.Create(desired.val);
      if made.Err? {
        return false, Current(desired.val, false, true), Some(Api(made.error));
      }
      desired.val := Filled(desired.val, made.value);
      if IsCrd(desired.val.gvk) {
        var ready := client.env.answers(client.server.calls).refusal.None?;
        client.server := client.server.(calls := client.server.calls + 1);
        return ready, Current(desired.val, false, true), if ready then None else Some(CrdNotReady);
      }
      return true, Current(desired.val, false, true), None;
    }

    method Delete(desired: RuntimeObject, ds: DesiredState) returns (error: Option<Error>)
      modifies client`server
      ensures (client.server, error) == DeleteResource(client.env, old(client.server), desired.val, ds)
      ensures var s, d := old(client.server), desired.val;
        client.env.answers(s.calls).refusal.None? && !(d.gvk in client.env.served && d.Id() in s.live) ==>
          error == None && client.server == s.(calls := s.calls + 1)
    {
      var d := desired.val;
      var got := client.Get(d.gvk, d.Id());
      if got.Err? {
        return if got.error == NoMatch || got.error == NotFound then None else Some(Api(got.error));
      }
      if !BeforeDelete(ds, Filled(d, got.value)) {
        return Some(HookFailed);
      }
      var should := ShouldDelete(ds, d);
      if should.None? {
        return Some(HookFailed);
      }
      if !should.value {
        return None;
      }
      var reply := client.Delete(d.gvk, d.Id(), false);
      return if reply.Err? then Some(Api(reply.error)) else None;
    }

    method ReconcileResource(desired: RuntimeObject, ds: DesiredState)
      returns (result: Option<Requeue>, error: Option<Error>)
      modifies client`server, desired
      ensures Outcome(client.server, desired.val, result, error) ==
              Machine.ReconcileResource(client.env, opts, old(client.server), old(desired.val), ds)
    {
      match Resolve(ds) {
        case CreateOnly =>
          var _, _, e := CreateIfNotExist(desired, ds);
          return None, e;
        case Remove =>
          var e := Delete(desired, ds);
          return None, e;
        case Converge =>
          var created, current, e := CreateIfNotExist(desired, ds);
          if e.Some? || created {
            return None, e;
          }
          if current.deleting {
            return Some(Requeue(false, TERMINATING_REQUEUE)), None;
          }
          result, error := UpdateExisting(current, desired, ds);
      }
    }

    method UpdateExisting(current: Current, desired: RuntimeObject, ds: DesiredState)
      returns (result: Option<Requeue>, error: Option<Error>)
      modifies client`server, desired
      ensures Outcome(client.server, desired.val, result, error) ==
              Machine.UpdateExisting(client.env, opts, old(client.server), current, old(desired.val), ds)
    {
      // merge labels and annotations of the live object into the desired one
      var annotations := MetaBase.MergeInto(desired.val.content.annotations, current.obj.content.annotations);
      var labels := MetaBase.MergeInto(desired.val.content.labels, current.obj.content.labels);
      desired.val := desired.val.(content := desired.val.content.(labels := labels, annotations := annotations));
      if MANAGED_COMPONENT !in current.obj.content.annotations {
        var c := desired.val.content;
        desired.val := desired.val.(content := c.(annotations := c.annotations - {MANAGED_COMPONENT}));
      }
      var should := ShouldUpdate(ds, current.obj, desired.val);
      if should.None? {
        return None, Some(HookFailed);
      }
      if !should.value {
        return None, None;
      }
      var hooked := BeforeUpdate(ds, current.obj, desired.val);
      if hooked.None? {
        return None, Some(HookFailed);
      }
      var (live, d) := hooked.value;
      desired.val := d;
      if current.aliased || live.content == d.content {
        return None, None;
      }
      desired.val := desired.val.(rv := live.rv);
      var reply := client.Update(desired.val);
      if reply.Ok? {
        desired.val := Filled(desired.val, reply.value);
        return None, None;
      }
      if IsImmutableRejection(opts, reply.error) {
        if !opts.enableRecreate {
          return None, Some(RecreateNotEnabled(reply.error));
        }
        if !opts.recreatable(desired.val.gvk, reply.error.status) {
          return None, Some(RecreateNotAllowed(reply.error));
        }
        result, error := Recreate(desired, ds);
        return;
      }
      return None, Some(Api(reply.error));
    }

    method Recreate(desired: RuntimeObject, ds: DesiredState) returns (result: Option<Requeue>, error: Option<Error>)
      modifies client`server, desired
      ensures Outcome(client.server, desired.val, result, error) ==
              Machine.Recreate(client.env, opts, old(client.server), old(desired.val), ds)
    {
      if opts.immediately {
        var gone := client.Delete(desired.val.gvk, desired.val.Id(), opts.foreground);
        if gone.Err? {
          return None, Some(Api(gone.error));
        }
        desired.val := desired.val.(rv := 0);
        var created, _, e := CreateIfNotExist(desired, ds);
        if e.Some? {
          return None, e;
        }
        return None, if created then None else Some(ResourceAlreadyExists);
      }
      var gone := client.Delete(desired.val.gvk, desired.val.Id(), true);
      if gone.Err? {
        return None, Some(Api(gone.error));
      }
      return Some(Requeue(true, opts.delay)), None;
    }
  }
}
