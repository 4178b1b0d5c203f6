/** What preparing writes on an object: whose component it is, where its events lead, and who controls it. */
module Ownership {
  import opened Objects
  import opened Cluster
  import opened DesiredStates
  import opened ResourceMachine
  import opened Convergence
  import opened NativeMachine
  import opened RunFrames
  import opened RunConvergence

  /** The objects that may get the controller reference: no definitions and no namespaces, and from a namespaced owner
      only objects in its own namespace. */
  predicate Reaches(owner: Owner, gvk: GVK, ns: string) {
    && !(gvk.group == "apiextensions.k8s.io" && gvk.kind == "CustomResourceDefinition")
    && !(gvk.group == "" && gvk.kind == "Namespace")
    && (owner.ns != "" ==> ns == owner.ns)
  }

  /** An object is handed to the modifiers with the component ID and the owner's name as annotations, and controlled by
      the owner if that is asked for and the owner reaches it; one it does not reach keeps its controller. Preparing
      fails before that iff the object carries another component's ID, or is to be controlled and has a controller
      already. */
  lemma PrepareMeans(cfg: Config, d: Obj)
    ensures var p, a := Prepare(cfg, d), d.content.annotations;
      var foreign := MANAGED_COMPONENT in a && a[MANAGED_COMPONENT] != cfg.id;
      var controlled := cfg.controllerRef && Reaches(cfg.owner, d.gvk, d.ns);
      var refused := controlled && d.content.controller != "" && d.content.controller != cfg.owner.uid;
      var marked := a[MANAGED_COMPONENT := cfg.id][RELATED_TO := cfg.owner.ns + "/" + cfg.owner.name];
      && (p.error == Some(ForeignComponent) <==> foreign) && (foreign ==> p.desired == d)
      && (p.error == Some(ControllerRefRefused) <==> !foreign && refused)
      && (!foreign && refused ==> p.desired == d.(content := d.content.(annotations := marked)))
      && (!foreign && !refused ==>
        p == Modify(cfg.modifiers, cfg.owner, d.(content := d.content.(
               annotations := marked, controller := if controlled then cfg.owner.uid else d.content.controller))))
  {
    ModifyFails(cfg.modifiers, cfg.owner);
    var a := d.content.annotations;
    assert cfg.owner.ns + (['/'] + cfg.owner.name) == cfg.owner.ns + "/" + cfg.owner.name;
    if MANAGED_COMPONENT in a && a[MANAGED_COMPONENT] == cfg.id {
      assert a[MANAGED_COMPONENT := cfg.id] == a;
    }
  }

  lemma {:induction false} ModifyFails(modifiers: seq<(Obj, Owner) -> Option<Content>>, owner: Owner)
    ensures forall d :: Modify(modifiers, owner, d).error in {None, Some(ModifierFailed)}
  {
    if modifiers != [] {
      ModifyFails(modifiers[..|modifiers| - 1], owner);
    }
  }

  /** Modifiers run in their order, each on what the earlier ones left, and none after a failure. */
  lemma {:induction false} ModifiersRunInOrder(a: seq<(Obj, Owner) -> Option<Content>>,
                                               b: seq<(Obj, Owner) -> Option<Content>>, owner: Owner, d: Obj)
    ensures Modify(a + b, owner, d) ==
      var p := Modify(a, owner, d); if p.error.Some? then p else Modify(b, owner, p.desired)
  {
    if b == [] {
      assert a + b == a;
      ModifyFails(a, owner);
    } else {
      var init := b[..|b| - 1];
      assert (a + b)[..|a + b| - 1] == a + init;
      ModifiersRunInOrder(a, init, owner, d);
    }
  }

  lemma OneModifier(modifier: (Obj, Owner) -> Option<Content>, owner: Owner, d: Obj)
    ensures Modify([modifier], owner, d) ==
      var c := modifier(d, owner);
      if c.None? then Prepared(d, Some(ModifierFailed)) else Prepared(d.(content := c.value), None)
  {
    assert [modifier][..0] == [];
  }

  /** No modifier touches the controller. */
  ghost predicate SparesController(modifiers: seq<(Obj, Owner) -> Option<Content>>) {
    forall i, d, owner :: 0 <= i < |modifiers| && modifiers[i](d, owner).Some? ==>
      modifiers[i](d, owner).value.controller == d.content.controller
  }

  lemma {:induction false} ModifyKeepsController(modifiers: seq<(Obj, Owner) -> Option<Content>>, owner: Owner, d: Obj)
    requires SparesController(modifiers)
    ensures Modify(modifiers, owner, d).desired.content.controller == d.content.controller
  {
    if modifiers != [] {
      var init := modifiers[..|modifiers| - 1];
      assert forall i :: 0 <= i < |init| ==> init[i] == modifiers[i];
      ModifyKeepsController(init, owner, d);
    }
  }

  /** Under modifiers that spare the controller a prepared object is controlled by the owner, or as it was built if the
      owner does not reach it. */
  lemma PreparedController(cfg: Config, d: Obj)
    requires SparesController(cfg.modifiers) && Prepare(cfg, d).error.None?
    ensures Prepare(cfg, d).desired.content.controller
      == if cfg.controllerRef && Reaches(cfg.owner, d.gvk, d.ns) then cfg.owner.uid else d.content.controller
  {
    PrepareMeans(cfg, d);
    var controlled := cfg.controllerRef && Reaches(cfg.owner, d.gvk, d.ns);
    ModifyKeepsController(cfg.modifiers, cfg.owner, d.(content := d.content.(
      annotations := d.content.annotations[MANAGED_COMPONENT := cfg.id]
          [RELATED_TO := cfg.owner.ns + "/" + cfg.owner.name],
      controller := if controlled then cfg.owner.uid else d.content.controller)));
  }

  /** After a clean run every object that converged, or that was missing and is create-only, is stored under the
      controller it was prepared with: the owner where it reaches. */
  lemma RunSetsController(env: Env, cfg: Config, p: Progress, builders: seq<Builder>, types: seq<GVK>, plan: seq<Obj>,
                          q: Progress, i: nat)
    requires IsRun(env, cfg, p, builders, types, plan, q) && p.visited == {}
    requires Orderly(env, builders, p.heap) && Clean(q.combined) && SparesController(cfg.modifiers)
    requires i < |builders| && Takes(builders[i])
    requires var was := p.heap[builders[i].target]; var mode := Resolve(StateFor(cfg, was, builders[i].state));
      mode == Converge || (mode == CreateOnly && was.Id() !in p.server.live)
    ensures var was := p.heap[builders[i].target];
      && was.Id() in q.server.live
      && q.server.live[was.Id()].content.controller
        == if cfg.controllerRef && Reaches(cfg.owner, was.gvk, was.ns) then cfg.owner.uid else was.content.controller
  {
    RunConverges(env, cfg, p, builders, types, plan, q);
    var was, ds := p.heap[builders[i].target], builders[i].state;
    PreparedController(cfg, was);
    var before := Live(p.server, was.Id());
    LandedMeta(StateFor(cfg, was, ds), if before.Some? then Some(before.value.content) else None,
               Desired(cfg, was).content, q.server.live[was.Id()].content);
  }
}
