/** The watch mapper (EnqueueByOwnerAnnotationMapper) and the annotation it reads. */
module Watches {
  import opened Strings
  import opened Objects
  import opened Cluster
  import opened DesiredStates
  import opened Convergence
  import opened NativeMachine
  import opened RunFrames
  import opened RunConvergence
  import opened Quiescence

  datatype Request = Request(ns: string, name: string)

  /** The requests an event on an object leads to. */
  function RequestsFor(c: Content): seq<Request> {
    var pieces := Cut(if RELATED_TO in c.annotations then c.annotations[RELATED_TO] else "", '/');
    if |pieces| != 2 then [] else [Request(pieces[0], pieces[1])]
  }

  /** An event leads to one request, for what stands before and after the first slash of the annotation, or to none if
      there is no annotation or no slash in it. */
  lemma RequestsMean(c: Content, ns: string, name: string)
    ensures RequestsFor(c) == [Request(ns, name)] <==>
      RELATED_TO in c.annotations && '/' !in ns && c.annotations[RELATED_TO] == ns + "/" + name
    ensures RequestsFor(c) == [] <==> RELATED_TO !in c.annotations || '/' !in c.annotations[RELATED_TO]
    ensures |RequestsFor(c)| <= 1
  {
    if '/' !in ns {
      assert ns + "/" + name == ns + (['/'] + name);
      CutAppend(ns, name, '/');
    }
    if RELATED_TO in c.annotations && '/' in c.annotations[RELATED_TO] {
      var text := c.annotations[RELATED_TO];
      var i := FirstIndex(text, '/');
      assert text == text[..i] + "/" + text[i + 1..];
    }
  }

  /** The annotation written for an owner reads back as that owner, unless there is a slash in its namespace. */
  lemma RelatedToReadsBack(c: Content, owner: Owner)
    requires RELATED_TO in c.annotations && c.annotations[RELATED_TO] == RelatedTo(owner)
    ensures RequestsFor(c) == [Request(owner.ns, owner.name)] <==> '/' !in owner.ns
  {
    if '/' !in owner.ns {
      CutAppend(owner.ns, owner.name, '/');
    } else {
      var i := FirstIndex(owner.ns, '/');
      var head, tail := owner.ns[..i], owner.ns[i + 1..] + (['/'] + owner.name);
      assert RelatedTo(owner) == head + (['/'] + tail);
      CutAppend(head, tail, '/');
    }
  }

  /** Preparing an object leaves the owner's annotation on it. */
  ghost predicate KeepsRelation(cfg: Config, d: Obj) {
    var a := Desired(cfg, d).content.annotations; RELATED_TO in a && a[RELATED_TO] == RelatedTo(cfg.owner)
  }

  /** It does unless a modifier touches that annotation. */
  lemma ModifiersKeepRelation(cfg: Config, d: Obj)
    requires Spares(cfg.modifiers, RELATED_TO) && Prepare(cfg, d).error.None?
    ensures KeepsRelation(cfg, d)
  {
    var related := WithAnnotation(AddComponentID(d, cfg.id).value, RELATED_TO, RelatedTo(cfg.owner));
    ModifyKeepsAnnotation(cfg.modifiers, cfg.owner, related, RELATED_TO);
    if cfg.controllerRef && Controllable(cfg.owner, related) {
      ModifyKeepsAnnotation(cfg.modifiers, cfg.owner, SetController(cfg.owner, related).value, RELATED_TO);
    }
  }

  /** The round trip through a whole run: after a clean run every object that was to converge is stored with an
      annotation that leads the watch back to exactly the owner of the run. */
  lemma WatchFindsOwner(env: Env, cfg: Config, p: Progress, builders: seq<Builder>, types: seq<GVK>, plan: seq<Obj>,
                        q: Progress, i: nat)
    requires IsRun(env, cfg, p, builders, types, plan, q) && p.visited == {}
    requires Orderly(env, builders, p.heap)
    requires Clean(q.combined) && '/' !in cfg.owner.ns
    requires i < |builders| && Takes(builders[i])
    requires KeepsRelation(cfg, p.heap[builders[i].target])
    requires Resolve(StateFor(cfg, p.heap[builders[i].target], builders[i].state)) == Converge
    ensures var key := p.heap[builders[i].target].Id();
      key in q.server.live && RequestsFor(q.server.live[key].content) == [Request(cfg.owner.ns, cfg.owner.name)]
  {
    RunConverges(env, cfg, p, builders, types, plan, q);
    var was, ds := p.heap[builders[i].target], builders[i].state;
    var key := was.Id();
    var d, state := Desired(cfg, was), StateFor(cfg, was, ds);
    var before := Live(p.server, key);
    LandedAnnotation(state, if before.Some? then Some(before.value.content)
        else None, d.content, q.server.live[key].content, RELATED_TO);
    RelatedToReadsBack(q.server.live[key].content, cfg.owner);
  }
}
