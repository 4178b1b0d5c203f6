/** The API server behind the client: stored objects, the calls it answered and the writes it was asked for.
    Every call is answered by the environment, which may refuse it, lose its answer, keep a deleted object
    around while finalizers run, or fill in fields that only the cluster knows. */
module Cluster {
  import opened Objects

  datatype ApiStatus = ApiStatus(code: int, invalid: bool, message: string)

  datatype ApiError = NotFound | NoMatch | AlreadyExists | Conflict | Refused(status: ApiStatus)

  /** How the server answers one call. A refused write may still have taken effect (`effective`). */
  datatype Answer = Answer(refusal: Option<ApiStatus>, effective: bool, lingers: bool, granted: string)

  /** One run's environment: the answer to each numbered call, and the resource types the server serves. */
  datatype Env = Env(answers: nat -> Answer, served: set<GVK>)

  datatype Stored = Stored(content: Content, rv: nat, deleting: bool)

  datatype WriteCall = Created(key: Key) | Updated(key: Key) | Deleted(key: Key)

  datatype Server = Server(live: map<Key, Stored>, calls: nat, log: seq<WriteCall>)

  /** A call either yields a value or an API error. */
  datatype Reply<+T> = Ok(value: T) | Err(error: ApiError)

  /** Fields the cluster assigns when an object is created. */
  function Admit(c: Content, granted: string): Content {
    match c.body
    case ServiceBody(ip, ips, spec) =>
      if ip == "" then c.(body := ServiceBody(granted, [granted], spec)) else c
    case ServiceAccountBody(secrets, spec) => c.(body := ServiceAccountBody(secrets + [granted], spec))
    case _ => c
  }

  /** Fields the cluster keeps when an update leaves them out. */
  function Retain(was: Content, c: Content): Content {
    if was.body.ServiceBody? && c.body.ServiceBody? && c.body.clusterIP == "" then
      c.(body := ServiceBody(was.body.clusterIP, was.body.clusterIPs, c.body.spec))
    else c
  }

  function Asked(s: Server, w: WriteCall): Server {
    s.(calls := s.calls + 1, log := s.log + [w])
  }

  function GetCall(env: Env, s: Server, gvk: GVK, key: Key): (Server, Reply<Stored>) {
    var a := env.answers(s.calls);
    (s.(calls := s.calls + 1),
     if a.refusal.Some? then Err(Refused(a.refusal.value))
     else if gvk !in env.served then Err(NoMatch)
     else if key in s.live then Ok(s.live[key])
     else Err(NotFound))
  }

  function CreateCall(env: Env, s: Server, o: Obj): (Server, Reply<Stored>) {
    var a := env.answers(s.calls);
    var asked := Asked(s, Created(o.Id()));
    var next := Stored(Admit(o.content, a.granted), s.calls + 1, false);
    var done := asked.(live := s.live[o.Id() := next]);
    var error :=
      if o.gvk !in env.served then Some(NoMatch)
      else if o.name == "" then Some(Refused(ApiStatus(422, true, "name is required")))
      else if o.Id() in s.live then Some(AlreadyExists)
      else if o.rv != 0
      then Some(Refused(ApiStatus(400, false, "resourceVersion should not be set on objects to be created")))
      else None;
    if a.refusal.Some? then (if a.effective && error.None? then done else asked, Err(Refused(a.refusal.value)))
    else if error.Some? then (asked, Err(error.value))
    else (done, Ok(next))
  }

  function UpdateCall(env: Env, s: Server, o: Obj): (Server, Reply<Stored>) {
    var a := env.answers(s.calls);
    var asked := Asked(s, Updated(o.Id()));
    if o.gvk !in env.served then (asked, Err(if a.refusal.Some? then Refused(a.refusal.value) else NoMatch))
    else if o.Id() !in s.live then (asked, Err(if a.refusal.Some? then Refused(a.refusal.value) else NotFound))
    else
      var was := s.live[o.Id()];
      var stale := o.rv != 0 && o.rv != was.rv;
      var next := Stored(Retain(was.content, o.content), s.calls + 1, was.deleting);
      var done := asked.(live := s.live[o.Id() := next]);
      if a.refusal.Some? then (if a.effective && !stale then done else asked, Err(Refused(a.refusal.value)))
      else if stale then (asked, Err(Conflict))
      else (done, Ok(next))
  }

  /** Deleting removes the object, or marks it while finalizers or dependents (`foreground`) hold it. */
  function DeleteCall(env: Env, s: Server, gvk: GVK, key: Key, foreground: bool): (Server, Reply<()>) {
    var a := env.answers(s.calls);
    var asked := Asked(s, Deleted(key));
    if gvk !in env.served then (asked, Err(if a.refusal.Some? then Refused(a.refusal.value) else NoMatch))
    else if key !in s.live then (asked, Err(if a.refusal.Some? then Refused(a.refusal.value) else NotFound))
    else
      var done :=
        if a.lingers || foreground then asked.(live := s.live[key := s.live[key].(deleting := true)])
        else asked.(live := s.live - {key});
      if a.refusal.Some? then (if a.effective then done else asked, Err(Refused(a.refusal.value)))
      else (done, Ok(()))
  }

  /** Whether listing a type at this point succeeds. */
  predicate ListAnswered(env: Env, calls: nat, gvk: GVK) {
    env.answers(calls).refusal.None? && gvk in env.served
  }

  /** A stored object as a list or a read under the given version shows it. */
  function Shown(gvk: GVK, key: Key, st: Stored): Obj {
    Obj(gvk, key.ns, key.name, st.content, st.rv)
  }

  /** An object a list of its type shows. The API server holds no object without a name. */
  predicate Listable(s: Server, o: Obj) {
    o.name != "" && o.Id() in s.live && o == Shown(o.gvk, o.Id(), s.live[o.Id()])
  }

  /** What a successful list returns, in whatever order the server keeps it. */
  ghost predicate IsListing(s: Server, gvk: GVK, items: seq<Obj>) {
    && (forall o :: o in items <==> o.gvk == gvk && Listable(s, o))
    && (forall i, j :: 0 <= i < j < |items| ==> items[i] != items[j])
  }

  /** A later server: the log and the call counter only grow. */
  ghost predicate Follows(s: Server, s': Server) {
    s.log <= s'.log && s.calls <= s'.calls
  }

  /** The writes asked for between two servers. */
  ghost function Added(s: Server, s': Server): seq<WriteCall>
    requires Follows(s, s')
  {
    s'.log[|s.log|..]
  }

  /** Between two servers at most one object changed and no write was asked for any other. */
  ghost predicate OnlyTouches(s: Server, s': Server, key: Key) {
    && Follows(s, s')
    && s'.live - {key} == s.live - {key}
    && (forall w :: w in Added(s, s') ==> w.key == key)
  }

  lemma AddedConcat(s: Server, s1: Server, s2: Server)
    requires Follows(s, s1) && Follows(s1, s2)
    ensures Follows(s, s2) && Added(s, s2) == Added(s, s1) + Added(s1, s2)
  {
  }

  lemma TouchesTrans(s: Server, s1: Server, s2: Server, key: Key)
    requires OnlyTouches(s, s1, key) && OnlyTouches(s1, s2, key)
    ensures OnlyTouches(s, s2, key) && Added(s, s2) == Added(s, s1) + Added(s1, s2)
  {
    AddedConcat(s, s1, s2);
  }

  lemma TouchesOther(s: Server, s': Server, key: Key, other: Key)
    requires OnlyTouches(s, s', key) && other != key
    ensures other in s'.live <==> other in s.live
    ensures other in s.live ==> s'.live[other] == s.live[other]
  {
    assert other in s'.live - {key} <==> other in s'.live;
    assert other in s.live - {key} <==> other in s.live;
    if other in s.live {
      assert (s'.live - {key})[other] == (s.live - {key})[other];
    }
  }

  lemma GetTouches(env: Env, s: Server, gvk: GVK, key: Key)
    ensures var s' := GetCall(env, s, gvk, key).0; OnlyTouches(s, s', key) && Added(s, s') == [] && s'.live == s.live
  {
  }

  /** Setting or removing one key changes nothing elsewhere. */
  lemma SameElsewhere(live: map<Key, Stored>, key: Key, st: Stored)
    ensures live[key := st] - {key} == live - {key} && (live - {key}) - {key} == live - {key}
  {
  }

  /** A call that asks for one write, and sets, removes or leaves the object written. */
  lemma AskedTouches(s: Server, w: WriteCall, live: map<Key, Stored>)
    requires live - {w.key} == s.live - {w.key}
    ensures var s' := Asked(s, w).(live := live); OnlyTouches(s, s', w.key) && Added(s, s') == [w]
  {
  }

  lemma CreateTouches(env: Env, s: Server, o: Obj)
    ensures var s' := CreateCall(env, s, o).0; OnlyTouches(s, s', o.Id()) && Added(s, s') == [Created(o.Id())]
    ensures o.Id() in s.live ==> CreateCall(env, s, o).0.live == s.live
  {
  }

  lemma UpdateTouches(env: Env, s: Server, o: Obj)
    ensures var s' := UpdateCall(env, s, o).0;
      OnlyTouches(s, s', o.Id()) && Added(s, s') == [Updated(o.Id())] && s'.live.Keys == s.live.Keys
  {
  }

  lemma DeleteTouches(env: Env, s: Server, gvk: GVK, key: Key, foreground: bool)
    ensures var s' := DeleteCall(env, s, gvk, key, foreground).0;
      OnlyTouches(s, s', key) && Added(s, s') == [Deleted(key)]
  {
    var s' := DeleteCall(env, s, gvk, key, foreground).0;
    DeleteLeaves(env, s, gvk, key, foreground);
    AskedTouches(s, Deleted(key), s'.live);
  }

  lemma DeleteLeaves(env: Env, s: Server, gvk: GVK, key: Key, foreground: bool)
    ensures var s' := DeleteCall(env, s, gvk, key, foreground).0;
      s' == Asked(s, Deleted(key)).(live := s'.live) && s'.live - {key} == s.live - {key}
  {
    if key in s.live {
      SameElsewhere(s.live, key, s.live[key].(deleting := true));
    }
  }

  /** The controller-runtime client: each method is one call. */
  class Client {
    var server: Server
    var env: Env

    constructor (server: Server, env: Env)
      ensures this.server == server && this.env == env
    {
      this.server, this.env := server, env;
    }

    method Get(gvk: GVK, key: Key) returns (reply: Reply<Stored>)
      modifies this`server
      ensures (server, reply) == GetCall(env, old(server), gvk, key)
    {
      var (s, r) := GetCall(env, server, gvk, key);
      server, reply := s, r;
    }

    method Create(o: Obj) returns (reply: Reply<Stored>)
      modifies this`server
      ensures (server, reply) == CreateCall(env, old(server), o)
    {
      var (s, r) := CreateCall(env, server, o);
      server, reply := s, r;
    }

    method Update(o: Obj) returns (reply: Reply<Stored>)
      modifies this`server
      ensures (server, reply) == UpdateCall(env, old(server), o)
    {
      var (s, r) := UpdateCall(env, server, o);
      server, reply := s, r;
    }

    method Delete(gvk: GVK, key: Key, foreground: bool) returns (reply: Reply<()>)
      modifies this`server
      ensures (server, reply) == DeleteCall(env, old(server), gvk, key, foreground)
    {
      var (s, r) := DeleteCall(env, server, gvk, key, foreground);
      server, reply := s, r;
    }

    method List(gvk: GVK) returns (ok: bool, items: seq<Obj>)
      modifies this`server
      ensures server == old(server).(calls := old(server).calls + 1)
      ensures ok == ListAnswered(env, old(server).calls, gvk)
      ensures ok ==> IsListing(server, gvk, items)
      ensures !ok ==> items == []
    {
      ok, items := ListAnswered(env, server.calls, gvk), [];
      server := server.(calls := server.calls + 1);
      if ok {
        var rest := set k | k in server.live && k.gk == gvk.Gk() && k.name != "";
        ghost var all := rest;
        while rest != {}
          invariant rest <= all
          invariant forall o :: o in items <==> o.gvk == gvk && o.Id() in all - rest && Listable(server, o)
          invariant forall i, j :: 0 <= i < j < |items| ==> items[i] != items[j]
          decreases rest
        {
          var k :| k in rest;
          var item := Shown(gvk, k, server.live[k]);
          assert item.Id() == k;
          assert item !in items;
          items, rest := items + [item], rest - {k};
        }
      }
    }
  }
}
