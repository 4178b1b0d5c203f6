/** Stacked desired states as the list of states that the program walks: who decides, who may object, and in which
    order the hooks run. */
module Stacks {
  import opened Objects
  import opened DesiredStates

  /** The states of a stack, from the first to the last. */
  function Members(ds: DesiredState): (members: seq<DesiredState>)
    ensures members != [] && forall i :: 0 <= i < |members| ==> !members[i].Stacked?
  {
    if ds.Stacked? then Members(ds.first) + Members(ds.last) else [ds]
  }

  /** The last state alone decides what is done with the object, a dynamic one through the state inside it. */
  lemma {:induction false} LastDecides(ds: DesiredState)
    ensures var last := Members(ds)[|Members(ds)| - 1]; var state := if last.Dynamic? then last.inner else last;
      && (Resolve(ds) == CreateOnly <==> state == Static(StateCreated))
      && (Resolve(ds) == Remove <==> state == Static(StateAbsent))
    ensures ds.Stacked? ==> Resolve(ds) == Resolve(ds.last)
  {
    if ds.Stacked? {
      LastDecides(ds.last);
    }
  }

  /** What an answer to all the questions comes to: agreement if all agree, else the first that does not. */
  ghost predicate Decided(answers: seq<Option<bool>>, r: Option<bool>) {
    if r == Some(true) then forall i :: 0 <= i < |answers| ==> answers[i] == Some(true)
    else exists i :: 0 <= i < |answers| && answers[i] == r && forall j :: 0 <= j < i ==> answers[j] == Some(true)
  }

  lemma DecidedConcat(a: seq<Option<bool>>, ra: Option<bool>, b: seq<Option<bool>>, rb: Option<bool>)
    requires Decided(a, ra) && Decided(b, rb)
    ensures Decided(a + b, if ra == Some(true) then rb else ra)
  {
    var all := a + b;
    if ra != Some(true) {
      var i :| 0 <= i < |a| && a[i] == ra && forall j :: 0 <= j < i ==> a[j] == Some(true);
      assert all[i] == ra;
    } else if rb != Some(true) {
      var i :| 0 <= i < |b| && b[i] == rb && forall j :: 0 <= j < i ==> b[j] == Some(true);
      assert all[|a| + i] == rb;
    }
  }

  /** The answers of the members to one question; only dynamic states answer. */
  ghost function Answers(members: seq<DesiredState>, ask: Hooks -> Option<bool>): (answers: seq<Option<bool>>)
    ensures |answers| == |members|
  {
    seq(|members|, i requires 0 <= i < |members| =>
      if members[i].Dynamic? then ask(members[i].hooks) else Some(true))
  }

  lemma AnswersConcat(a: seq<DesiredState>, b: seq<DesiredState>, ask: Hooks -> Option<bool>)
    ensures Answers(a + b, ask) == Answers(a, ask) + Answers(b, ask)
  {
  }

  /** A stack agrees iff each of its members does; otherwise the first that objects, or fails to answer, decides. */
  lemma {:induction false} FirstObjectionDecides(ds: DesiredState, c: Obj, d: Obj)
    ensures Decided(Answers(Members(ds), (h: Hooks) => h.shouldCreate(d)), ShouldCreate(ds, d))
    ensures Decided(Answers(Members(ds), (h: Hooks) => h.shouldUpdate(c, d)), ShouldUpdate(ds, c, d))
    ensures Decided(Answers(Members(ds), (h: Hooks) => h.shouldDelete(d)), ShouldDelete(ds, d))
  {
    var create, update, delete := (h: Hooks) => h.shouldCreate(d), (h: Hooks) => h.shouldUpdate(c, d),
        (h: Hooks) => h.shouldDelete(d);
    if ds.Stacked? {
      var a, b := Members(ds.first), Members(ds.last);
      FirstObjectionDecides(ds.first, c, d);
      FirstObjectionDecides(ds.last, c, d);
      AnswersConcat(a, b, create);
      AnswersConcat(a, b, update);
      AnswersConcat(a, b, delete);
      DecidedConcat(Answers(a, create), ShouldCreate(ds.first, d), Answers(b, create), ShouldCreate(ds.last, d));
      DecidedConcat(Answers(a, update), ShouldUpdate(ds.first, c, d), Answers(b, update), ShouldUpdate(ds.last, c, d));
      DecidedConcat(Answers(a, delete), ShouldDelete(ds.first, d), Answers(b, delete), ShouldDelete(ds.last, d));
    } else {
      assert Answers([ds], create)[0] == ShouldCreate(ds, d);
      assert Answers([ds], update)[0] == ShouldUpdate(ds, c, d);
      assert Answers([ds], delete)[0] == ShouldDelete(ds, d);
    }
  }

  /** The hooks of one member. Static states have none, and a plain callback runs on the object that is read. */
  ghost function CreateHook(m: DesiredState, d: Obj): Option<Content> {
    match m
    case Dynamic(_, hooks) => hooks.beforeCreate(d)
    case Callback(hook) => hook(d)
    case _ => Some(d.content)
  }

  ghost function UpdateHook(m: DesiredState, c: Obj, d: Obj): Option<(Content, Content)> {
    match m
    case Dynamic(_, hooks) => hooks.beforeUpdate(c, d)
    case Callback(hook) => if hook(c).Some? then Some((hook(c).value, d.content)) else None
    case _ => Some((c.content, d.content))
  }

  ghost predicate DeleteHook(m: DesiredState, c: Obj) {
    match m
    case Dynamic(_, hooks) => hooks.beforeDelete(c)
    case Callback(hook) => hook(c).Some?
    case _ => true
  }

  /** Hooks one after the other, each on what the earlier ones left, up to the first failure. */
  ghost function Created(members: seq<DesiredState>, d: Obj): Option<Content> {
    if members == [] then Some(d.content)
    else
      var c := CreateHook(members[0], d);
      if c.None? then None else Created(members[1..], d.(content := c.value))
  }

  ghost function Updated(members: seq<DesiredState>, c: Obj, d: Obj): Option<(Content, Content)> {
    if members == [] then Some((c.content, d.content))
    else
      var p := UpdateHook(members[0], c, d);
      if p.None? then None else Updated(members[1..], c.(content := p.value.0), d.(content := p.value.1))
  }

  lemma {:induction false} CreatedConcat(a: seq<DesiredState>, b: seq<DesiredState>, d: Obj)
    ensures Created(a + b, d) == if Created(a, d).None? then None
        else Created(b, d.(content := Created(a, d).value))
    decreases |a|
  {
    if a == [] {
      assert a + b == b && d.(content := d.content) == d;
    } else {
      assert (a + b)[0] == a[0] && (a + b)[1..] == a[1..] + b;
      var one := CreateHook(a[0], d);
      if one.Some? {
        CreatedConcat(a[1..], b, d.(content := one.value));
      }
    }
  }

  lemma {:induction false} UpdatedConcat(a: seq<DesiredState>, b: seq<DesiredState>, c: Obj, d: Obj)
    ensures Updated(a + b, c, d) == if Updated(a, c, d).None? then None
        else Updated(b, c.(content := Updated(a, c, d).value.0), d.(content := Updated(a, c, d).value.1))
    decreases |a|
  {
    if a == [] {
      assert a + b == b && c.(content := c.content) == c && d.(content := d.content) == d;
    } else {
      assert (a + b)[0] == a[0] && (a + b)[1..] == a[1..] + b;
      var one := UpdateHook(a[0], c, d);
      if one.Some? {
        UpdatedConcat(a[1..], b, c.(content := one.value.0), d.(content := one.value.1));
      }
    }
  }

  /** A stack runs the hooks of its members in order, and none after a failure. */
  lemma {:induction false} HooksRunInOrder(ds: DesiredState, c: Obj, d: Obj)
    ensures BeforeCreate(ds, d) == if Created(Members(ds), d).None? then None
        else Some(d.(content := Created(Members(ds), d).value))
    ensures BeforeUpdate(ds, c, d) == if Updated(Members(ds), c, d).None? then None
        else Some((c.(content := Updated(Members(ds), c, d).value.0),
                   d.(content := Updated(Members(ds), c, d).value.1)))
    ensures BeforeDelete(ds, c) <==> forall i :: 0 <= i < |Members(ds)| ==> DeleteHook(Members(ds)[i], c)
    decreases ds
  {
    if ds.Stacked? {
      var a, b := Members(ds.first), Members(ds.last);
      CreatedConcat(a, b, d);
      UpdatedConcat(a, b, c, d);
      HooksRunInOrder(ds.first, c, d);
      var created, updated := BeforeCreate(ds.first, d), BeforeUpdate(ds.first, c, d);
      if created.Some? {
        HooksRunInOrder(ds.last, c, created.value);
      }
      if updated.Some? {
        HooksRunInOrder(ds.last, updated.value.0, updated.value.1);
      }
      HooksRunInOrder(ds.last, c, d);
      assert forall i :: 0 <= i < |a| ==> Members(ds)[i] == a[i];
      assert forall i :: 0 <= i < |b| ==> Members(ds)[|a| + i] == b[i];
    } else {
      assert [ds][1..] == [];
      assert Members(ds)[0] == ds;
    }
  }
}
