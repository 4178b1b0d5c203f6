/** Deep merging of string-keyed trees (helm.MergeMaps, StrimapBuilder.Getin). */
module Strimap {
  import opened Objects

  /** A value of a Strimap: another Strimap, or anything else. A nil map is the empty one. */
  datatype Value = Scalar(text: string) | Tree(entries: map<string, Value>)

  type Strimap = v: Value | v.Tree? witness Tree(map[])

  /** MergeMaps: entries of `b` win, except that two trees under one key are merged. */
  function Merge(a: Strimap, b: Strimap): (r: Strimap)
    ensures r.entries.Keys == a.entries.Keys + b.entries.Keys
    decreases a, 1
  {
    Tree(map k | k in a.entries.Keys + b.entries.Keys :: MergedAt(a, b, k))
  }

  function MergedAt(a: Strimap, b: Strimap, k: string): Value
    requires k in a.entries || k in b.entries
    decreases a, 0
  {
    if k !in b.entries then a.entries[k]
    else if k in a.entries && a.entries[k].Tree? && b.entries[k].Tree? then Merge(a.entries[k], b.entries[k])
    else b.entries[k]
  }

  /** The merge as it is written: copy `a`, then walk `b`. Only the new map is assigned to. */
  method MergeMaps(a: Strimap, b: Strimap) returns (r: Strimap)
    ensures r == Merge(a, b)
    decreases b
  {
    var out: map<string, Value> := map[];
    var rest := a.entries.Keys;
    while rest != {}
      invariant rest <= a.entries.Keys
      invariant out.Keys == a.entries.Keys - rest
      invariant forall k :: k in out ==> out[k] == a.entries[k]
      decreases rest
    {
      var k :| k in rest;
      out, rest := out[k := a.entries[k]], rest - {k};
    }
    assert out == a.entries;
    rest := b.entries.Keys;
    while rest != {}
      invariant rest <= b.entries.Keys
      invariant out.Keys == a.entries.Keys + (b.entries.Keys - rest)
      invariant forall k :: k in out ==> out[k] == if k in rest then a.entries[k] else MergedAt(a, b, k)
      decreases rest
    {
      var k :| k in rest;
      var v := b.entries[k];
      if v.Tree? && k in out && out[k].Tree? {
        var merged := MergeMaps(out[k], v);
        out := out[k := merged];
      } else {
        out := out[k := v];
      }
      rest := rest - {k};
    }
    r := Tree(out);
    assert out == Merge(a, b).entries;
  }

  /** Getin: the tree under a path of keys. */
  function Getin(s: Strimap, path: seq<string>): Option<Strimap> {
    if path == [] then None
    else if path[0] !in s.entries || !s.entries[path[0]].Tree? then None
    else if |path| > 1 then Getin(s.entries[path[0]], path[1..])
    else Some(s.entries[path[0]])
  }

  /** The empty tree is an identity on both sides. */
  lemma MergeIdentity(a: Strimap)
    ensures Merge(a, Tree(map[])) == a && Merge(Tree(map[]), a) == a
  {
    assert Merge(a, Tree(map[])).entries == a.entries;
    assert Merge(Tree(map[]), a).entries == a.entries;
  }

  /** `c` already holds everything of `a`: each key, and each subtree in turn. */
  predicate Absorbs(c: Strimap, a: Strimap)
    decreases a
  {
    forall k | k in a.entries ::
      k in c.entries && (a.entries[k].Tree? && c.entries[k].Tree? ==> Absorbs(c.entries[k], a.entries[k]))
  }

  /** Merging changes nothing exactly when everything is already there. */
  lemma {:induction false} MergeAbsorbed(a: Strimap, c: Strimap)
    ensures Merge(a, c) == c <==> Absorbs(c, a)
    decreases a
  {
    forall k | k in a.entries && k in c.entries && a.entries[k].Tree? && c.entries[k].Tree?
      ensures Merge(a.entries[k], c.entries[k]) == c.entries[k] <==> Absorbs(c.entries[k], a.entries[k])
    {
      MergeAbsorbed(a.entries[k], c.entries[k]);
    }
    var m := Merge(a, c);
    if Absorbs(c, a) {
      assert m.entries.Keys == c.entries.Keys;
      assert forall k :: k in m.entries ==> m.entries[k] == MergedAt(a, c, k);
      assert m.entries == c.entries;
    } else {
      var k :| k in a.entries
          && !(k in c.entries && (a.entries[k].Tree? && c.entries[k].Tree? ==> Absorbs(c.entries[k], a.entries[k])));
      assert k in m.entries;
      assert m.entries[k] == MergedAt(a, c, k);
    }
  }

  /** Merging a tree with itself gives it back. */
  lemma MergeIdempotent(a: Strimap)
    ensures Merge(a, a) == a
  {
    AbsorbsItself(a);
    MergeAbsorbed(a, a);
  }

  lemma {:induction false} AbsorbsItself(a: Strimap)
    ensures Absorbs(a, a)
    decreases a
  {
    forall k | k in a.entries && a.entries[k].Tree?
      ensures Absorbs(a.entries[k], a.entries[k])
    {
      AbsorbsItself(a.entries[k]);
    }
  }

  /** When grouping does not matter: wherever `b` holds a scalar between two trees, the outer tree of `c` must
      already hold everything of `a`'s, because only one of the groupings lets `b` wipe it out. */
  predicate Associates(a: Strimap, b: Strimap, c: Strimap)
    decreases a
  {
    forall k | k in a.entries && k in b.entries && k in c.entries && a.entries[k].Tree? && c.entries[k].Tree? ::
      if b.entries[k].Tree? then Associates(a.entries[k], b.entries[k], c.entries[k])
      else Absorbs(c.entries[k], a.entries[k])
  }

  predicate GroupingsAgree(a: Strimap, b: Strimap, c: Strimap) {
    Merge(Merge(a, b), c) == Merge(a, Merge(b, c))
  }

  predicate AllTrees(a: Strimap, b: Strimap, c: Strimap, k: string) {
    && k in a.entries && k in b.entries && k in c.entries
    && a.entries[k].Tree? && b.entries[k].Tree? && c.entries[k].Tree?
  }

  /** What the condition says of one key. */
  predicate AssociatesAt(a: Strimap, b: Strimap, c: Strimap, k: string) {
    k in a.entries && k in b.entries && k in c.entries && a.entries[k].Tree? && c.entries[k].Tree? ==>
      if b.entries[k].Tree? then Associates(a.entries[k], b.entries[k], c.entries[k])
      else Absorbs(c.entries[k], a.entries[k])
  }

  /** Per key, the two groupings agree exactly when the condition holds there. */
  lemma AssociativeAt(a: Strimap, b: Strimap, c: Strimap, k: string)
    requires k in a.entries || k in b.entries || k in c.entries
    requires AllTrees(a, b, c, k) ==>
      GroupingsAgree(a.entries[k], b.entries[k], c.entries[k]) == Associates(a.entries[k], b.entries[k], c.entries[k])
    ensures MergedAt(Merge(a, b), c, k) == MergedAt(a, Merge(b, c), k) <==> AssociatesAt(a, b, c, k)
  {
    assert k in a.entries || k in b.entries ==> Merge(a, b).entries[k] == MergedAt(a, b, k);
    assert k in b.entries || k in c.entries ==> Merge(b, c).entries[k] == MergedAt(b, c, k);
    if k in a.entries && k in c.entries && a.entries[k].Tree? && c.entries[k].Tree? {
      MergeAbsorbed(a.entries[k], c.entries[k]);
    }
  }

  /** Merging is associative exactly under that condition. */
  lemma {:induction false} MergeAssociative(a: Strimap, b: Strimap, c: Strimap)
    ensures Merge(Merge(a, b), c) == Merge(a, Merge(b, c)) <==> Associates(a, b, c)
    decreases a
  {
    var l, r := Merge(Merge(a, b), c), Merge(a, Merge(b, c));
    assert l.entries.Keys == r.entries.Keys == a.entries.Keys + b.entries.Keys + c.entries.Keys;
    forall k | k in l.entries
      ensures l.entries[k] == r.entries[k] <==> AssociatesAt(a, b, c, k)
    {
      if AllTrees(a, b, c, k) {
        MergeAssociative(a.entries[k], b.entries[k], c.entries[k]);
      }
      AssociativeAt(a, b, c, k);
    }
    if Associates(a, b, c) {
      assert l.entries == r.entries;
    }
  }

  /** No path holds a tree in `a`, a scalar in `b` and a tree in `c`. */
  predicate NoSandwich(a: Strimap, b: Strimap, c: Strimap)
    decreases a
  {
    forall k | k in a.entries && k in b.entries && k in c.entries && a.entries[k].Tree? && c.entries[k].Tree? ::
      b.entries[k].Tree? && NoSandwich(a.entries[k], b.entries[k], c.entries[k])
  }

  lemma {:induction false} NoSandwichAssociates(a: Strimap, b: Strimap, c: Strimap)
    requires NoSandwich(a, b, c)
    ensures Associates(a, b, c)
    decreases a
  {
    forall k | k in a.entries && k in b.entries && k in c.entries && a.entries[k].Tree? && c.entries[k].Tree?
      ensures Associates(a.entries[k], b.entries[k], c.entries[k])
    {
      NoSandwichAssociates(a.entries[k], b.entries[k], c.entries[k]);
    }
  }

  /** So without such a path merging is associative. */
  lemma MergeAssociativeWithoutSandwich(a: Strimap, b: Strimap, c: Strimap)
    requires NoSandwich(a, b, c)
    ensures Merge(Merge(a, b), c) == Merge(a, Merge(b, c))
  {
    NoSandwichAssociates(a, b, c);
    MergeAssociative(a, b, c);
  }

  /** With one it need not be: the scalar wipes out `a`'s subtree on one side only. */
  lemma SandwichBreaksAssociativity()
    ensures var a, b, c := Tree(map["k" := Tree(map["x" := Scalar("1")])]), Tree(map["k" := Scalar("2")]),
        Tree(map["k" := Tree(map[])]);
      Merge(Merge(a, b), c) != Merge(a, Merge(b, c))
  {
    var a, b, c := Tree(map["k" := Tree(map["x" := Scalar("1")])]), Tree(map["k" := Scalar("2")]),
        Tree(map["k" := Tree(map[])]);
    assert "x" in a.entries["k"].entries && "x" !in c.entries["k"].entries;
    assert !Absorbs(c.entries["k"], a.entries["k"]);
    MergeAssociative(a, b, c);
  }

  /** Where both inputs hold a tree, the merge holds the merge of the two. */
  lemma {:induction false} GetinMerge(a: Strimap, b: Strimap, path: seq<string>)
    requires Getin(a, path).Some? && Getin(b, path).Some?
    ensures Getin(Merge(a, b), path) == Some(Merge(Getin(a, path).value, Getin(b, path).value))
    decreases path
  {
    var k := path[0];
    assert Merge(a, b).entries[k] == MergedAt(a, b, k);
    if |path| > 1 {
      GetinMerge(a.entries[k], b.entries[k], path[1..]);
    }
  }

  /** A path of one key and more leads on from the tree under that key; there is none under the empty path, and none
      where the key is missing or holds a scalar. */
  lemma GetinMeans(s: Strimap, key: string, path: seq<string>)
    ensures Getin(s, []) == None
    ensures Getin(s, [key] + path) ==
      if key !in s.entries || s.entries[key].Scalar? then None
      else if path == [] then Some(s.entries[key])
      else Getin(s.entries[key], path)
  {
    assert ([key] + path)[1..] == path;
  }

  /** Paths can be followed in two legs. */
  lemma {:induction false} GetinConcat(s: Strimap, a: seq<string>, b: seq<string>)
    requires a != [] && b != []
    ensures Getin(s, a + b) == if Getin(s, a).None? then None else Getin(Getin(s, a).value, b)
    decreases |a|
  {
    assert (a + b)[0] == a[0] && (a + b)[1..] == a[1..] + b;
    if a[0] in s.entries && s.entries[a[0]].Tree? && |a| > 1 {
      GetinConcat(s.entries[a[0]], a[1..], b);
    } else if |a| == 1 {
      assert a[1..] + b == b;
    }
  }

  /** A tree put under a path of keys. */
  function Nest(path: seq<string>, t: Strimap): Strimap {
    if path == [] then t else Tree(map[path[0] := Nest(path[1..], t)])
  }

  /** What is put under a path is found there, also after merging it over anything that holds no tree there. */
  lemma {:induction false} GetinNest(path: seq<string>, t: Strimap)
    requires path != []
    ensures Getin(Nest(path, t), path) == Some(t)
  {
    if |path| > 1 {
      GetinNest(path[1..], t);
    } else {
      assert Nest(path[1..], t) == t;
    }
  }

  lemma {:induction false} GetinMergeNest(a: Strimap, path: seq<string>, t: Strimap)
    requires path != [] && Getin(a, path).None?
    ensures Getin(Merge(a, Nest(path, t)), path) == Some(t)
    decreases |path|
  {
    var b := Nest(path, t);
    assert Merge(a, b).entries[path[0]] == MergedAt(a, b, path[0]);
    if path[0] in a.entries && a.entries[path[0]].Tree? && |path| > 1 {
      GetinMergeNest(a.entries[path[0]], path[1..], t);
    } else {
      GetinNest(path, t);
    }
  }
}
