/** Collecting sub-results instead of stopping at the first failure (CombinedResult). */
module Results {
  import opened Objects
  import opened ResourceMachine

  datatype Combined = Combined(result: Requeue, errors: seq<Error>)

  const NOTHING: Combined := Combined(Requeue(false, 0), [])

  datatype Sub = Sub(result: Option<Requeue>, error: Option<Error>)

  function WithSub(c: Combined, sub: Sub): Combined {
    var errors := if sub.error.Some? then c.errors + [sub.error.value] else c.errors;
    if sub.result.None? then Combined(c.result, errors)
    else
      var r := sub.result.value;
      var after := if r.after > 0 && (c.result.after == 0 || r.after < c.result.after) then r.after else c.result.after;
      Combined(Requeue(c.result.requeue || r.requeue, after), errors)
  }

  function WithError(c: Combined, e: Error): Combined {
    WithSub(c, Sub(None, Some(e)))
  }

  function CombineAll(subs: seq<Sub>): Combined {
    if subs == [] then NOTHING else WithSub(CombineAll(subs[..|subs| - 1]), subs[|subs| - 1])
  }

  /** The receiver with its two fields, updated in place. */
  class CombinedResult {
    var result: Requeue
    var errors: seq<Error>

    ghost function Value(): Combined
      reads this
    {
      Combined(result, errors)
    }

    constructor ()
      ensures Value() == NOTHING
    {
      result, errors := Requeue(false, 0), [];
    }

    method CombineErr(e: Option<Error>)
      modifies this`errors
      ensures Value() == WithSub(old(Value()), Sub(None, e))
    {
      if e.Some? {
        errors := errors + [e.value];
      }
    }

    method Combine(sub: Option<Requeue>, e: Option<Error>)
      modifies this
      ensures Value() == WithSub(old(Value()), Sub(sub, e))
    {
      CombineErr(e);
      if sub.Some? {
        if sub.value.requeue {
          result := result.(requeue := true);
        }
        if sub.value.after > 0 {
          if result.after == 0 || sub.value.after < result.after {
            result := result.(after := sub.value.after);
          }
        }
      }
    }
  }

  predicate Delays(sub: Sub) {
    sub.result.Some? && sub.result.value.after > 0
  }

  /** Requeue is asked for iff some sub-result asks for it; the delay is the least positive one, 0 if there is
      none; and an error is reported iff some sub-result has one. */
  lemma {:induction false} CombineAllMeans(subs: seq<Sub>)
    ensures var c := CombineAll(subs);
      && (c.result.requeue <==> exists s :: s in subs && s.result.Some? && s.result.value.requeue)
      && (c.result.after == 0 || exists s :: s in subs && Delays(s) && s.result.value.after == c.result.after)
      && (forall s :: s in subs && Delays(s) ==> 0 < c.result.after <= s.result.value.after)
      && 0 <= c.result.after
      && (c.errors == [] <==> forall s :: s in subs ==> s.error.None?)
  {
    if subs != [] {
      var init, last := subs[..|subs| - 1], subs[|subs| - 1];
      CombineAllMeans(init);
      assert subs == init + [last];
      var c, d := CombineAll(init), CombineAll(subs);
      if c.result.requeue {
        var s :| s in init && s.result.Some? && s.result.value.requeue;
        assert s in subs;
      }
      if d.result.after != 0 && d.result.after == c.result.after {
        var s :| s in init && Delays(s) && s.result.value.after == c.result.after;
        assert s in subs;
      }
      assert last in subs;
      if d.errors == [] {
        assert forall s :: s in subs ==> s in init || s == last;
      } else if c.errors != [] {
        var s :| s in init && s.error.Some?;
        assert s in subs;
      }
    }
  }

  /** The combined result depends only on which sub-results occur, not on their order or number. */
  lemma OrderAndRepetitionIrrelevant(a: seq<Sub>, b: seq<Sub>)
    requires forall s :: s in a <==> s in b
    ensures CombineAll(a).result == CombineAll(b).result
    ensures CombineAll(a).errors == [] <==> CombineAll(b).errors == []
  {
    CombineAllMeans(a);
    CombineAllMeans(b);
  }
}
