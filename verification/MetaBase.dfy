/** Label and annotation merging (types.MetaBase.Merge). */
module MetaBase {
  import opened Objects

  /** What Merge leaves in the metadata: every base entry, and the old entries under other keys. */
  function Merged(base: StringMap, meta: StringMap): (m: StringMap)
    ensures m.Keys == meta.Keys + base.Keys
    ensures forall k :: k in base ==> m[k] == base[k]
    ensures forall k :: k in meta && k !in base ==> m[k] == meta[k]
  {
    meta + base
  }

  /** The write loop of Merge: one assignment per base entry, in whatever order the map is walked. */
  method MergeInto(base: StringMap, meta: StringMap) returns (m: StringMap)
    ensures m == Merged(base, meta)
  {
    m := meta;
    var rest := base.Keys;
    while rest != {}
      invariant rest <= base.Keys
      invariant m.Keys == meta.Keys + (base.Keys - rest)
      invariant forall k :: k in base && k !in rest ==> m[k] == base[k]
      invariant forall k :: k in meta && (k !in base || k in rest) ==> m[k] == meta[k]
      decreases rest
    {
      var k :| k in rest;
      m := m[k := base[k]];
      rest := rest - {k};
    }
  }
}
