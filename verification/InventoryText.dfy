/** The object list as it is written into the inventory ConfigMap, and read back. */
module InventoryText {
  import opened Strings
  import opened Objects

  /** What the inventory records of an object. */
  datatype Ref = Ref(gvk: GVK, ns: string, name: string) {
    function Id(): Key {
      Key(gvk.Gk(), ns, name)
    }
  }

  function RefOf(o: Obj): Ref {
    Ref(o.gvk, o.ns, o.name)
  }

  function Fields(r: Ref): seq<string> {
    [r.gvk.group, r.gvk.version, r.gvk.kind, r.ns, r.name]
  }

  function Print(r: Ref): string {
    Join(Fields(r), '/')
  }

  function PrintEach(refs: seq<Ref>): (lines: seq<string>)
    ensures |lines| == |refs| && forall i :: 0 <= i < |refs| ==> lines[i] == Print(refs[i])
  {
    if refs == [] then [] else PrintEach(refs[..|refs| - 1]) + [Print(refs[|refs| - 1])]
  }

  function PrintAll(refs: seq<Ref>): string {
    Join(PrintEach(refs), ',')
  }

  /** One entry; a fifth slash and anything after it are ignored, fewer than five parts make the read panic. */
  function ParseItem(item: string): Option<Ref> {
    var parts := Split(item, '/');
    if |parts| < 5 then None else Some(Ref(GVK(parts[0], parts[1], parts[2]), parts[3], parts[4]))
  }

  /** Empty entries are skipped. */
  function ParseItems(items: seq<string>): Option<seq<Ref>> {
    if items == [] then Some([])
    else
      var init := ParseItems(items[..|items| - 1]);
      var item := items[|items| - 1];
      if init.None? || item == "" then init
      else
        var r := ParseItem(item);
        if r.None? then None else Some(init.value + [r.value])
  }

  function Parse(text: string): Option<seq<Ref>> {
    ParseItems(Split(text, ','))
  }

  /** The format: group, version, kind, namespace and name between slashes, one entry after the other between commas. */
  lemma TextFormat(refs: seq<Ref>, r: Ref)
    ensures Print(r) == r.gvk.group + "/" + r.gvk.version + "/" + r.gvk.kind + "/" + r.ns + "/" + r.name
    ensures PrintAll([]) == "" && PrintAll([r]) == Print(r)
    ensures refs != [] ==> PrintAll([r] + refs) == Print(r) + "," + PrintAll(refs)
  {
    JoinFive(r.gvk.group, r.gvk.version, r.gvk.kind, r.ns, r.name, '/');
    assert PrintEach([r]) == [Print(r)];
    if refs != [] {
      var lines := PrintEach([r] + refs);
      assert lines[0] == Print(r) && lines[1..] == PrintEach(refs);
    }
  }

  lemma JoinFive(a: string, b: string, c: string, d: string, e: string, sep: char)
    ensures Join([a, b, c, d, e], sep) == a + [sep] + b + [sep] + c + [sep] + d + [sep] + e
  {
    assert [a, b, c, d, e][1..] == [b, c, d, e] && [b, c, d, e][1..] == [c, d, e];
    assert [c, d, e][1..] == [d, e] && [d, e][1..] == [e];
    assert Join([d, e], sep) == d + [sep] + e;
    assert Join([c, d, e], sep) == c + [sep] + (d + [sep] + e);
    assert Join([b, c, d, e], sep) == b + [sep] + (c + [sep] + (d + [sep] + e));
  }

  /** CreateObjectsInventory: fill the slice of printed references, then join it. */
  method CreateReferences(refs: seq<Ref>) returns (text: string)
    ensures text == PrintAll(refs)
  {
    var lines := new string[|refs|];
    for i := 0 to |refs|
      invariant lines[..i] == PrintEach(refs[..i])
    {
      assert refs[..i + 1][..i] == refs[..i];
      lines[i] := Join([refs[i].gvk.group, refs[i].gvk.version, refs[i].gvk.kind, refs[i].ns, refs[i].name], '/');
    }
    assert refs[..|refs|] == refs && lines[..|refs|] == lines[..];
    text := Join(lines[..], ',');
  }

  /** GetObjectsFromInventory; `None` is the index-out-of-range panic on a malformed entry. */
  method ReadReferences(text: string) returns (refs: Option<seq<Ref>>)
    ensures refs == Parse(text)
  {
    var items := Split(text, ',');
    var found: seq<Ref> := [];
    for i := 0 to |items|
      invariant ParseItems(items[..i]) == Some(found)
    {
      assert items[..i + 1][..i] == items[..i];
      if items[i] == "" {
        continue;
      }
      var parts := Split(items[i], '/');
      if |parts| < 5 {
        ParseStops(items, i + 1);
        return None;
      }
      found := found + [Ref(GVK(parts[0], parts[1], parts[2]), parts[3], parts[4])];
    }
    assert items[..|items|] == items;
    return Some(found);
  }

  /** An entry that the reader cannot take apart. */
  predicate Short(item: string) {
    item != "" && |Split(item, '/')| < 5
  }

  /** Reading panics exactly on texts with a short entry. */
  lemma ParsePanics(text: string)
    ensures Parse(text).None? <==> exists item :: item in Split(text, ',') && Short(item)
  {
    ItemsPanic(Split(text, ','));
  }

  /** One such text. */
  lemma ShortTextPanics()
    ensures Parse("x").None?
  {
    SplitPlain("x", ',');
    SplitPlain("x", '/');
    ParsePanics("x");
    assert "x" in Split("x", ',');
  }

  lemma {:induction false} ItemsPanic(items: seq<string>)
    ensures ParseItems(items).None? <==> exists item :: item in items && Short(item)
  {
    if items != [] {
      var init, last := items[..|items| - 1], items[|items| - 1];
      assert items == init + [last];
      ItemsPanic(init);
      assert last in items;
      assert forall item :: item in items <==> item in init || item == last;
    }
  }

  lemma {:induction false} ParseStops(items: seq<string>, i: nat)
    requires i <= |items| && ParseItems(items[..i]).None?
    ensures ParseItems(items).None?
  {
    if i == |items| {
      assert items[..i] == items;
    } else {
      assert items[..|items| - 1][..i] == items[..i];
      ParseStops(items[..|items| - 1], i);
    }
  }

  /** No field holds a separator. */
  predicate Clean(r: Ref) {
    forall f :: f in Fields(r) ==> '/' !in f && ',' !in f
  }

  lemma {:induction false} JoinHolds(parts: seq<string>, sep: char, c: char)
    requires c != sep
    ensures c in Join(parts, sep) <==> exists p :: p in parts && c in p
  {
    if |parts| > 1 {
      JoinHolds(parts[1..], sep, c);
      assert parts == [parts[0]] + parts[1..];
    }
  }

  lemma PrintedRef(r: Ref)
    requires Clean(r)
    ensures ParseItem(Print(r)) == Some(r) && Print(r) != "" && ',' !in Print(r)
  {
    SplitJoin(Fields(r), '/');
    JoinHolds(Fields(r), '/', ',');
    assert Split("", '/') == [""];
  }

  lemma AppendItem(items: seq<string>, item: string)
    requires ParseItems(items).Some? && item != "" && ParseItem(item).Some?
    ensures ParseItems(items + [item]) == Some(ParseItems(items).value + [ParseItem(item).value])
  {
    assert (items + [item])[..|items|] == items;
  }

  lemma {:induction false} ParsePrintedItems(refs: seq<Ref>)
    requires forall r :: r in refs ==> Clean(r)
    ensures ParseItems(PrintEach(refs)) == Some(refs)
  {
    if refs != [] {
      var init, last := refs[..|refs| - 1], refs[|refs| - 1];
      ParsePrintedItems(init);
      assert ParseItem(Print(last)) == Some(last) && Print(last) != "" by { PrintedRef(last); }
      AppendItem(PrintEach(init), Print(last));
      assert refs == init + [last];
    }
  }

  /** Reading what was written gives back the same references in the same order, none included. */
  lemma ParseUndoesPrint(refs: seq<Ref>)
    requires forall r :: r in refs ==> Clean(r)
    ensures Parse(PrintAll(refs)) == Some(refs)
  {
    var lines := PrintEach(refs);
    if refs == [] {
      assert Split("", ',') == [""];
      assert [""][..0] == [];
    } else {
      forall p | p in lines
        ensures ',' !in p
      {
        var i :| 0 <= i < |lines| && lines[i] == p;
        PrintedRef(refs[i]);
      }
      SplitJoin(lines, ',');
      ParsePrintedItems(refs);
    }
  }

  /** A text in the inventory's own format: empty, or entries of exactly five parts. */
  predicate WellFormed(text: string) {
    text == "" || forall item :: item in Split(text, ',') ==> |Split(item, '/')| == 5
  }

  lemma {:induction false} PrintParsedItems(items: seq<string>)
    requires forall item :: item in items ==> |Split(item, '/')| == 5
    ensures ParseItems(items).Some? && PrintEach(ParseItems(items).value) == items
  {
    if items != [] {
      var init, item := items[..|items| - 1], items[|items| - 1];
      PrintParsedItems(init);
      assert item in items;
      ItemRoundTrip(item);
      PrintEachLast(ParseItems(init).value, ParseItem(item).value);
    }
  }

  lemma PrintEachLast(refs: seq<Ref>, r: Ref)
    ensures PrintEach(refs + [r]) == PrintEach(refs) + [Print(r)]
  {
    assert (refs + [r])[..|refs|] == refs;
  }

  lemma ItemRoundTrip(item: string)
    requires |Split(item, '/')| == 5
    ensures item != "" && ParseItem(item).Some? && Print(ParseItem(item).value) == item
  {
    var parts := Split(item, '/');
    JoinSplit(item, '/');
    assert parts == [parts[0], parts[1], parts[2], parts[3], parts[4]];
    assert Split("", '/') == [""];
  }

  /** Writing what was read gives back the same text. */
  lemma PrintUndoesParse(text: string)
    requires WellFormed(text)
    ensures Parse(text).Some? && PrintAll(Parse(text).value) == text
  {
    if text == "" {
      assert Split("", ',') == [""];
      assert [""][..0] == [];
    } else {
      PrintParsedItems(Split(text, ','));
      JoinSplit(text, ',');
    }
  }
}
