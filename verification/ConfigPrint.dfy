/** The printer of configurations, which appends the entries of a section to a buffer of fixed size. */
module ConfigPrint {
  import opened Codes
  import opened Names
  import opened ConnString
  import opened Splitter
  import opened ConfigText

  /** A line of a configuration. */
  datatype Item = Section(name: string) | Define(entry: Entry) | Continue(value: string)

  // The definitions up to the next section.
  function Definitions(items: seq<Item>): seq<Entry> {
    if items == [] || items[0].Section? then []
    else if items[0].Define? then [items[0].entry] + Definitions(items[1..])
    else Definitions(items[1..])
  }

  /** The definitions of the first section of that name. */
  function InSection(items: seq<Item>, section: string): seq<Entry> {
    if items == [] then []
    else if items[0].Section? && SameName(items[0].name, section) then Definitions(items[1..])
    else InSection(items[1..], section)
  }

  predicate NoSection(items: seq<Item>) {
    forall i :: 0 <= i < |items| ==> !items[i].Section?
  }

  /** What is printed is what stands between the first heading of that name, in any case, and the next heading; without
      such a heading it is nothing. */
  lemma {:induction false} SectionFound(before: seq<Item>, name: string, body: seq<Item>, after: seq<Item>, section: string)
    requires forall i :: 0 <= i < |before| ==> !(before[i].Section? && SameName(before[i].name, section))
    requires SameName(name, section) && NoSection(body) && (after == [] || after[0].Section?)
    ensures InSection(before + ([Section(name)] + (body + after)), section) == Definitions(body)
  {
    var items := before + ([Section(name)] + (body + after));
    if before == [] {
      assert items[0] == Section(name) && items[1..] == body + after;
      DefinitionsUpTo(body, after);
    } else {
      assert items[0] == before[0] && items[1..] == before[1..] + ([Section(name)] + (body + after));
      SectionFound(before[1..], name, body, after, section);
    }
  }

  lemma {:induction false} SectionMissing(items: seq<Item>, section: string)
    requires forall i :: 0 <= i < |items| ==> !(items[i].Section? && SameName(items[i].name, section))
    ensures InSection(items, section) == []
  {
    if items != [] {
      SectionMissing(items[1..], section);
    }
  }

  lemma {:induction false} DefinitionsUpTo(body: seq<Item>, after: seq<Item>)
    requires NoSection(body) && (after == [] || after[0].Section?)
    ensures Definitions(body + after) == Definitions(body)
  {
    if body == [] {
      assert body + after == after;
    } else {
      assert (body + after)[1..] == body[1..] + after;
      DefinitionsUpTo(body[1..], after);
    }
  }

  /** Between headings the definitions are printed in their order, and continuation lines are not. */
  lemma {:induction false} DefinitionsInOrder(a: seq<Item>, b: seq<Item>)
    requires NoSection(a)
    ensures Definitions(a + b) == Definitions(a) + Definitions(b)
    ensures forall e :: Definitions([Define(e)] + b) == [e] + Definitions(b)
    ensures forall v :: Definitions([Continue(v)] + b) == Definitions(b)
  {
    forall i: Item ensures ([i] + b)[1..] == b {
    }
    if a == [] {
      assert a + b == b;
    } else {
      assert (a + b)[1..] == a[1..] + b;
      DefinitionsInOrder(a[1..], b);
    }
  }

  predicate IsText(item: Item) {
    item.Define? ==> NUL !in item.entry.key && NUL !in item.entry.value
  }

  // ---- Appending ----

  // As much of a string as fits a buffer of that size, with its NUL.
  function Fit(s: string, size: nat): (r: string)
    requires size > 0
    ensures IsPrefix(r, s) && (|s| < size ==> |r| == |s|) && (|s| >= size ==> |r| == size - 1)
  {
    if |s| < size then s else s[..size - 1]
  }

  predicate IsPrefix(p: string, s: string) {
    |p| <= |s| && s[..|p|] == p
  }

  lemma FitPrefix(p: string, s: string, size: nat)
    requires IsPrefix(p, s) && 0 < size <= |p|
    ensures Fit(p, size) == Fit(s, size) && |s| >= size
  {
    assert forall k :: 0 <= k < size - 1 ==> p[k] == s[..|p|][k];
  }

  // The position of the NUL, or the size.
  method FindEnd(a: array<char>) returns (d: nat)
    ensures d == Length(a[..]) <= a.Length && NUL !in a[..d] && (d < a.Length ==> a[d] == NUL)
  {
    d := 0;
    while d < a.Length && a[d] != NUL
      invariant d <= a.Length && forall k :: 0 <= k < d ==> a[k] != NUL
    {
      d := d + 1;
    }
    if d < a.Length {
      LengthIs(a[..], d);
    } else {
      LengthOfAll(a[..]);
    }
  }

  lemma {:induction false} LengthOfAll(s: seq<char>)
    requires forall k :: 0 <= k < |s| ==> s[k] != NUL
    ensures Length(s) == |s|
  {
    if s != [] {
      LengthOfAll(s[1..]);
    }
  }

  // Copies what fits behind the first dlen characters.
  method CopyTail(a: array<char>, src: string, dlen: nat)
    requires dlen < a.Length && NUL !in a[..dlen] && NUL !in src
    modifies a
    ensures Holds(a[..], 0, Fit(old(a[..dlen]) + src, a.Length), a.Length)
  {
    ghost var text := a[..dlen];
    var d, s, n := dlen, 0, a.Length - dlen;
    while s < |src|
      invariant s <= |src| && n >= 1 && d + n == a.Length
      invariant d == dlen + if s < a.Length - dlen then s else a.Length - dlen - 1
      invariant a[..d] == Fit(text + src[..s], a.Length)
    {
      if n != 1 {
        a[d] := src[s];
        d, n := d + 1, n - 1;
      }
      s := s + 1;
    }
    a[d] := NUL;
    assert src[..s] == src;
    assert NUL !in text + src;
  }

  /** Appends what fits, and returns the length that the whole would have; truncated if that is not less
      than the size. */
  method StrLcat(a: array<char>, src: string) returns (r: nat)
    requires NUL !in src
    modifies a
    ensures var dlen := Length(old(a[..]));
      && dlen <= a.Length && r == dlen + |src|
      && (dlen == a.Length ==> a[..] == old(a[..]))
      && (dlen < a.Length ==> Holds(a[..], 0, Fit(old(a[..])[..dlen] + src, a.Length), a.Length))
  {
    var dlen := FindEnd(a);
    if a.Length - dlen == 0 {
      return dlen + |src|;
    }
    CopyTail(a, src, dlen);
    r := dlen + |src|;
  }

  /** Appends a part of the whole text; fails if that does not fit. */
  method CatBuf(a: array<char>, src: string, ghost text: string, ghost whole: string) returns (ok: bool)
    requires Holds(a[..], 0, text, a.Length) && NUL !in src && IsPrefix(text + src, whole)
    modifies a
    ensures ok ==> Holds(a[..], 0, text + src, a.Length)
    ensures !ok ==> Holds(a[..], 0, Fit(whole, a.Length), a.Length) && |whole| >= a.Length
  {
    HeldIs(a[..], 0, text, a.Length);
    var r := StrLcat(a, src);
    ok := r < a.Length;
    if !ok {
      FitPrefix(text + src, whole, a.Length);
    }
  }

  // ---- Printing ----

  lemma {:induction false} PrintSnoc(es: seq<Entry>, e: Entry)
    ensures Print(es + [e]) == (if es == [] then "" else Print(es) + ";") + Text(e)
  {
    if es == [] {
      assert es + [e] == [e] && [e][1..] == [];
    } else {
      assert (es + [e])[1..] == es[1..] + [e];
      PrintSnoc(es[1..], e);
      TextsLength(es);
      TextsLength(es + [e]);
      assert Texts(es + [e]) == [Text(es[0])] + Texts(es[1..] + [e]);
    }
  }

  lemma {:induction false} TextsLength(es: seq<Entry>)
    ensures |Texts(es)| == |es|
  {
    if es != [] {
      TextsLength(es[1..]);
    }
  }

  // Each further entry only appends.
  lemma {:induction false} PrintExtends(es: seq<Entry>, more: seq<Entry>)
    ensures IsPrefix(Print(es), Print(es + more))
    decreases |more|
  {
    if more == [] {
      assert es + more == es;
    } else {
      PrintSnoc(es, more[0]);
      PrintExtends(es + [more[0]], more[1..]);
      assert es + [more[0]] + more[1..] == es + more;
      PrefixTrans(Print(es), Print(es + [more[0]]), Print(es + more));
    }
  }

  lemma PrefixTrans(p: string, q: string, s: string)
    requires IsPrefix(p, q) && IsPrefix(q, s)
    ensures IsPrefix(p, s)
  {
    assert s[..|p|] == q[..|p|];
  }

  // One definition, with a semicolon before it unless it is the first.
  method CatEntry(a: array<char>, e: Entry, ghost done: seq<Entry>, ghost whole: string) returns (ok: bool)
    requires Holds(a[..], 0, Print(done), a.Length) && IsText(Define(e)) && IsPrefix(Print(done + [e]), whole)
    modifies a
    ensures ok ==> Holds(a[..], 0, Print(done + [e]), a.Length)
    ensures !ok ==> Holds(a[..], 0, Fit(whole, a.Length), a.Length) && |whole| >= a.Length
  {
    ghost var text, lead := Print(done), if done == [] then "" else Print(done) + ";";
    ghost var next := Print(done + [e]);
    PrintSnoc(done, e);
    if done != [] {
      PrintSnoc(done[..|done| - 1], done[|done| - 1]);
      assert done[..|done| - 1] + [done[|done| - 1]] == done;
    }
    assert a[0] == NUL <==> done == [] by {
      assert text != "" ==> a[0] == a[0..|text|][0] == text[0] && text[0] in text;
    }
    ok := true;
    if a[0] != NUL {
      PartOf(lead, e.key + "=" + e.value, next, whole);
      ok := CatBuf(a, ";", text, whole);
    }
    if ok {
      ok := CatParts(a, e, lead, whole);
    }
  }

  lemma PartOf(p: string, q: string, s: string, whole: string)
    requires s == p + q && IsPrefix(s, whole)
    ensures IsPrefix(p, whole)
  {
    assert IsPrefix(p, s);
    PrefixTrans(p, s, whole);
  }

  method CatParts(a: array<char>, e: Entry, ghost lead: string, ghost whole: string) returns (ok: bool)
    requires Holds(a[..], 0, lead, a.Length) && IsText(Define(e)) && IsPrefix(lead + Text(e), whole)
    modifies a
    ensures ok ==> Holds(a[..], 0, lead + Text(e), a.Length)
    ensures !ok ==> Holds(a[..], 0, Fit(whole, a.Length), a.Length) && |whole| >= a.Length
  {
    ghost var next := lead + Text(e);
    assert next == (lead + e.key) + ("=" + e.value) == (lead + e.key + "=") + e.value;
    PartOf(lead + e.key, "=" + e.value, next, whole);
    PartOf(lead + e.key + "=", e.value, next, whole);
    ok := CatBuf(a, e.key, lead, whole);
    if ok {
      ok := CatBuf(a, "=", lead + e.key, whole);
    }
    if ok {
      ok := CatBuf(a, e.value, lead + e.key + "=", whole);
    }
  }

  // What the printer has still to print: before and within the section.
  function ToPrint(items: seq<Item>, section: string, inside: bool): seq<Entry> {
    if inside then Definitions(items) else InSection(items, section)
  }

  // The printer has come to item i, and has printed the entries done of all.
  ghost predicate Printing(
      items: seq<Item>, section: string, i: nat, inside: bool, done: seq<Entry>, all: seq<Entry>)
  {
    && i <= |items| && (!inside ==> done == [])
    && all == done + ToPrint(items[i..], section, inside)
  }

  lemma PrintingStarts(items: seq<Item>, section: string)
    ensures Printing(items, section, 0, false, [], InSection(items, section))
  {
    assert items[0..] == items;
  }

  lemma PrintingSkips(items: seq<Item>, section: string, i: nat, inside: bool, done: seq<Entry>, all: seq<Entry>)
    requires Printing(items, section, i, inside, done, all) && i < |items|
    requires if inside then items[i].Continue? else !(items[i].Section? && SameName(items[i].name, section))
    ensures Printing(items, section, i + 1, inside, done, all)
  {
    assert items[i..][1..] == items[i + 1..];
  }

  lemma PrintingEnters(items: seq<Item>, section: string, i: nat, done: seq<Entry>, all: seq<Entry>)
    requires Printing(items, section, i, false, done, all) && i < |items|
    requires items[i].Section? && SameName(items[i].name, section)
    ensures Printing(items, section, i + 1, true, done, all)
  {
    assert items[i..][1..] == items[i + 1..];
  }

  lemma PrintingOne(items: seq<Item>, section: string, i: nat, done: seq<Entry>, all: seq<Entry>)
    requires Printing(items, section, i, true, done, all) && i < |items| && items[i].Define?
    ensures Printing(items, section, i + 1, true, done + [items[i].entry], all)
    ensures IsPrefix(Print(done + [items[i].entry]), Print(all))
  {
    var e, rest := items[i].entry, Definitions(items[i + 1..]);
    assert items[i..][1..] == items[i + 1..];
    assert done + ([e] + rest) == (done + [e]) + rest;
    PrintExtends(done + [e], rest);
  }

  lemma PrintingEnds(items: seq<Item>, section: string, i: nat, inside: bool, done: seq<Entry>, all: seq<Entry>)
    requires Printing(items, section, i, inside, done, all) && (i < |items| ==> inside && items[i].Section?)
    ensures all == done
  {
  }

  /** Prints a section of a configuration. Success means exactly that the whole text fits, and either way the buffer
      holds as much of it as fits; an invalid configuration prints nothing. */
  method ToString(valid: bool, items: seq<Item>, section: string, a: array<char>) returns (ok: bool)
    requires a.Length > 0 && forall i :: 0 <= i < |items| ==> IsText(items[i])
    modifies a
    ensures var text := Print(InSection(items, section));
      && (valid ==> ok == (|text| < a.Length) && Holds(a[..], 0, Fit(text, a.Length), a.Length))
      && (!valid ==> !ok && a[..] == old(a[..]))
  {
    if !valid {
      return false;
    }
    ghost var all := InSection(items, section);
    ghost var whole := Print(all);
    ghost var done: seq<Entry> := [];
    PrintingStarts(items, section);
    a[0] := NUL;
    var atSection, i := false, 0;
    while i < |items|
      invariant Printing(items, section, i, atSection, done, all)
      invariant Holds(a[..], 0, Print(done), a.Length)
    {
      var item := items[i];
      if atSection {
        if item.Section? {
          break;
        }
        if item.Define? {
          PrintingOne(items, section, i, done, all);
          ok := CatEntry(a, item.entry, done, whole);
          if !ok {
            return;
          }
          done := done + [item.entry];
        } else {
          PrintingSkips(items, section, i, atSection, done, all);
        }
      } else if item.Section? && SameName(item.name, section) {
        PrintingEnters(items, section, i, done, all);
        atSection := true;
      } else {
        PrintingSkips(items, section, i, atSection, done, all);
      }
      i := i + 1;
    }
    PrintingEnds(items, section, i, atSection, done, all);
    ok := true;
  }

  /** The configuration that a connection string makes has one section, named ODBC. */
  function ParsedItems(es: seq<Entry>): seq<Item> {
    [Section("ODBC")] + Defines(es)
  }

  function Defines(es: seq<Entry>): seq<Item> {
    seq(|es|, i requires 0 <= i < |es| => Define(es[i]))
  }

  lemma {:induction false} DefinitionsOf(es: seq<Entry>)
    ensures Definitions(Defines(es)) == es
  {
    if es != [] {
      assert Defines(es)[1..] == Defines(es[1..]);
      DefinitionsOf(es[1..]);
    }
  }

  /** What is printed of it is its entries, and parses to them. */
  lemma ParsedSectionReparses(s: string)
    requires Closed(s)
    ensures var es := InSection(ParsedItems(Parse(s)), "ODBC"); es == Parse(s) && Parse(Print(es)) == es
  {
    var items := ParsedItems(Parse(s));
    assert items[1..] == Defines(Parse(s));
    DefinitionsOf(Parse(s));
    ReparsingIsStable(s);
  }
}
