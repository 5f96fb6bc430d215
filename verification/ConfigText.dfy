/** The parser of connection strings, which cuts its copy of the string in place and keeps pointers into
    it, and the printer, which appends to a buffer of fixed size. */
module ConfigText {
  import opened ConnString
  import opened Splitter
  import opened Codes

  // ---- C strings in a buffer ----

  // The buffer holds the string at off, and its NUL, before limit.
  ghost predicate Holds(buf: seq<char>, off: nat, str: string, limit: nat) {
    && off + |str| < limit <= |buf| && NUL !in str
    && buf[off..off + |str|] == str && buf[off + |str|] == NUL
  }

  lemma HoldsKept(buf: seq<char>, now: seq<char>, off: nat, str: string, limit: nat, later: nat)
    requires Holds(buf, off, str, limit) && limit <= later <= |now| == |buf|
    requires forall k :: 0 <= k < limit ==> now[k] == buf[k]
    ensures Holds(now, off, str, later)
  {
    assert now[off..off + |str|] == buf[off..off + |str|];
  }

  // The string that starts at off.
  function CStr(buf: seq<char>, off: nat): string
    requires off <= |buf|
  {
    buf[off..][..Length(buf[off..])]
  }

  lemma HeldIs(buf: seq<char>, off: nat, str: string, limit: nat)
    requires Holds(buf, off, str, limit)
    ensures CStr(buf, off) == str
  {
    forall k | 0 <= k < |str| ensures buf[off..][k] != NUL {
      assert buf[off..off + |str|][k] == str[k] && str[k] in str;
    }
    LengthIs(buf[off..], |str|);
  }

  // ---- Scanning ----

  // Where the scan goes from position i: past a character, or past a pair of braces.
  function Onwards(text: string, i: nat): (n: nat)
    requires i < |text|
    ensures i < n
  {
    if text[i] == '{' then i + 1 + BraceEnd(text[i + 1..]) else i + 1
  }

  // Where the scan stops that has come to position i.
  function ScanFrom(text: string, i: nat): nat
    decreases |text| - i
  {
    if i >= |text| || text[i] == ';' then i else ScanFrom(text, Onwards(text, i))
  }

  // Every opening brace that the scan meets from position i on is closed.
  predicate ClosedFrom(text: string, i: nat)
    decreases |text| - i
  {
    i < |text| ==> (text[i] == '{' ==> '}' in text[i + 1..]) && ClosedFrom(text, Onwards(text, i))
  }

  lemma AtBrace(text: string, i: nat)
    requires i < |text| && text[i] == '{' && Closed(text[i..])
    ensures var n := Onwards(text, i);
      && n <= |text| && '}' in text[i + 1..] && Closed(text[n..])
      && i + TokenEnd(text[i..]) == n + TokenEnd(text[n..])
  {
    var t := text[i..];
    assert t[1..] == text[i + 1..];
    assert t[1..][BraceEnd(t[1..])..] == text[Onwards(text, i)..];
  }

  lemma AtCharacter(text: string, i: nat)
    requires i < |text| && text[i] != '{' && Closed(text[i..])
    ensures Closed(text[i + 1..])
    ensures TokenEnd(text[i..]) == if text[i] == ';' then 0 else 1 + TokenEnd(text[i + 1..])
  {
    assert text[i..][1..] == text[i + 1..];
  }

  lemma {:induction false} ScanFromIs(text: string, i: nat)
    requires i <= |text| && Closed(text[i..])
    ensures ClosedFrom(text, i) && ScanFrom(text, i) == i + TokenEnd(text[i..])
    decreases |text| - i
  {
    if i < |text| {
      if text[i] == '{' {
        AtBrace(text, i);
      } else {
        AtCharacter(text, i);
      }
      ScanFromIs(text, Onwards(text, i));
    }
  }

  // The buffer holds the text at s, and its NUL at n.
  ghost predicate Shows(a: array<char>, s: nat, n: nat, text: string)
    reads a
  {
    && s <= n < a.Length && |text| == n - s && a[n] == NUL
    && forall k :: s <= k < n ==> a[k] == text[k - s] && a[k] != NUL
  }

  lemma SliceShows(a: array<char>, s: nat, n: nat)
    requires s <= n < a.Length && a[n] == NUL && NUL !in a[s..n]
    ensures Shows(a, s, n, a[s..n])
  {
    assert forall k :: s <= k < n ==> a[k] == a[s..n][k - s];
  }

  /** The end of the token at s, in a buffer that holds the text up to the NUL at n. */
  method FindTokenEnd(a: array<char>, s: nat, n: nat, ghost text: string) returns (cp: nat)
    requires Shows(a, s, n, text) && Closed(text)
    ensures cp == s + TokenEnd(text)
  {
    assert ClosedFrom(text, 0) && ScanFrom(text, 0) == TokenEnd(text) by {
      assert text[0..] == text;
      ScanFromIs(text, 0);
    }
    cp := ScanToEnd(a, s, n, text);
  }

  method ScanToEnd(a: array<char>, s: nat, n: nat, ghost text: string) returns (cp: nat)
    requires Shows(a, s, n, text) && ClosedFrom(text, 0)
    ensures cp == s + ScanFrom(text, 0)
  {
    cp := s;
    while a[cp] != NUL && a[cp] != ';'
      invariant s <= cp <= n && ClosedFrom(text, cp - s) && ScanFrom(text, cp - s) == ScanFrom(text, 0)
      decreases n - cp
    {
      cp := Advance(a, s, cp, n, text);
    }
  }

  // One step of the scan.
  method Advance(a: array<char>, s: nat, at: nat, n: nat, ghost text: string) returns (cp: nat)
    requires Shows(a, s, n, text) && s <= at < n
    requires text[at - s] == '{' ==> '}' in text[at + 1 - s..]
    ensures at < cp <= n && cp == s + Onwards(text, at - s)
  {
    cp := at;
    if a[cp] == '{' {
      cp := FindBraceEnd(a, cp + 1, n, text[cp + 1 - s..]);
    }
    cp := cp + 1;
  }

  // The inner loop: the closing brace that ends what an opening one began.
  method FindBraceEnd(a: array<char>, s: nat, n: nat, ghost text: string) returns (cp: nat)
    requires Shows(a, s, n, text) && '}' in text
    ensures s <= cp < n && cp + 1 == s + BraceEnd(text)
  {
    cp := s;
    assert text[0..] == text;
    while a[cp] != NUL && a[cp] != '}'
      invariant s <= cp < n && '}' in text[cp - s..]
      invariant BraceEnd(text) == cp - s + BraceEnd(text[cp - s..])
      decreases n - cp
    {
      ghost var t := text[cp - s..];
      assert text[cp + 1 - s..] == t[1..] && t[0] == text[cp - s];
      cp := cp + 1;
    }
    assert text[cp - s..][0] == text[cp - s];
  }

  /** The first '=' of the token that ends at the NUL at n. */
  method FindEquals(a: array<char>, s: nat, n: nat) returns (cp: nat)
    requires s <= n < a.Length && a[n] == NUL && NUL !in a[s..n]
    ensures cp == s + EqualsAt(a[s..n])
  {
    cp := s;
    while a[cp] != NUL && a[cp] != '='
      invariant s <= cp <= n && NUL !in a[cp..n]
      invariant EqualsAt(a[s..n]) == cp - s + EqualsAt(a[cp..n])
      decreases n - cp
    {
      ghost var t := a[cp..n];
      assert a[cp + 1..n] == t[1..] && t[0] == a[cp];
      cp := cp + 1;
    }
    assert cp < n ==> a[cp..n][0] == a[cp];
  }

  // ---- The parser ----

  // A pointer into the image, or the constant "DSN".
  datatype KeyRef = At(off: nat) | DsnLiteral

  datatype Ref = Ref(key: KeyRef, value: nat)

  // The pointers that the parser stores for a token of a length at s, with its '=' at q.
  function RefsOf(s: nat, q: nat, length: nat, first: bool): seq<Ref> {
    if q < length then [Ref(At(s), s + q + 1)] else if first then [Ref(DsnLiteral, s)] else []
  }

  ghost predicate RefMeans(buf: seq<char>, r: Ref, e: Entry, limit: nat) {
    && Holds(buf, r.value, e.value, limit)
    && if r.key.At? then Holds(buf, r.key.off, e.key, limit) else e.key == "DSN"
  }

  // The pointers mean these entries, whose strings all end before limit.
  ghost predicate Mean(buf: seq<char>, refs: seq<Ref>, es: seq<Entry>, limit: nat) {
    |refs| == |es| && forall i :: 0 <= i < |refs| ==> RefMeans(buf, refs[i], es[i], limit)
  }

  lemma MeanKept(buf: seq<char>, now: seq<char>, refs: seq<Ref>, es: seq<Entry>, limit: nat, later: nat)
    requires Mean(buf, refs, es, limit) && limit <= later <= |now| == |buf|
    requires forall k :: 0 <= k < limit ==> now[k] == buf[k]
    ensures Mean(now, refs, es, later)
  {
    forall i | 0 <= i < |refs| ensures RefMeans(now, refs[i], es[i], later) {
      assert RefMeans(buf, refs[i], es[i], limit);
      HoldsKept(buf, now, refs[i].value, es[i].value, limit, later);
      if refs[i].key.At? {
        HoldsKept(buf, now, refs[i].key.off, es[i].key, limit, later);
      }
    }
  }

  // A token t at s, cut at its end and at position q.
  predicate CutAsToken(buf: seq<char>, s: nat, t: string, q: nat) {
    && s + |t| < |buf| && buf[s + |t|] == NUL
    && forall k :: 0 <= k < |t| ==> buf[s + k] == if k == q then NUL else t[k]
  }

  // A part of a cut token that a NUL ends.
  lemma CutPart(buf: seq<char>, off: nat, part: string, limit: nat)
    requires off + |part| < limit <= |buf| && buf[off + |part|] == NUL && NUL !in part
    requires forall k :: 0 <= k < |part| ==> buf[off + k] == part[k]
    ensures Holds(buf, off, part, limit)
  {
    forall k | off <= k < off + |part| ensures buf[k] == part[k - off] {
      assert buf[off + (k - off)] == part[k - off];
    }
    assert buf[off..off + |part|] == part;
  }

  lemma CutKeyMeans(buf: seq<char>, s: nat, t: string, q: nat)
    requires CutAsToken(buf, s, t, q) && NUL !in t && q < |t|
    ensures RefMeans(buf, Ref(At(s), s + q + 1), Entry(t[..q], t[q + 1..]), s + |t| + 1)
  {
    assert buf[s + q] == NUL by {
      var c := t[q];
    }
    CutPart(buf, s, t[..q], s + |t| + 1);
    var value := t[q + 1..];
    forall k | 0 <= k < |value| ensures buf[s + q + 1 + k] == value[k] {
      assert buf[s + (q + 1 + k)] == t[q + 1 + k];
    }
    CutPart(buf, s + q + 1, value, s + |t| + 1);
  }

  lemma CutBareMeans(buf: seq<char>, s: nat, t: string)
    requires CutAsToken(buf, s, t, |t|) && NUL !in t
    ensures RefMeans(buf, Ref(DsnLiteral, s), Entry("DSN", t), s + |t| + 1)
  {
    CutPart(buf, s, t, s + |t| + 1);
  }

  // q is where the '=' is, if there is one.
  lemma CutMeans(buf: seq<char>, s: nat, t: string, q: nat, first: bool)
    requires CutAsToken(buf, s, t, q) && NUL !in t && q <= |t|
    ensures Mean(buf, RefsOf(s, q, |t|, first), EntryAt(t, q, first), s + |t| + 1)
  {
    if q < |t| {
      CutKeyMeans(buf, s, t, q);
    } else if first {
      CutBareMeans(buf, s, t);
    }
  }

  // The cut at the first '=' of the token that ends at the NUL at e.
  method CutEquals(a: array<char>, s: nat, e: nat, first: bool) returns (refs: seq<Ref>)
    requires s <= e < a.Length && a[e] == NUL && NUL !in a[s..e]
    modifies a
    ensures refs == RefsOf(s, EqualsAt(old(a[s..e])), e - s, first) && CutAsToken(a[..], s, old(a[s..e]), EqualsAt(old(a[s..e])))
    ensures forall k :: 0 <= k < s || e <= k < a.Length ==> a[k] == old(a[k])
  {
    ghost var t := a[s..e];
    var cp := FindEquals(a, s, e);
    assert forall k :: 0 <= k < |t| ==> a[s + k] == t[k] && t[k] in t;
    refs := [];
    if a[cp] != NUL {
      assert cp < e;
      a[cp] := NUL;
      refs := [Ref(At(s), cp + 1)];
    } else if first {
      refs := [Ref(DsnLiteral, s)];
    }
  }

  // The cut at the end of the token.
  method CutEnd(a: array<char>, s: nat, e: nat, n: nat, ghost text: string) returns (next: nat)
    requires Shows(a, s, n, text) && s <= e <= n
    modifies a
    ensures next == (if e < n then e + 1 else n) && a[e] == NUL
    ensures forall k :: 0 <= k < a.Length && k != e ==> a[k] == old(a[k])
  {
    next := e;
    if a[e] != NUL {
      a[e] := NUL;
      next := e + 1;
    }
  }

  /** One token of the parser: cuts the image at the end of the token and at its '=', and returns the
      pointers to the entry it makes, if any, and where the next token starts. */
  method CutToken(a: array<char>, s: nat, n: nat, first: bool) returns (next: nat, refs: seq<Ref>)
    requires s < n < a.Length && a[n] == NUL && NUL !in a[s..n] && Closed(a[s..n])
    modifies a
    ensures var text := old(a[s..n]); var t := text[..TokenEnd(text)];
      && next == s + |t| + (if |t| < |text| then 1 else 0)
      && refs == RefsOf(s, EqualsAt(t), |t|, first) && CutAsToken(a[..], s, t, EqualsAt(t))
      && forall k :: 0 <= k < s || next <= k < a.Length ==> a[k] == old(a[k])
  {
    ghost var text := a[s..n];
    SliceShows(a, s, n);
    var e := FindTokenEnd(a, s, n, text);
    ghost var t := text[..e - s];
    next := CutEnd(a, s, e, n, text);
    assert a[s..e] == t && forall c <- t :: c in text;
    refs := CutEquals(a, s, e, first);
  }

  // What is still to be parsed from position s on.
  function ToParse(str: string, s: nat, first: bool): seq<Entry>
    requires s <= |str|
  {
    Entries(Tokens(str[s..]), first)
  }

  lemma LeftStep(str: string, s: nat, first: bool, t: string, next: nat)
    requires s < |str| && Closed(str[s..]) && t == str[s..][..TokenEnd(str[s..])]
    requires next == s + |t| + (if |t| < |str| - s then 1 else 0)
    ensures next <= |str| && Closed(str[next..])
    ensures ToParse(str, s, first) == EntryOf(t, first) + ToParse(str, next, false)
  {
    var text := str[s..];
    CutWhole(text);
    if |t| < |text| {
      assert text[|t|..][1..] == text[|t| + 1..] == str[next..];
    } else {
      assert t == text && str[next..] == "";
      assert Entries([text], first) == EntryOf(text, first) + Entries([text][1..], false);
    }
  }

  // The rest of the text is still in the buffer at s.
  ghost predicate TextAt(buf: seq<char>, str: string, s: nat) {
    |buf| == |str| + 1 && s <= |str| && buf[|str|] == NUL && buf[s..|str|] == str[s..]
  }

  lemma TextStep(buf: seq<char>, now: seq<char>, str: string, s: nat, next: nat)
    requires TextAt(buf, str, s) && s <= next <= |str| && |now| == |buf|
    requires forall k :: next <= k < |buf| ==> now[k] == buf[k]
    ensures TextAt(now, str, next)
  {
    forall k | next <= k < |str| ensures now[k] == str[k] {
      assert buf[k] == buf[s..|str|][k - s];
    }
  }

  lemma MeanConcat(buf: seq<char>, refs: seq<Ref>, es: seq<Entry>, more: seq<Ref>, fs: seq<Entry>, limit: nat)
    requires Mean(buf, refs, es, limit) && Mean(buf, more, fs, limit)
    ensures Mean(buf, refs + more, es + fs, limit)
  {
  }

  // All stored strings end before position s; at the end, before the end of the image.
  function Limit(str: string, s: nat): nat {
    if s < |str| then s else |str| + 1
  }

  lemma MeanStep(
      buf: seq<char>, now: seq<char>, refs: seq<Ref>, es: seq<Entry>, s: nat, more: seq<Ref>, fs: seq<Entry>,
      upTo: nat, limit: nat)
    requires Mean(buf, refs, es, s) && s <= upTo <= limit <= |now| == |buf| && Mean(now, more, fs, upTo)
    requires forall k :: 0 <= k < s ==> now[k] == buf[k]
    ensures Mean(now, refs + more, es + fs, limit)
  {
    MeanKept(now, now, more, fs, upTo, limit);
    MeanKept(buf, now, refs, es, s, limit);
    MeanConcat(now, refs, es, more, fs, limit);
  }

  lemma MeanCut(
      buf: seq<char>, now: seq<char>, refs: seq<Ref>, es: seq<Entry>, s: nat, t: string, q: nat, first: bool, limit: nat)
    requires Mean(buf, refs, es, s) && s + |t| + 1 <= limit <= |now| == |buf|
    requires CutAsToken(now, s, t, q) && NUL !in t && q <= |t|
    requires forall k :: 0 <= k < s ==> now[k] == buf[k]
    ensures Mean(now, refs + RefsOf(s, q, |t|, first), es + EntryAt(t, q, first), limit)
  {
    var more, fs := RefsOf(s, q, |t|, first), EntryAt(t, q, first);
    assert Mean(now, more, fs, s + |t| + 1) by {
      CutMeans(now, s, t, q, first);
    }
    MeanStep(buf, now, refs, es, s, more, fs, s + |t| + 1, limit);
  }

  // The parser has come to position s of its image; its pointers mean the entries es.
  ghost predicate Parsed(buf: seq<char>, refs: seq<Ref>, es: seq<Entry>, str: string, s: nat, first: bool) {
    && TextAt(buf, str, s) && Closed(str[s..])
    && Mean(buf, refs, es, Limit(str, s))
    && Parse(str) == es + ToParse(str, s, first)
  }

  lemma ParsedStep(
      buf: seq<char>, now: seq<char>, refs: seq<Ref>, es: seq<Entry>, str: string, s: nat, first: bool, t: string,
      next: nat)
    requires Parsed(buf, refs, es, str, s, first) && s < |str| && |now| == |buf| && NUL !in str
    requires t == str[s..][..TokenEnd(str[s..])] && next == s + |t| + (if |t| < |str| - s then 1 else 0)
    requires CutAsToken(now, s, t, EqualsAt(t))
    requires forall k :: 0 <= k < s || next <= k < |buf| ==> now[k] == buf[k]
    ensures Parsed(now, refs + RefsOf(s, EqualsAt(t), |t|, first), es + EntryOf(t, first), str, next, false)
  {
    assert TextAt(now, str, next) by {
      TextStep(buf, now, str, s, next);
    }
    assert Mean(now, refs + RefsOf(s, EqualsAt(t), |t|, first), es + EntryOf(t, first), Limit(str, next)) by {
      MeanCut(buf, now, refs, es, s, t, EqualsAt(t), first, Limit(str, next));
    }
    LeftStep(str, s, first, t, next);
    Regroup(Parse(str), es, EntryOf(t, first), ToParse(str, next, false));
  }

  lemma Regroup(all: seq<Entry>, es: seq<Entry>, fs: seq<Entry>, left: seq<Entry>)
    requires all == es + (fs + left)
    ensures all == (es + fs) + left
  {
  }

  /** The configuration that a connection string makes: the copy of the string that the parser cuts,
      and the pointers into it. */
  class Config {
    var image: array<char>
    var refs: seq<Ref>
    var valid: bool

    ghost var contents: seq<Entry>

    ghost predicate Valid()
      reads this, image
    {
      Mean(image[..], refs, contents, image.Length)
    }

    constructor ()
      ensures Valid() && !valid && contents == []
    {
      image := new char[0];
      refs, contents, valid := [], [], false;
    }

    /** What the pointers of entry i say. */
    function EntryAt(i: nat): (e: Entry)
      requires Valid() && i < |refs|
      reads this, image
      ensures e == contents[i]
    {
      var r := refs[i];
      assert RefMeans(image[..], r, contents[i], image.Length);
      HeldIs(image[..], r.value, contents[i].value, image.Length);
      if r.key.At? then
        HeldIs(image[..], r.key.off, contents[i].key, image.Length);
        Entry(CStr(image[..], r.key.off), CStr(image[..], r.value))
      else Entry("DSN", CStr(image[..], r.value))
    }

    /** Replaces the configuration by what the string parses to; a null string leaves it invalid. */
    method ParseString(str: Option<string>)
      requires str.Some? ==> NUL !in str.value && Closed(str.value)
      modifies this
      ensures Valid() && fresh(image) && valid == str.Some?
      ensures contents == if str.Some? then Parse(str.value) else []
    {
      refs, contents, valid := [], [], false;
      if str.None? {
        image := new char[0];
        return;
      }
      var text := str.value;
      var n := |text|;
      var a := new char[n + 1](i requires 0 <= i <= n => if i < n then text[i] else NUL);
      image := a;
      var s, count := 0, 0;
      ghost var es: seq<Entry> := [];
      assert a[0..n] == text[0..] == text;
      while a[s] != NUL
        invariant image == a && fresh(a) && a.Length == n + 1 && !valid
        invariant Parsed(a[..], refs, es, text, s, count == 0)
        decreases n - s
      {
        ghost var was, t := a[..], text[s..][..TokenEnd(text[s..])];
        AtEnd(was, text, s);
        var next, more := CutToken(a, s, n, count == 0);
        ParsedStep(was, a[..], refs, es, text, s, count == 0, t, next);
        refs, es := refs + more, es + EntryOf(t, count == 0);
        s, count := next, count + 1;
      }
      AtEnd(a[..], text, s);
      contents, valid := es, true;
    }
  }

  lemma AtEnd(buf: seq<char>, str: string, s: nat)
    requires TextAt(buf, str, s) && NUL !in str
    ensures buf[s] == NUL <==> s == |str|
  {
    if s < |str| {
      assert buf[s] == buf[s..|str|][0] == str[s] && str[s] in str;
    }
  }
}
