/** Connection strings: what a string parses to, what a list of entries prints as, and how the two
    relate. */
module ConnString {

  datatype Entry = Entry(key: string, value: string)

  // ---- Tokens ----

  // How many characters lead up to and include the first closing brace; all, if there is none.
  function BraceEnd(s: string): (n: nat)
    ensures n <= |s| && (s != "" ==> n > 0)
  {
    if s == "" then 0 else if s[0] == '}' then 1 else 1 + BraceEnd(s[1..])
  }

  /** Every opening brace that is not itself inside braces is closed. */
  predicate Closed(s: string)
    decreases |s|
  {
    s == "" ||
    (if s[0] == '{' then '}' in s[1..] && Closed(s[1..][BraceEnd(s[1..])..]) else Closed(s[1..]))
  }

  // The length of the text before the first semicolon outside braces.
  function TokenEnd(s: string): (n: nat)
    ensures n <= |s| && (n < |s| ==> s[n] == ';')
    decreases |s|
  {
    if s == "" || s[0] == ';' then 0
    else if s[0] == '{' then
      var b := BraceEnd(s[1..]);
      1 + b + TokenEnd(s[1..][b..])
    else 1 + TokenEnd(s[1..])
  }

  function Tokens(s: string): seq<string>
    decreases |s|
  {
    if s == "" then []
    else
      var n := TokenEnd(s);
      if n == |s| then [s] else [s[..n]] + Tokens(s[n + 1..])
  }

  // ---- Parsing ----

  // The position of the first '=', or the length.
  function EqualsAt(t: string): (n: nat)
    ensures n <= |t|
  {
    if t == "" || t[0] == '=' then 0 else 1 + EqualsAt(t[1..])
  }

  lemma {:induction false} NoEqualsBefore(t: string)
    ensures var n := EqualsAt(t); '=' !in t[..n] && (n < |t| ==> t[n] == '=')
  {
    if t != "" && t[0] != '=' {
      NoEqualsBefore(t[1..]);
      assert t[..EqualsAt(t)] == [t[0]] + t[1..][..EqualsAt(t[1..])];
    }
  }

  /** A token is KEY=VALUE; the first one may be a bare data source name; others without '=' are skipped. */
  function EntryOf(t: string, first: bool): seq<Entry> {
    EntryAt(t, EqualsAt(t), first)
  }

  function EntryAt(t: string, q: nat, first: bool): seq<Entry> {
    if q < |t| then [Entry(t[..q], t[q + 1..])] else if first then [Entry("DSN", t)] else []
  }

  function Entries(tokens: seq<string>, first: bool): seq<Entry> {
    if tokens == [] then [] else EntryOf(tokens[0], first) + Entries(tokens[1..], false)
  }

  function Parse(s: string): seq<Entry> {
    Entries(Tokens(s), true)
  }

  // ---- Printing ----

  function Text(e: Entry): string {
    e.key + "=" + e.value
  }

  function Texts(es: seq<Entry>): seq<string> {
    if es == [] then [] else [Text(es[0])] + Texts(es[1..])
  }

  function Join(tokens: seq<string>): string {
    if tokens == [] then ""
    else if |tokens| == 1 then tokens[0]
    else tokens[0] + ";" + Join(tokens[1..])
  }

  function Print(es: seq<Entry>): string {
    Join(Texts(es))
  }

  // ---- Whole tokens ----

  /** A text that the tokenizer never cuts. */
  predicate Whole(t: string) {
    Closed(t) && TokenEnd(t) == |t|
  }

  lemma {:induction false} BraceEndPrefix(s: string, r: string)
    requires '}' in s
    ensures BraceEnd(s + r) == BraceEnd(s)
    ensures (s + r)[BraceEnd(s)..] == s[BraceEnd(s)..] + r
  {
    if s[0] != '}' {
      assert (s + r)[1..] == s[1..] + r;
      BraceEndPrefix(s[1..], r);
    }
  }

  lemma {:induction false} WholePrefix(t: string, r: string)
    requires Whole(t)
    ensures TokenEnd(t + r) == |t| + TokenEnd(r)
    ensures Closed(t + r) <==> Closed(r)
    decreases |t|
  {
    if t == "" {
      assert t + r == r;
    } else {
      assert (t + r)[1..] == t[1..] + r;
      if t[0] == '{' {
        BraceEndPrefix(t[1..], r);
        assert '}' in t[1..] + r;
        WholePrefix(t[1..][BraceEnd(t[1..])..], r);
      } else {
        WholePrefix(t[1..], r);
      }
    }
  }

  // What the tokenizer cuts off is whole, and what remains is closed.
  lemma {:induction false} CutWhole(s: string)
    requires Closed(s)
    ensures Whole(s[..TokenEnd(s)]) && Closed(s[TokenEnd(s)..])
    decreases |s|
  {
    if s == "" || s[0] == ';' {
    } else if s[0] == '{' {
      var b := BraceEnd(s[1..]);
      var rest := s[1..][b..];
      CutWhole(rest);
      var t := s[..TokenEnd(s)];
      BraceEndCut(s[1..], rest[..TokenEnd(rest)]);
      assert t[1..] == s[1..][..b] + rest[..TokenEnd(rest)];
      assert s[TokenEnd(s)..] == rest[TokenEnd(rest)..];
    } else {
      CutWhole(s[1..]);
      var t := s[..TokenEnd(s)];
      assert t[1..] == s[1..][..TokenEnd(s[1..])];
      assert s[TokenEnd(s)..] == s[1..][TokenEnd(s[1..])..];
    }
  }

  lemma {:induction false} BraceEndCut(s: string, r: string)
    requires '}' in s
    ensures var h := s[..BraceEnd(s)] + r;
            '}' in h && BraceEnd(h) == BraceEnd(s) && h[BraceEnd(h)..] == r
  {
    var h := s[..BraceEnd(s)] + r;
    assert h[0] == s[0];
    if s[0] != '}' {
      BraceEndCut(s[1..], r);
      assert h[1..] == s[1..][..BraceEnd(s[1..])] + r;
    }
  }

  predicate AllWhole(tokens: seq<string>) {
    forall i :: 0 <= i < |tokens| ==> Whole(tokens[i])
  }

  lemma {:induction false} TokensAreWhole(s: string)
    requires Closed(s)
    ensures AllWhole(Tokens(s))
    decreases |s|
  {
    if s != "" {
      CutWhole(s);
      var n := TokenEnd(s);
      if n == |s| {
        assert s[..n] == s;
      } else {
        assert s[n..][1..] == s[n + 1..];
        TokensAreWhole(s[n + 1..]);
      }
    }
  }

  lemma TokenThenRest(t: string, rest: string)
    requires Whole(t)
    ensures Tokens(t + (";" + rest)) == [t] + Tokens(rest)
    ensures Closed(t + (";" + rest)) <==> Closed(rest)
  {
    var s := t + (";" + rest);
    WholePrefix(t, ";" + rest);
    assert (";" + rest)[1..] == rest;
    assert s[..|t|] == t && s[|t| + 1..] == rest;
  }

  lemma LoneToken(t: string)
    requires Whole(t) && t != ""
    ensures Tokens(t) == [t]
  {
  }

  lemma {:induction false} TokensOfJoin(tokens: seq<string>)
    requires AllWhole(tokens) && forall i :: 0 <= i < |tokens| ==> tokens[i] != ""
    ensures Tokens(Join(tokens)) == tokens && Closed(Join(tokens))
  {
    if |tokens| == 1 {
      LoneToken(tokens[0]);
    } else if |tokens| > 1 {
      var t, rest := tokens[0], Join(tokens[1..]);
      TokensOfJoin(tokens[1..]);
      TokenThenRest(t, rest);
      assert Join(tokens) == t + (";" + rest);
    }
  }

  lemma TokensCons(s: string, n: nat, first: string, rest: string)
    requires n == TokenEnd(s) < |s| && first == s[..n] && rest == s[n + 1..]
    ensures Tokens(s) == [first] + Tokens(rest)
  {
  }

  lemma OneToken(s: string)
    requires s != "" && TokenEnd(s) == |s|
    ensures Tokens(s) == [s]
  {
  }

  /** Nothing is lost between the tokens but the semicolons: joined again they are the string, up to one at its end. */
  lemma {:induction false} JoinedTokens(s: string)
    ensures Join(Tokens(s)) == s || Join(Tokens(s)) + ";" == s
    decreases |s|
  {
    var n := TokenEnd(s);
    if s != "" && n == |s| {
      OneToken(s);
    } else if s != "" {
      var first, rest := s[..n], s[n + 1..];
      JoinedTokens(rest);
      TokensCons(s, n, first, rest);
      Cut(s, n);
      JoinedOne(s, first, rest, Tokens(rest));
    }
  }

  lemma Cut(s: string, n: nat)
    requires n < |s| && s[n] == ';'
    ensures s == s[..n] + (";" + s[n + 1..])
  {
  }

  lemma JoinedOne(s: string, first: string, rest: string, tokens: seq<string>)
    requires s == first + (";" + rest) && (Join(tokens) == rest || Join(tokens) + ";" == rest)
    requires tokens == [] ==> rest == ""
    ensures Join([first] + tokens) == s || Join([first] + tokens) + ";" == s
  {
    if tokens == [] {
      assert [first] + tokens == [first];
    } else {
      JoinFirst(first, tokens);
    }
  }

  lemma JoinFirst(t: string, tokens: seq<string>)
    requires tokens != []
    ensures Join([t] + tokens) == t + (";" + Join(tokens))
  {
    assert ([t] + tokens)[1..] == tokens;
  }

  // ---- Round trips ----

  /** Entries that survive being printed: no '=' in a key, and a text the tokenizer does not cut. */
  predicate Printable(es: seq<Entry>) {
    forall i :: 0 <= i < |es| ==> '=' !in es[i].key && Whole(Text(es[i]))
  }

  lemma {:induction false} EqualsAtKey(key: string, value: string)
    requires '=' !in key
    ensures EqualsAt(key + "=" + value) == |key|
  {
    var t := key + "=" + value;
    if key != "" {
      assert t[1..] == key[1..] + "=" + value;
      EqualsAtKey(key[1..], value);
    }
  }

  lemma EntryOfText(e: Entry, first: bool)
    requires '=' !in e.key
    ensures EntryOf(Text(e), first) == [e]
  {
    EqualsAtKey(e.key, e.value);
    assert Text(e)[..|e.key|] == e.key && Text(e)[|e.key| + 1..] == e.value;
  }

  lemma {:induction false} EntriesOfTexts(es: seq<Entry>, first: bool)
    requires Printable(es)
    ensures Entries(Texts(es), first) == es
    ensures AllWhole(Texts(es)) && forall i :: 0 <= i < |Texts(es)| ==> Texts(es)[i] != ""
  {
    if es != [] {
      EntryOfText(es[0], first);
      EntriesOfTexts(es[1..], false);
      assert es == [es[0]] + es[1..];
    }
  }

  lemma PrintableSurvives(es: seq<Entry>)
    requires Printable(es)
    ensures Closed(Print(es)) && Parse(Print(es)) == es
  {
    EntriesOfTexts(es, true);
    TokensOfJoin(Texts(es));
  }

  lemma EntryOfWhole(t: string, first: bool)
    requires Whole(t)
    ensures Printable(EntryOf(t, first))
  {
    var n := EqualsAt(t);
    NoEqualsBefore(t);
    if n < |t| {
      KeyAndValue(t, n);
    } else {
      BareIsPrintable(t);
    }
  }

  lemma KeyAndValue(t: string, n: nat)
    requires n < |t| && t[n] == '='
    ensures Text(Entry(t[..n], t[n + 1..])) == t
  {
  }

  lemma BareIsPrintable(t: string)
    requires Whole(t)
    ensures Whole(Text(Entry("DSN", t)))
  {
    WholePrefix("DSN=", t);
    assert "DSN" + "=" + t == "DSN=" + t;
  }

  lemma {:induction false} EntriesArePrintable(tokens: seq<string>, first: bool)
    requires AllWhole(tokens)
    ensures Printable(Entries(tokens, first))
  {
    if tokens != [] {
      EntryOfWhole(tokens[0], first);
      EntriesArePrintable(tokens[1..], false);
    }
  }

  lemma ParsedIsPrintable(s: string)
    requires Closed(s)
    ensures Printable(Parse(s))
  {
    TokensAreWhole(s);
    EntriesArePrintable(Tokens(s), true);
  }

  /** Printing what a string parsed to, and parsing that again, gives the same entries. */
  lemma ReparsingIsStable(s: string)
    requires Closed(s)
    ensures Closed(Print(Parse(s))) && Parse(Print(Parse(s))) == Parse(s)
  {
    ParsedIsPrintable(s);
    PrintableSurvives(Parse(s));
  }

  /** A list of entries whose text closes its braces is what its text parses to exactly when each entry
      is free of '=' in its key and is not cut by the tokenizer. */
  lemma ParseInvertsPrintIff(es: seq<Entry>)
    requires Closed(Print(es))
    ensures Parse(Print(es)) == es <==> Printable(es)
  {
    ParsedIsPrintable(Print(es));
    if Printable(es) {
      PrintableSurvives(es);
    }
  }

  /** A connection string may begin with the bare name of a data source ... */
  lemma LeadingNameIsDsn(t: string, rest: string)
    requires Whole(t) && t != "" && '=' !in t
    ensures Parse(t) == [Entry("DSN", t)]
    ensures Parse(t + (";" + rest)) == [Entry("DSN", t)] + Entries(Tokens(rest), false)
  {
    NoEqualsBefore(t);
    assert EqualsAt(t) == |t|;
    LoneToken(t);
    TokenThenRest(t, rest);
    assert Entries([t], true) == [Entry("DSN", t)] + Entries([t][1..], false);
    assert ([t] + Tokens(rest))[1..] == Tokens(rest);
  }

  /** ... and nowhere else: a token without '=' behind the first says nothing, and one with it is a key and its value. */
  lemma {:induction false} LaterTokens(tokens: seq<string>)
    ensures |Entries(tokens, false)| == |Pairs(tokens)|
    ensures forall i :: 0 <= i < |Pairs(tokens)| ==> Text(Entries(tokens, false)[i]) == Pairs(tokens)[i]
    ensures forall i :: 0 <= i < |Pairs(tokens)| ==> '=' !in Entries(tokens, false)[i].key
  {
    if tokens != [] {
      LaterTokens(tokens[1..]);
      var t := tokens[0];
      NoEqualsBefore(t);
      if '=' in t {
        PairIsEntry(t);
        assert Pairs(tokens) == [t] + Pairs(tokens[1..]) && ([t] + Pairs(tokens[1..]))[1..] == Pairs(tokens[1..]);
      } else {
        assert EqualsAt(t) == |t|;
      }
    }
  }

  // The tokens with a '='.
  function Pairs(tokens: seq<string>): seq<string> {
    if tokens == [] then [] else (if '=' in tokens[0] then [tokens[0]] else []) + Pairs(tokens[1..])
  }

  lemma PairIsEntry(t: string)
    requires '=' in t
    ensures var n := EqualsAt(t);
      && n < |t| && EntryOf(t, false) == [Entry(t[..n], t[n + 1..])] && '=' !in t[..n]
      && Text(Entry(t[..n], t[n + 1..])) == t
  {
    NoEqualsBefore(t);
    assert t[..|t|] == t;
    KeyAndValue(t, EqualsAt(t));
  }

  /** In particular keys without '=', ';' and '{' and values that are whole. */
  lemma PlainKeysSurvive(es: seq<Entry>)
    requires forall i :: 0 <= i < |es| ==>
               '=' !in es[i].key && ';' !in es[i].key && '{' !in es[i].key && Whole(es[i].value)
    ensures Parse(Print(es)) == es
  {
    forall i | 0 <= i < |es| ensures Whole(Text(es[i])) {
      PlainIsWhole(es[i].key + "=");
      WholePrefix(es[i].key + "=", es[i].value);
    }
    PrintableSurvives(es);
  }

  lemma {:induction false} PlainIsWhole(t: string)
    requires ';' !in t && '{' !in t
    ensures Whole(t)
  {
    if t != "" {
      PlainIsWhole(t[1..]);
    }
  }
}
