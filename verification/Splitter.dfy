/** Connection strings as lists of NUL-terminated pairs: the administrator's splitter, which scans
    backwards, against the parser's tokenizer, which scans forwards; and the loop that joins the list
    again. All three work in place. */
module Splitter {
  import ConnString

  const NUL: char := '\0'

  // ---- Forwards ----

  // Whether the tokenizer is inside braces when it comes to position i.
  predicate Inside(s: string, i: nat)
    requires i <= |s|
  {
    i > 0 && if Inside(s, i - 1) then s[i - 1] != '}' else s[i - 1] == '{'
  }

  predicate CutAt(s: string, i: nat)
    requires i < |s|
  {
    s[i] == ';' && !Inside(s, i)
  }

  lemma {:induction false} InsideSuffix(s: string, k: nat, i: nat)
    requires k <= i <= |s| && !Inside(s, k)
    ensures Inside(s, i) == Inside(s[k..], i - k)
  {
    if i > k {
      InsideSuffix(s, k, i - 1);
    }
  }

  lemma {:induction false} InsideBraces(s: string, i: nat)
    requires s != "" && s[0] == '{' && 0 < i <= ConnString.BraceEnd(s[1..])
    ensures Inside(s, i)
  {
    if i > 1 {
      InsideBraces(s, i - 1);
      BraceEndIsFirst(s[1..], i - 2);
    }
  }

  lemma {:induction false} BraceEndIsFirst(s: string, i: nat)
    requires i + 1 < ConnString.BraceEnd(s)
    ensures i < |s| && s[i] != '}'
  {
    if i > 0 {
      BraceEndIsFirst(s[1..], i - 1);
    }
  }

  lemma {:induction false} BraceEndCloses(s: string)
    requires '}' in s
    ensures ConnString.BraceEnd(s) > 0 && s[ConnString.BraceEnd(s) - 1] == '}'
  {
    if s[0] != '}' {
      BraceEndCloses(s[1..]);
    }
  }

  /** A token ends at the first cut. */
  lemma {:induction false} TokenEndsAtFirstCut(s: string, i: nat)
    requires ConnString.Closed(s) && i < |s|
    ensures var n := ConnString.TokenEnd(s);
            (i < n ==> !CutAt(s, i)) && (i == n ==> CutAt(s, i))
    decreases |s|
  {
    if s[0] == ';' {
    } else if s[0] == '{' {
      var b := 1 + ConnString.BraceEnd(s[1..]);
      BraceEndCloses(s[1..]);
      InsideBraces(s, b - 1);
      if i < b {
        if i > 0 {
          InsideBraces(s, i);
        }
      } else {
        InsideSuffix(s, b, i);
        assert s[b..] == s[1..][b - 1..];
        TokenEndsAtFirstCut(s[b..], i - b);
      }
    } else {
      if i > 0 {
        InsideSuffix(s, 1, i);
        TokenEndsAtFirstCut(s[1..], i - 1);
      }
    }
  }

  // ---- Backwards ----

  // The skip flag once the backward scan has dealt with the positions from i on.
  predicate Skipping(s: string, i: nat)
    requires i <= |s|
    decreases |s| - i
  {
    i < |s| && (s[i] == '}' || (s[i] != '{' && Skipping(s, i + 1)))
  }

  predicate BlankedAt(s: string, i: nat)
    requires i < |s|
  {
    s[i] == ';' && !Skipping(s, i + 1)
  }

  function Blanked(s: string): (b: string)
    ensures |b| == |s|
  {
    seq(|s|, i requires 0 <= i < |s| => if BlankedAt(s, i) then NUL else s[i])
  }

  /** Braces strictly alternate from position i on, open or closed before it. */
  predicate Alternates(s: string, i: nat, inside: bool)
    requires i <= |s|
    decreases |s| - i
  {
    if i == |s| then !inside
    else if s[i] == '{' then !inside && Alternates(s, i + 1, true)
    else if s[i] == '}' then inside && Alternates(s, i + 1, false)
    else Alternates(s, i + 1, inside)
  }

  lemma {:induction false} AlternatesForwards(s: string, i: nat)
    requires Alternates(s, 0, false) && i <= |s|
    ensures Alternates(s, i, Inside(s, i))
  {
    if i > 0 {
      AlternatesForwards(s, i - 1);
    }
  }

  lemma {:induction false} AlternatesBackwards(s: string, i: nat, inside: bool)
    requires i <= |s| && Alternates(s, i, inside)
    ensures Skipping(s, i) == inside
    decreases |s| - i
  {
    if i < |s| {
      AlternatesBackwards(s, i + 1, if s[i] == '{' then true else if s[i] == '}' then false else inside);
    }
  }

  // ---- Agreement ----

  /** The two scans take the same semicolons for separators. */
  ghost predicate Agree(s: string) {
    forall i :: 0 <= i < |s| ==> AgreeAt(s, i)
  }

  predicate AgreeAt(s: string, i: nat)
    requires i < |s|
  {
    BlankedAt(s, i) <==> CutAt(s, i)
  }

  predicate IsBrace(c: char) {
    c == '{' || c == '}'
  }

  // The nearest brace before position i opens.
  ghost predicate OpenedLeft(s: string, i: nat)
    requires i <= |s|
  {
    exists k :: 0 <= k < i && s[k] == '{' && forall j :: k < j < i ==> !IsBrace(s[j])
  }

  // The nearest brace from position i on closes.
  ghost predicate ClosedRight(s: string, i: nat)
    requires i <= |s|
  {
    exists k :: i <= k < |s| && s[k] == '}' && forall j :: i <= j < k ==> !IsBrace(s[j])
  }

  lemma {:induction false} InsideIsOpenedLeft(s: string, i: nat)
    requires i <= |s|
    ensures Inside(s, i) <==> OpenedLeft(s, i)
  {
    if i > 0 {
      InsideIsOpenedLeft(s, i - 1);
      if s[i - 1] == '{' {
        var k := i - 1;
        assert s[k] == '{';
      } else if Inside(s, i) {
        var k :| 0 <= k < i - 1 && s[k] == '{' && forall j :: k < j < i - 1 ==> !IsBrace(s[j]);
        assert k < i && forall j :: k < j < i ==> !IsBrace(s[j]);
      }
    }
  }

  lemma {:induction false} SkippingIsClosedRight(s: string, i: nat)
    requires i <= |s|
    ensures Skipping(s, i) <==> ClosedRight(s, i)
    decreases |s| - i
  {
    if i < |s| {
      SkippingIsClosedRight(s, i + 1);
      if s[i] == '}' {
        var k := i;
        assert s[k] == '}';
      } else if Skipping(s, i) {
        var k :| i + 1 <= k < |s| && s[k] == '}' && forall j :: i + 1 <= j < k ==> !IsBrace(s[j]);
        assert i <= k && forall j :: i <= j < k ==> !IsBrace(s[j]);
      }
    }
  }

  /** They agree on a string exactly if, at every semicolon, the nearest brace on the left opens just when the
      nearest one on the right closes. */
  lemma SplittersAgreeIff(s: string)
    ensures Agree(s) <==>
            forall i :: 0 <= i < |s| && s[i] == ';' ==> (OpenedLeft(s, i) <==> ClosedRight(s, i + 1))
  {
    forall i | 0 <= i < |s|
      ensures AgreeAt(s, i) <==> (s[i] == ';' ==> (OpenedLeft(s, i) <==> ClosedRight(s, i + 1)))
    {
      InsideIsOpenedLeft(s, i);
      SkippingIsClosedRight(s, i + 1);
    }
  }

  /** In particular where braces strictly alternate. */
  lemma AlternatingAgrees(s: string)
    requires Alternates(s, 0, false)
    ensures Agree(s)
  {
    forall i | 0 <= i < |s| ensures AgreeAt(s, i) {
      AlternatesForwards(s, i);
      AlternatesBackwards(s, i, Inside(s, i));
    }
  }

  lemma {:induction false} AlternatesSuffix(s: string, k: nat, i: nat, inside: bool)
    requires k <= i <= |s|
    ensures Alternates(s, i, inside) == Alternates(s[k..], i - k, inside)
    decreases |s| - i
  {
    if i < |s| {
      AlternatesSuffix(s, k, i + 1, if s[i] == '{' then true else if s[i] == '}' then false else inside);
    }
  }

  lemma {:induction false} SkippingSuffix(s: string, k: nat, i: nat)
    requires k <= i <= |s|
    ensures Skipping(s, i) == Skipping(s[k..], i - k)
    decreases |s| - i
  {
    if i < |s| {
      SkippingSuffix(s, k, i + 1);
    }
  }

  // A brace that opens closes, where braces alternate.
  lemma {:induction false} AlternationCloses(s: string)
    requires Alternates(s, 0, true)
    ensures '}' in s && Alternates(s[ConnString.BraceEnd(s)..], 0, false)
  {
    if s[0] != '}' {
      AlternatesSuffix(s, 1, 1, true);
      AlternationCloses(s[1..]);
      assert s[ConnString.BraceEnd(s)..] == s[1..][ConnString.BraceEnd(s[1..])..];
    } else {
      AlternatesSuffix(s, 1, 1, false);
    }
  }

  lemma {:induction false} AlternatingIsClosed(s: string)
    requires Alternates(s, 0, false)
    ensures ConnString.Closed(s)
    decreases |s|
  {
    if s != "" {
      AlternatesSuffix(s, 1, 1, s[0] == '{');
      if s[0] == '{' {
        AlternationCloses(s[1..]);
        AlternatingIsClosed(s[1..][ConnString.BraceEnd(s[1..])..]);
      } else {
        AlternatingIsClosed(s[1..]);
      }
    }
  }

  // The length of the first member.
  function Length(b: string): (n: nat)
    ensures n <= |b|
  {
    if b == "" || b[0] == NUL then 0 else 1 + Length(b[1..])
  }

  lemma {:induction false} LengthStops(b: string)
    ensures var n := Length(b); (forall i :: 0 <= i < n ==> b[i] != NUL) && (n < |b| ==> b[n] == NUL)
  {
    if b != "" && b[0] != NUL {
      LengthStops(b[1..]);
      forall i | 0 <= i < Length(b) ensures b[i] != NUL {
        assert i > 0 ==> b[i] == b[1..][i - 1];
      }
    }
  }

  // The members of a list of NUL-terminated pairs.
  function Members(b: string): seq<string>
    decreases |b|
  {
    if b == "" then []
    else
      var n := Length(b);
      if n == |b| then [b] else [b[..n]] + Members(b[n + 1..])
  }

  // What follows from agreement up to the end of the first token.
  lemma FirstMemberIff(s: string)
    requires ConnString.Closed(s) && NUL !in s
    ensures var n := ConnString.TokenEnd(s);
      Length(Blanked(s)) == n <==> forall i :: 0 <= i < |s| && i <= n ==> AgreeAt(s, i)
  {
    var b, n := Blanked(s), ConnString.TokenEnd(s);
    LengthStops(b);
    forall i | 0 <= i < |s| && i <= n ensures AgreeAt(s, i) <==> (b[i] == NUL <==> i == n) {
      TokenEndsAtFirstCut(s, i);
      assert s[i] in s;
    }
    if forall i :: 0 <= i < |s| && i <= n ==> AgreeAt(s, i) {
      assert n < |s| ==> AgreeAt(s, n);
      LengthIs(b, n);
    }
  }

  lemma {:induction false} LengthIs(b: string, n: nat)
    requires n <= |b| && (forall i :: 0 <= i < n ==> b[i] != NUL) && (n < |b| ==> b[n] == NUL)
    ensures Length(b) == n
  {
    if n > 0 {
      LengthIs(b[1..], n - 1);
    }
  }

  // Behind a token the two scans agree where they do on the rest alone.
  lemma AgreeBehind(s: string, n: nat)
    requires n < |s| && CutAt(s, n)
    ensures Blanked(s)[n + 1..] == Blanked(s[n + 1..])
    ensures Agree(s[n + 1..]) <==> forall i :: n < i < |s| ==> AgreeAt(s, i)
  {
    var rest := s[n + 1..];
    BlankedSuffix(s, n + 1);
    forall i | 0 <= i < |rest| ensures AgreeAt(rest, i) <==> AgreeAt(s, n + 1 + i) {
      assert rest[i] == s[n + 1 + i];
      InsideSuffix(s, n + 1, n + 1 + i);
      SkippingSuffix(s, n + 1, n + 1 + i + 1);
    }
    if Agree(rest) {
      forall i | n < i < |s| ensures AgreeAt(s, i) {
        assert AgreeAt(rest, i - n - 1);
      }
    }
  }

  lemma ClosedBehind(s: string)
    requires ConnString.Closed(s) && ConnString.TokenEnd(s) < |s|
    ensures ConnString.Closed(s[ConnString.TokenEnd(s) + 1..])
  {
    var n := ConnString.TokenEnd(s);
    ConnString.CutWhole(s);
    assert s[n..][1..] == s[n + 1..];
  }

  /** The list that the administrator works on has the parser's tokens as its members exactly if they agree. */
  lemma {:induction false} MembersAreTokensIff(s: string)
    requires ConnString.Closed(s) && NUL !in s
    ensures Members(Blanked(s)) == ConnString.Tokens(s) <==> Agree(s)
    decreases |s|
  {
    if s != "" {
      var b, n := Blanked(s), ConnString.TokenEnd(s);
      if Length(b) != n {
        FirstMemberIff(s);
        FirstLengths(b, s);
      } else if n == |s| {
        OnlyToken(s);
      } else {
        ClosedBehind(s);
        MembersAreTokensIff(s[n + 1..]);
        OneTokenOn(s, n);
      }
    }
  }

  lemma OnlyToken(s: string)
    requires ConnString.Closed(s) && NUL !in s && s != "" && ConnString.TokenEnd(s) == Length(Blanked(s)) == |s|
    ensures Agree(s) && Members(Blanked(s)) == ConnString.Tokens(s)
  {
    assert Agree(s) by {
      FirstMemberIff(s);
    }
    var b := Blanked(s);
    assert b == s by {
      SameFirst(s, |s|);
      SameWhole(b, s);
    }
    OneMember(b);
    ConnString.OneToken(s);
  }

  lemma SameWhole(b: string, s: string)
    requires |b| == |s| && b[..|s|] == s[..|s|]
    ensures b == s
  {
  }

  lemma OneMember(b: string)
    requires b != "" && Length(b) == |b|
    ensures Members(b) == [b]
  {
  }

  lemma OneTokenOn(s: string, n: nat)
    requires ConnString.Closed(s) && NUL !in s && n == ConnString.TokenEnd(s) == Length(Blanked(s)) < |s|
    ensures var rest := s[n + 1..];
      && (Agree(s) <==> Agree(rest))
      && (Members(Blanked(s)) == ConnString.Tokens(s) <==> Members(Blanked(rest)) == ConnString.Tokens(rest))
  {
    AgreeOnwards(s, n);
    SameOnwards(s, n);
  }

  lemma SameOnwards(s: string, n: nat)
    requires n == ConnString.TokenEnd(s) == Length(Blanked(s)) < |s|
    ensures var rest := s[n + 1..];
      Members(Blanked(s)) == ConnString.Tokens(s) <==> Members(Blanked(rest)) == ConnString.Tokens(rest)
  {
    var b, first, rest := Blanked(s), s[..n], s[n + 1..];
    assert b[..n] == first by {
      SameFirst(s, n);
    }
    assert b[n + 1..] == Blanked(rest) by {
      BlankedSuffix(s, n + 1);
    }
    MembersCons(b, n, first, Blanked(rest));
    ConnString.TokensCons(s, n, first, rest);
    SameTokenRest(first, Members(Blanked(rest)), ConnString.Tokens(rest));
  }

  lemma AgreeOnwards(s: string, n: nat)
    requires ConnString.Closed(s) && NUL !in s && n == ConnString.TokenEnd(s) == Length(Blanked(s)) < |s|
    ensures Agree(s) <==> Agree(s[n + 1..])
  {
    FirstMemberIff(s);
    TokenEndsAtFirstCut(s, n);
    AgreeBehind(s, n);
  }

  lemma MembersCons(b: string, n: nat, first: string, rest: string)
    requires n == Length(b) < |b| && first == b[..n] && rest == b[n + 1..]
    ensures Members(b) == [first] + Members(rest)
  {
  }

  lemma SameTokenRest(t: string, a: seq<string>, b: seq<string>)
    ensures [t] + a == [t] + b <==> a == b
  {
    if [t] + a == [t] + b {
      assert a == ([t] + a)[1..] == ([t] + b)[1..] == b;
    }
  }

  /** In particular where braces alternate, which also closes them. */
  lemma AlternatingMembersAreTokens(s: string)
    requires Alternates(s, 0, false) && NUL !in s
    ensures ConnString.Closed(s) && Members(Blanked(s)) == ConnString.Tokens(s)
  {
    AlternatingIsClosed(s);
    AlternatingAgrees(s);
    MembersAreTokensIff(s);
  }

  // The first members tell how far each scan went.
  lemma FirstLengths(b: string, s: string)
    requires b != "" && s != ""
    ensures |Members(b)| > 0 && |Members(b)[0]| == Length(b)
    ensures |ConnString.Tokens(s)| > 0 && |ConnString.Tokens(s)[0]| == ConnString.TokenEnd(s)
  {
  }

  lemma SameFirst(s: string, n: nat)
    requires n == Length(Blanked(s))
    ensures Blanked(s)[..n] == s[..n]
  {
    LengthStops(Blanked(s));
  }

  lemma BlankedSuffix(s: string, k: nat)
    requires k <= |s|
    ensures Blanked(s)[k..] == Blanked(s[k..])
  {
    forall i | 0 <= i < |s| - k ensures Blanked(s)[k + i] == Blanked(s[k..])[i] {
      SkippingSuffix(s, k, k + i + 1);
      assert s[k..][i] == s[k + i];
    }
  }

  /** So nested braces make them differ. */
  lemma NestedBracesDiffer()
    ensures !Agree("{a{b};c}")
  {
    var s := "{a{b};c}";
    assert ClosedRight(s, 6) by {
      assert s[7] == '}' && forall j :: 6 <= j < 7 ==> !IsBrace(s[j]);
    }
    assert !OpenedLeft(s, 5) by {
      assert s[4] == '}' && IsBrace(s[4]);
    }
    SplittersAgreeIff(s);
    assert s[5] == ';';
  }

  /** The splitting loop of iodbcdm_drvconn_dialboxw on a buffer whose first n characters are the string. */
  method SplitInPlace(a: array<char>, n: nat)
    requires n <= a.Length
    modifies a
    ensures a[..n] == Blanked(old(a[..n])) && a[n..] == old(a[n..])
  {
    ghost var s := a[..n];
    var skip := false;
    var i: int := n - 1;
    while i >= 0
      invariant -1 <= i < n && skip == Skipping(s, i + 1)
      invariant a[n..] == old(a[n..])
      invariant forall k :: 0 <= k <= i ==> a[k] == s[k]
      invariant forall k :: i < k < n ==> a[k] == Blanked(s)[k]
    {
      if a[i] == '}' {
        skip := true;
      } else if a[i] == '{' {
        skip := false;
      } else if !skip && a[i] == ';' {
        a[i] := NUL;
      }
      i := i - 1;
    }
  }

  // ---- Joining ----

  /** What the joining loop makes of a buffer with contents b before its two final NULs: it stops at the
      first empty member of the list. */
  function Rejoined(b: string): (r: string)
    ensures |r| == |b|
    decreases |b|
  {
    var n := Length(b);
    if n == 0 || |b| <= n + 1 || b[n + 1] == NUL then b
    else b[..n] + ";" + Rejoined(b[n + 1..])
  }

  // Every NUL turned back into a semicolon.
  function Restored(b: string): (r: string)
    ensures |r| == |b|
  {
    seq(|b|, i requires 0 <= i < |b| => if b[i] == NUL then ';' else b[i])
  }

  // No member of the list is empty.
  predicate Compact(b: string) {
    (b != "" ==> b[0] != NUL) && forall i :: 0 <= i < |b| && b[i] == NUL ==> i + 1 < |b| && b[i + 1] != NUL
  }

  /** Joining restores every semicolon exactly when no member of the list is empty. */
  lemma {:induction false} JoiningRestoresIff(b: string)
    ensures Rejoined(b) == Restored(b) <==> Compact(b)
    decreases |b|
  {
    var n := Length(b);
    LengthStops(b);
    if n == |b| {
      assert Restored(b) == b;
    } else if n == 0 || |b| <= n + 1 || b[n + 1] == NUL {
      assert Restored(b)[n] == ';' && Rejoined(b)[n] == NUL;
    } else {
      var rest := b[n + 1..];
      assert Rejoined(b) == b[..n] + ";" + Rejoined(rest);
      RestoredSplit(b, n);
      SameTails(b[..n] + ";", Rejoined(rest), Restored(rest));
      CompactRest(b, n);
      JoiningRestoresIff(rest);
    }
  }

  lemma RestoredSplit(b: string, n: nat)
    requires n < |b| && b[n] == NUL && forall i :: 0 <= i < n ==> b[i] != NUL
    ensures Restored(b) == b[..n] + ";" + Restored(b[n + 1..])
  {
  }

  lemma SameTails(p: string, a: string, b: string)
    ensures p + a == p + b <==> a == b
  {
    if p + a == p + b {
      assert a == (p + a)[|p|..] == (p + b)[|p|..] == b;
    }
  }

  lemma CompactRest(b: string, n: nat)
    requires 0 < n && n + 1 < |b| && b[n] == NUL && b[n + 1] != NUL
    requires forall i :: 0 <= i < n ==> b[i] != NUL
    ensures Compact(b) <==> Compact(b[n + 1..])
  {
    var rest := b[n + 1..];
    assert forall i :: 0 <= i < |rest| ==> rest[i] == b[n + 1 + i];
    if Compact(rest) {
      forall i | 0 <= i < |b| && b[i] == NUL ensures i + 1 < |b| && b[i + 1] != NUL {
        if i > n {
          assert rest[i - n - 1] == NUL;
        }
      }
    }
  }

  /** So splitting and joining restores a string exactly when no token of it is empty. */
  lemma SplitThenJoin(s: string)
    requires NUL !in s
    ensures Rejoined(Blanked(s)) == s <==> Compact(Blanked(s))
  {
    assert forall i :: 0 <= i < |s| ==> s[i] != NUL;
    assert Restored(Blanked(s)) == s;
    JoiningRestoresIff(Blanked(s));
  }

  // One member of the list, from its first character to its NUL, which is made a semicolon if
  // another member follows.
  method JoinOne(a: array<char>, curr: nat, n: nat) returns (end: nat)
    requires curr < n && n + 2 <= a.Length && a[n] == NUL && a[n + 1] == NUL && a[curr] != NUL
    modifies a
    ensures curr < end <= n && end == curr + Length(old(a[curr..n]))
    ensures forall k :: 0 <= k < a.Length && k != end ==> a[k] == old(a[k])
    ensures a[end] == if end + 1 <= n && old(a[end + 1]) != NUL then ';' else NUL
  {
    ghost var rest := a[curr..n];
    end := curr;
    while a[end] != NUL
      invariant curr <= end <= n && forall k :: curr <= k < end ==> a[k] != NUL
      decreases n - end
    {
      end := end + 1;
    }
    LengthIs(rest, end - curr);
    if a[end + 1] != NUL {
      a[end] := ';';
    }
  }

  // One round of the joining loop, seen from position curr of the whole buffer.
  lemma RejoinedFrom(b: string, r: string, curr: nat, end: nat)
    requires curr < end <= |b| == |r| && end == curr + Length(b[curr..])
    requires r[curr..] == Rejoined(b[curr..])
    ensures forall k :: curr <= k < end ==> r[k] == b[k]
    ensures end < |b| ==> r[end] == if end + 1 < |b| && b[end + 1] != NUL then ';' else NUL
    ensures end < |b| ==> r[end + 1..] == Rejoined(b[end + 1..])
  {
    var rest, m := b[curr..], end - curr;
    RejoinedParts(rest);
    Shifted(b, curr, end);
    Shifted(r, curr, end);
  }

  lemma Shifted(b: string, curr: nat, end: nat)
    requires curr < end <= |b|
    ensures forall k :: curr <= k < |b| ==> b[k] == b[curr..][k - curr]
    ensures end < |b| ==> b[curr..][end - curr + 1..] == b[end + 1..]
  {
  }

  // The first member, what becomes of its end, and the rest.
  lemma RejoinedParts(b: string)
    ensures var m, r := Length(b), Rejoined(b);
      && (forall k :: 0 <= k < m ==> r[k] == b[k])
      && (m < |b| ==> r[m] == if m > 0 && m + 1 < |b| && b[m + 1] != NUL then ';' else NUL)
      && (m < |b| && m > 0 ==> r[m + 1..] == Rejoined(b[m + 1..]))
  {
    LengthStops(b);
    var m := Length(b);
    if m < |b| && m > 0 {
      if m + 1 < |b| && b[m + 1] != NUL {
        RejoinedGoes(b, m);
        JoinedParts(b[..m], Rejoined(b[m + 1..]), Rejoined(b));
      } else {
        RejoinedStops(b, m);
        RejoinedEmpty(b[m + 1..]);
      }
    } else {
      RejoinedStops(b, m);
    }
  }

  lemma RejoinedGoes(b: string, m: nat)
    requires m == Length(b) && 0 < m && m + 1 < |b| && b[m + 1] != NUL
    ensures Rejoined(b) == b[..m] + ";" + Rejoined(b[m + 1..])
  {
  }

  lemma RejoinedStops(b: string, m: nat)
    requires m == Length(b) && (m == 0 || |b| <= m + 1 || b[m + 1] == NUL)
    ensures Rejoined(b) == b
  {
  }

  lemma JoinedParts(p: string, t: string, r: string)
    requires r == p + ";" + t
    ensures r[|p|] == ';' && r[|p| + 1..] == t && forall k :: 0 <= k < |p| ==> r[k] == p[k]
  {
  }

  lemma RejoinedEmpty(b: string)
    requires b == "" || b[0] == NUL
    ensures Rejoined(b) == b
  {
  }

  // No member of the list that begins at or before position k is empty.
  predicate SolidUpTo(b: string, k: nat)
    requires k < |b|
  {
    b[0] != NUL && forall i :: 0 <= i <= k && b[i] == NUL ==> i + 1 < |b| && b[i + 1] != NUL
  }

  /** Joining turns exactly the NULs into semicolons up to which no member of the list is empty. */
  lemma {:induction false} RejoinedAt(b: string, k: nat)
    requires k < |b|
    ensures Rejoined(b)[k] == if b[k] == NUL && SolidUpTo(b, k) then ';' else b[k]
    decreases |b|
  {
    var m, r := Length(b), Rejoined(b);
    LengthStops(b);
    RejoinedParts(b);
    if m > 0 && k > m && m + 1 < |b| && b[m + 1] != NUL {
      var rest := b[m + 1..];
      RejoinedAt(rest, k - m - 1);
      assert r[k] == r[m + 1..][k - m - 1] && b[k] == rest[k - m - 1];
      SolidBehind(b, m, k);
    } else if k >= m && (m == 0 || |b| <= m + 1 || b[m + 1] == NUL) {
      RejoinedStops(b, m);
    }
  }

  lemma SolidBehind(b: string, m: nat, k: nat)
    requires 0 < m < k < |b| && b[m] == NUL && b[m + 1] != NUL && forall i :: 0 <= i < m ==> b[i] != NUL
    ensures SolidUpTo(b, k) <==> SolidUpTo(b[m + 1..], k - m - 1)
  {
    var rest := b[m + 1..];
    assert forall i :: 0 <= i < |rest| ==> rest[i] == b[m + 1 + i];
    if SolidUpTo(rest, k - m - 1) {
      forall i | 0 <= i <= k && b[i] == NUL ensures i + 1 < |b| && b[i + 1] != NUL {
        if i > m {
          assert rest[i - m - 1] == NUL;
        }
      }
    }
  }

  // The buffer with the members before position curr joined; r is what it will be in the end.
  ghost predicate Joining(b: string, r: string, now: string, curr: nat) {
    && |now| == |b| == |r| && curr <= |b| + 1
    && (forall k :: curr <= k < |b| ==> now[k] == b[k])
    && (forall k :: 0 <= k < curr && k < |b| ==> now[k] == r[k])
    && (curr <= |b| ==> r[curr..] == Rejoined(b[curr..]))
  }

  lemma JoiningStarts(b: string)
    ensures Joining(b, Rejoined(b), b, 0)
  {
    assert b[0..] == b && Rejoined(b)[0..] == Rejoined(b);
  }

  lemma JoiningOne(b: string, r: string, now: string, next: string, curr: nat, end: nat)
    requires Joining(b, r, now, curr) && curr < end <= |b| == |next| && end == curr + Length(now[curr..])
    requires forall k :: 0 <= k < |b| && k != end ==> next[k] == now[k]
    requires end < |b| ==> next[end] == if end + 1 < |b| && now[end + 1] != NUL then ';' else NUL
    ensures Joining(b, r, next, end + 1)
  {
    assert now[curr..] == b[curr..];
    RejoinedFrom(b, r, curr, end);
  }

  lemma JoiningDone(b: string, r: string, now: string, curr: nat)
    requires Joining(b, r, now, curr) && (curr < |b| ==> now[curr] == NUL)
    ensures now == r
  {
    if curr < |b| {
      RejoinedEmpty(b[curr..]);
      assert forall k :: curr <= k < |b| ==> r[k] == r[curr..][k - curr] && b[k] == b[curr..][k - curr];
    }
  }

  /** The loop at the end of _iodbcdm_drvconn_dialbox, on a buffer that holds n characters and two NULs. */
  method JoinInPlace(a: array<char>, n: nat)
    requires n + 2 <= a.Length && a[n] == NUL && a[n + 1] == NUL
    modifies a
    ensures a[..n] == Rejoined(old(a[..n]))
    ensures forall k :: n <= k < a.Length ==> a[k] == old(a[k])
  {
    ghost var b := a[..n];
    ghost var now, r := b, Rejoined(b);
    var curr := 0;
    JoiningStarts(b);
    while a[curr] != NUL
      invariant 0 <= curr <= n + 1 && now == a[..n] && Joining(b, r, now, curr)
      invariant forall k :: n <= k < a.Length ==> a[k] == old(a[k])
      decreases n + 1 - curr
    {
      var end := JoinRound(a, curr, n, now);
      JoiningOne(b, r, now, a[..n], curr, end);
      now := a[..n];
      curr := end + 1;
    }
    JoiningDone(b, r, now, curr);
  }

  method JoinRound(a: array<char>, curr: nat, n: nat, ghost now: string) returns (end: nat)
    requires curr < n && n + 2 <= a.Length && a[n] == NUL && a[n + 1] == NUL && a[curr] != NUL
    requires now == a[..n]
    modifies a
    ensures curr < end <= n && end == curr + Length(now[curr..])
    ensures forall k :: 0 <= k < n && k != end ==> a[..n][k] == now[k]
    ensures end < n ==> a[..n][end] == if end + 1 < n && now[end + 1] != NUL then ';' else NUL
    ensures forall k :: n <= k < a.Length ==> a[k] == old(a[k])
  {
    assert now[curr..] == a[curr..n];
    end := JoinOne(a, curr, n);
  }
}
