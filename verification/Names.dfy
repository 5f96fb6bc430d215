/** Names of sections and keys, which the library compares without regard to case. */
module Names {

  function LowerChar(c: char): char {
    if 'A' <= c <= 'Z' then 'a' + (c - 'A') else c
  }

  function Lower(s: string): (r: string)
    ensures |r| == |s|
  {
    seq(|s|, i requires 0 <= i < |s| => LowerChar(s[i]))
  }

  // strcasecmp(a, b) == 0
  predicate SameName(a: string, b: string) {
    Lower(a) == Lower(b)
  }

  // One letter in either case.
  predicate SameLetter(a: char, b: char) {
    a == b || ('a' <= a <= 'z' && b == 'A' + (a - 'a')) || ('a' <= b <= 'z' && a == 'A' + (b - 'a'))
  }

  /** Two names are the same exactly if they are as long and agree letter by letter, whatever the case. */
  lemma SameNameIff(a: string, b: string)
    ensures SameName(a, b) <==> |a| == |b| && forall i :: 0 <= i < |a| ==> SameLetter(a[i], b[i])
  {
    forall i | 0 <= i < |a| && i < |b| ensures Lower(a)[i] == Lower(b)[i] <==> SameLetter(a[i], b[i]) {
    }
  }
}
