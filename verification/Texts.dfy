/** Blanks, and the search for the first occurrence, in the sense of C and of TQt. */
module Texts {
  /** isspace. */
  predicate IsSpace(c: char) {
    c in {' ', '\t', '\n', 11 as char, 12 as char, '\r'}
  }

  predicate Blanks(s: string) {
    forall c :: c in s ==> IsSpace(c)
  }

  /** TQCString::find and TQPtrList::findRef; the length of `s` stands for "not found". */
  function IndexOf<T(==)>(s: seq<T>, x: T): (i: nat)
    ensures i <= |s|
    ensures i < |s| ==> s[i] == x
    ensures x !in s[..i]
    ensures i == |s| ==> x !in s
  {
    if s == [] || s[0] == x then 0
    else
      var i := 1 + IndexOf(s[1..], x);
      assert s[..i] == [s[0]] + s[1..][..i - 1];
      i
  }

  lemma {:induction false} IndexOfIs(s: string, c: char, n: nat)
    requires n < |s| && s[n] == c && c !in s[..n]
    ensures IndexOf(s, c) == n
    decreases n
  {
    if n > 0 {
      assert s[..n][0] == s[0];
      assert s[1..][..n - 1] == s[..n][1..];
      IndexOfIs(s[1..], c, n - 1);
    }
  }

  lemma IndexOfBehind(before: string, c: char, after: string)
    requires c !in before
    ensures IndexOf(before + [c] + after, c) == |before|
    ensures (before + [c] + after)[..|before|] == before && (before + [c] + after)[|before| + 1..] == after
  {
    IndexOfIs(before + [c] + after, c, |before|);
  }
}
