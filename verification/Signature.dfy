/** Normalising a function signature: blanks are dropped, except for one space
    between two identifier characters that would otherwise run together. */
module Signature {
  import opened Texts

  predicate IsIdent(c: char) {
    c == '_' || '0' <= c <= '9' || 'a' <= c <= 'z' || 'A' <= c <= 'Z'
  }

  const NUL: char := 0 as char

  /** What becomes of `s` after the non-blank character `last` (NUL at the
      start): of a run of blanks, the one before the next character decides. */
  function NormalizeAfter(last: char, s: string): string
    decreases |s|
  {
    if s == "" then ""
    else if !IsSpace(s[0]) then [s[0]] + NormalizeAfter(s[0], s[1..])
    else Separator(last, s[1..]) + NormalizeAfter(last, s[1..])
  }

  /** The space owed to a blank that stands between `last` and `s`. */
  function Separator(last: char, s: string): string {
    if s != "" && IsIdent(last) && IsIdent(s[0]) then " " else ""
  }

  function Normalize(s: string): string {
    NormalizeAfter(NUL, s)
  }

  // -------------------------------------------------------------- properties

  function NonBlanks(s: string): string {
    if s == "" then "" else (if IsSpace(s[0]) then "" else [s[0]]) + NonBlanks(s[1..])
  }

  /** The character before position `i` of what follows `last`. */
  function Before(last: char, s: string, i: nat): char
    requires i <= |s|
  {
    if i == 0 then last else s[i - 1]
  }

  /** Every blank is a single space between two identifier characters. */
  predicate NormalAfter(last: char, s: string) {
    forall i | 0 <= i < |s| && IsSpace(s[i]) ::
      s[i] == ' ' && i + 1 < |s| && IsIdent(Before(last, s, i)) && IsIdent(s[i + 1])
  }

  lemma {:induction false} NonBlanksConcat(s: string, t: string)
    ensures NonBlanks(s + t) == NonBlanks(s) + NonBlanks(t)
  {
    if s == "" {
      assert s + t == t;
    } else {
      assert (s + t)[1..] == s[1..] + t;
      NonBlanksConcat(s[1..], t);
    }
  }

  /** All other characters stay, in order, and nothing gets longer. */
  lemma {:induction false} KeepsNonBlanks(last: char, s: string)
    ensures NonBlanks(NormalizeAfter(last, s)) == NonBlanks(s)
    ensures |NormalizeAfter(last, s)| <= |s|
    ensures s != "" && !IsSpace(s[0]) ==> NormalizeAfter(last, s) != "" && NormalizeAfter(last, s)[0] == s[0]
    decreases |s|
  {
    if s != "" {
      if !IsSpace(s[0]) {
        KeepsNonBlanks(s[0], s[1..]);
      } else {
        KeepsNonBlanks(last, s[1..]);
        NonBlanksConcat(Separator(last, s[1..]), NormalizeAfter(last, s[1..]));
        assert NonBlanks(" ") == "";
      }
    }
  }

  lemma NormalCons(last: char, c: char, t: string)
    requires NormalAfter(c, t) && !IsSpace(c)
    ensures NormalAfter(last, [c] + t)
  {
    var s := [c] + t;
    forall i | 0 <= i < |s| && IsSpace(s[i])
      ensures s[i] == ' ' && i + 1 < |s| && IsIdent(Before(last, s, i)) && IsIdent(s[i + 1])
    {
      assert s[i] == t[i - 1] && Before(last, s, i) == Before(c, t, i - 1);
    }
  }

  lemma NormalSpace(last: char, t: string)
    requires NormalAfter(last, t) && t != "" && IsIdent(last) && IsIdent(t[0])
    ensures NormalAfter(last, " " + t)
  {
    var s := " " + t;
    forall i | 0 <= i < |s| && IsSpace(s[i])
      ensures s[i] == ' ' && i + 1 < |s| && IsIdent(Before(last, s, i)) && IsIdent(s[i + 1])
    {
      if i > 0 {
        assert i > 1 && s[i] == t[i - 1] && Before(last, s, i) == Before(last, t, i - 1);
      }
    }
  }

  lemma {:induction false} ResultIsNormal(last: char, s: string)
    ensures NormalAfter(last, NormalizeAfter(last, s))
    decreases |s|
  {
    if s != "" {
      if !IsSpace(s[0]) {
        ResultIsNormal(s[0], s[1..]);
        NormalCons(last, s[0], NormalizeAfter(s[0], s[1..]));
      } else {
        ResultIsNormal(last, s[1..]);
        if Separator(last, s[1..]) != "" {
          KeepsNonBlanks(last, s[1..]);
          NormalSpace(last, NormalizeAfter(last, s[1..]));
        } else {
          assert "" + NormalizeAfter(last, s[1..]) == NormalizeAfter(last, s[1..]);
        }
      }
    }
  }

  lemma {:induction false} NormalIsFixed(last: char, s: string)
    requires NormalAfter(last, s)
    ensures NormalizeAfter(last, s) == s
    decreases |s|
  {
    if s != "" {
      if !IsSpace(s[0]) {
        forall i | 0 <= i < |s[1..]| ensures Before(s[0], s[1..], i) == Before(last, s, i + 1) {}
        NormalIsFixed(s[0], s[1..]);
      } else {
        assert IsIdent(Before(last, s, 0)) && !IsSpace(s[1]);
        forall i | 0 < i < |s[1..]| ensures Before(last, s[1..], i) == Before(last, s, i + 1) {}
        NormalIsFixed(last, s[1..]);
      }
    }
  }

  /** A signature is left alone exactly when it is in normal form, and what
      comes out is in normal form: normalising twice is normalising once. */
  lemma NormalizeIdempotent(s: string)
    ensures NormalAfter(NUL, Normalize(s))
    ensures Normalize(s) == s <==> NormalAfter(NUL, s)
    ensures Normalize(Normalize(s)) == Normalize(s)
  {
    ResultIsNormal(NUL, s);
    NormalIsFixed(NUL, Normalize(s));
    if NormalAfter(NUL, s) {
      NormalIsFixed(NUL, s);
    }
  }

  /** The space that words which a blank separates need between them. */
  function Gap(a: char, b: char): string {
    if IsIdent(a) && IsIdent(b) then " " else ""
  }

  /** What comes before a non-blank character does not matter to it. */
  lemma FirstDecides(last: char, s: string)
    requires s != "" && !IsSpace(s[0])
    ensures NormalizeAfter(last, s) == Normalize(s)
  {
  }

  lemma {:induction false} SkipsBlanks(last: char, blanks: string, s: string)
    requires Blanks(blanks) && blanks != "" && s != "" && !IsSpace(s[0])
    ensures NormalizeAfter(last, blanks + s) == Gap(last, s[0]) + Normalize(s)
    decreases |blanks|
  {
    var whole := blanks + s;
    assert blanks[0] in blanks && whole[0] == blanks[0] && whole[1..] == blanks[1..] + s;
    if |blanks| == 1 {
      assert whole[1..] == s;
      FirstDecides(last, s);
    } else {
      assert blanks[1] in blanks && whole[1..][0] == blanks[1];
      assert Blanks(blanks[1..]);
      SkipsBlanks(last, blanks[1..], s);
      assert "" + NormalizeAfter(last, whole[1..]) == NormalizeAfter(last, whole[1..]);
    }
  }

  lemma {:induction false} OnlyBlanks(last: char, blanks: string)
    requires Blanks(blanks)
    ensures NormalizeAfter(last, blanks) == ""
    decreases |blanks|
  {
    if blanks != "" {
      assert blanks[0] in blanks;
      assert forall c :: c in blanks[1..] ==> c in blanks;
      if blanks[1..] != "" {
        assert blanks[1] in blanks;
      }
      OnlyBlanks(last, blanks[1..]);
    }
  }

  lemma {:induction false} JoinsAfter(last: char, a: string, tail: string)
    requires a != "" && !IsSpace(a[|a| - 1])
    ensures NormalizeAfter(last, a + tail) == NormalizeAfter(last, a) + NormalizeAfter(a[|a| - 1], tail)
    decreases |a|
  {
    var whole := a + tail;
    assert whole[0] == a[0] && whole[1..] == a[1..] + tail;
    if |a| == 1 {
      assert a[1..] == "" && whole[1..] == tail;
      assert [a[0]] + "" == [a[0]];
    } else {
      var next := if IsSpace(a[0]) then last else a[0];
      JoinsAfter(next, a[1..], tail);
      var head := if IsSpace(a[0]) then Separator(last, a[1..]) else [a[0]];
      assert head + (NormalizeAfter(next, a[1..]) + NormalizeAfter(a[|a| - 1], tail))
          == head + NormalizeAfter(next, a[1..]) + NormalizeAfter(a[|a| - 1], tail);
    }
  }

  /** Two parts with blanks between them are normalised each for itself, with one space between
      them if they would run together, and no blanks otherwise. */
  lemma NormalizesParts(a: string, blanks: string, b: string)
    requires a != "" && !IsSpace(a[|a| - 1]) && b != "" && !IsSpace(b[0]) && Blanks(blanks) && blanks != ""
    ensures Normalize(a + (blanks + b)) == Normalize(a) + (Gap(a[|a| - 1], b[0]) + Normalize(b))
  {
    JoinsAfter(NUL, a, blanks + b);
    SkipsBlanks(a[|a| - 1], blanks, b);
  }

  /** Blanks at either end are dropped. */
  lemma TrimsBlanks(before: string, a: string, after: string)
    requires Blanks(before) && Blanks(after) && a != "" && !IsSpace(a[0]) && !IsSpace(a[|a| - 1])
    ensures Normalize(before + a) == Normalize(a) && Normalize(a + after) == Normalize(a)
  {
    if before == "" {
      assert before + a == a;
    } else {
      SkipsBlanks(NUL, before, a);
      assert "" + Normalize(a) == Normalize(a);
    }
    JoinsAfter(NUL, a, after);
    OnlyBlanks(a[|a| - 1], after);
    assert Normalize(a) + "" == Normalize(a);
  }

  // ------------------------------------------------------------ the algorithm

  /** `*from`: the terminating NUL follows the last character. */
  function CharAt(s: string, i: nat): char
    requires i <= |s|
  {
    if i < |s| then s[i] else NUL
  }

  lemma BlankAhead(last: char, s: string)
    requires s != "" && IsSpace(s[0])
    ensures Separator(last, s) == ""
    ensures NormalizeAfter(last, s) == Separator(last, s[1..]) + NormalizeAfter(last, s[1..])
  {
  }

  /** The first inner loop: to the next character that is not a blank. */
  method SkipBlanks(fun: string, start: nat, last: char) returns (from: nat)
    requires start <= |fun| && NUL !in fun
    requires start == |fun| || last == NUL || IsSpace(fun[start])
    ensures start <= from <= |fun| && (from < |fun| ==> !IsSpace(fun[from]))
    ensures start < |fun| && IsSpace(fun[start]) ==> start < from
    ensures NormalizeAfter(last, fun[start..]) == Separator(last, fun[from..]) + NormalizeAfter(last, fun[from..])
  {
    from := start;
    while CharAt(fun, from) != NUL && IsSpace(CharAt(fun, from))
      invariant start <= from <= |fun|
      invariant from > start || from == |fun| || last == NUL || IsSpace(fun[from])
      invariant NormalizeAfter(last, fun[start..]) ==
                Separator(last, fun[from..]) + NormalizeAfter(last, fun[from..])
      decreases |fun| - from
    {
      assert fun[from..][1..] == fun[from + 1..];
      BlankAhead(last, fun[from..]);
      from := from + 1;
    }
  }

  /** The second inner loop: copies up to the next blank. */
  method CopyWord(fun: string, buffer: array<char>, word: nat, start: nat, before: char)
    returns (from: nat, to: nat, last: char)
    requires NUL !in fun && start <= word <= |fun| < buffer.Length
    modifies buffer
    ensures word <= from <= |fun| && start <= to <= from
    ensures from == |fun| || IsSpace(fun[from])
    ensures from == word ==> to == start && last == before && buffer[..] == old(buffer[..])
    ensures from > word ==> to > start && last != NUL && buffer[to - 1] == last && !IsSpace(last)
    ensures buffer[..to] + NormalizeAfter(last, fun[from..]) ==
            old(buffer[..start]) + NormalizeAfter(before, fun[word..])
  {
    from, to, last := word, start, before;
    while CharAt(fun, from) != NUL && !IsSpace(CharAt(fun, from))
      invariant word <= from <= |fun| && start <= to <= from
      invariant from == word ==> to == start && last == before && buffer[..] == old(buffer[..])
      invariant from > word ==> to > start && last != NUL && buffer[to - 1] == last && !IsSpace(last)
      invariant buffer[..to] + NormalizeAfter(last, fun[from..]) ==
                old(buffer[..start]) + NormalizeAfter(before, fun[word..])
      decreases |fun| - from
    {
      ghost var written, rest := buffer[..to], fun[from..];
      assert rest[1..] == fun[from + 1..];
      last := fun[from];
      buffer[to] := last;
      from, to := from + 1, to + 1;
      assert buffer[..to] == written + [last];
    }
  }

  /** `written` accounts for all that has been read; it never ends in a blank. */
  ghost predicate Accounts(fun: string, written: string, from: nat, last: char) {
    && |written| <= from <= |fun|
    && (written == "" || (written[|written| - 1] == last && !IsSpace(last)))
    && written + NormalizeAfter(last, fun[from..]) == Normalize(fun)
  }

  lemma AllAccounted(fun: string, written: string, from: nat, last: char)
    requires Accounts(fun, written, from, last) && from == |fun|
    ensures written == Normalize(fun) && |written| <= |fun|
    ensures written != "" ==> written[|written| - 1] != ' '
  {
    assert fun[from..] == "" && written + "" == written;
  }

  /** One turn of the outer loop. */
  method NextWord(fun: string, buffer: array<char>, start: nat, length: nat, before: char)
    returns (from: nat, to: nat, last: char)
    requires NUL !in fun && start < |fun| < buffer.Length && length <= start
    requires before == NUL || IsSpace(fun[start])
    requires Accounts(fun, buffer[..length], start, before)
    modifies buffer
    ensures start < from <= |fun| && to <= from && Accounts(fun, buffer[..to], from, last)
    ensures from < |fun| ==> IsSpace(fun[from])
  {
    ghost var written := buffer[..length];
    from := SkipBlanks(fun, start, before);
    to := Separate(fun, buffer, from, length, before);
    assert buffer[..to] + NormalizeAfter(before, fun[from..]) == written + NormalizeAfter(before, fun[start..]);
    from, to, last := CopyWord(fun, buffer, from, to, before);
  }

  /** A blank between two words that would run together. */
  method Separate(fun: string, buffer: array<char>, from: nat, length: nat, before: char) returns (to: nat)
    requires NUL !in fun && from <= |fun| && length < buffer.Length
    modifies buffer
    ensures length <= to <= length + 1 && buffer[..to] == old(buffer[..length]) + Separator(before, fun[from..])
  {
    to := length;
    if before != NUL && IsIdent(before) && IsIdent(CharAt(fun, from)) {
      buffer[to] := ' ';
      to := to + 1;
    }
  }

  /** normalizeFunctionSignature: writes the result over a buffer of the size of
      the input, never past what it has read. */
  method NormalizeFunctionSignature(fun: string) returns (result: string)
    requires NUL !in fun
    ensures result == Normalize(fun)
    ensures |result| <= |fun|
  {
    if fun == "" {
      return "";
    }
    var buffer := new char[|fun| + 1];
    var to := WriteWords(fun, buffer);
    if to > 0 && buffer[to - 1] == ' ' {
      to := to - 1;
    }
    return buffer[..to];
  }

  /** The outer loop. */
  method WriteWords(fun: string, buffer: array<char>) returns (to: nat)
    requires NUL !in fun && fun != "" && buffer.Length == |fun| + 1
    modifies buffer
    ensures to <= |fun| && buffer[..to] == Normalize(fun) && (to > 0 ==> buffer[to - 1] != ' ')
  {
    var from, last := 0, NUL;
    to := 0;
    while true
      invariant to <= from < |fun| && Accounts(fun, buffer[..to], from, last)
      invariant last == NUL || IsSpace(fun[from])
      decreases |fun| - from
    {
      from, to, last := NextWord(fun, buffer, from, to, last);
      if CharAt(fun, from) == NUL {
        break;
      }
    }
    AllAccounted(fun, buffer[..to], from, last);
  }
}
