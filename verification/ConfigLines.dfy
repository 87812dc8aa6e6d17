/** The lines of a configuration file: how each is told apart, and what each says. */
module ConfigLines {
  import opened Options
  import opened Texts
  import opened ConfigCodec
  import ConfigLists

  // ------------------------------------------------------------- white space

  /** Every run of blanks becomes a single space. */
  function Collapse(s: string): string {
    if s == "" then ""
    else if !IsSpace(s[0]) then [s[0]] + Collapse(s[1..])
    else if |s| > 1 && IsSpace(s[1]) then Collapse(s[1..])
    else " " + Collapse(s[1..])
  }

  /** TQCString::simplifyWhiteSpace. */
  function Simplify(s: string): string {
    Collapse(Strip(s))
  }

  predicate NoBlanks(s: string) {
    forall c :: c in s ==> !IsSpace(c)
  }

  lemma {:induction false} CollapseWord(word: string, rest: string)
    requires NoBlanks(word)
    ensures Collapse(word + rest) == word + Collapse(rest)
    decreases |word|
  {
    if word == "" {
      assert word + rest == rest;
      assert word + Collapse(rest) == Collapse(rest);
    } else {
      assert word[0] in word;
      assert (word + rest)[1..] == word[1..] + rest;
      CollapseWord(word[1..], rest);
      assert [word[0]] + (word[1..] + Collapse(rest)) == word + Collapse(rest);
    }
  }

  lemma {:induction false} CollapseBlanks(s: string)
    ensures forall c :: c in Collapse(s) ==> c == ' ' || (!IsSpace(c) && c in s)
    decreases |s|
  {
    if s != "" {
      CollapseBlanks(s[1..]);
    }
  }

  lemma {:induction false} CollapseEnds(s: string)
    requires s != "" && !IsSpace(s[|s| - 1])
    ensures var t := Collapse(s); t != "" && t[|t| - 1] == s[|s| - 1]
    decreases |s|
  {
    if |s| > 1 {
      CollapseEnds(s[1..]);
    }
  }

  /** What Simplify makes of an indented line that ends in a non-blank. */
  lemma SimplifyLine(blank: string, line: string)
    requires Blanks(blank) && line != "" && !IsSpace(line[0]) && !IsSpace(line[|line| - 1])
    ensures Strip(blank + line) == line
    ensures Simplify(blank + line) == Collapse(line)
    ensures var t := Simplify(blank + line); t != "" && t[|t| - 1] == line[|line| - 1]
  {
    StripLeftIndent(blank, line);
    CollapseEnds(line);
  }

  // ------------------------------------------------------------------- rules

  predicate IsComment(line: string) {
    var t := Strip(line);
    t != "" && t[0] == '#'
  }

  predicate Bracketed(t: string) {
    |t| >= 2 && t[0] == '[' && t[|t| - 1] == ']'
  }

  predicate ContainsAt(t: string, word: string, i: nat) {
    i + |word| <= |t| && t[i..i + |word|] == word
  }

  predicate Contains(t: string, word: string) {
    exists i: nat :: i <= |t| && ContainsAt(t, word, i)
  }

  function SkipSpaces(t: string): string {
    if t != "" && t[0] == ' ' then SkipSpaces(t[1..]) else t
  }

  function UpTo(t: string): string {
    if t == "" || t[0] == ' ' || t[0] == ']' then "" else [t[0]] + UpTo(t[1..])
  }

  /** The first word inside the brackets. */
  function Word(t: string): string
    requires Bracketed(t)
  {
    UpTo(SkipSpaces(t[1..]))
  }

  predicate IsBegin(line: string) {
    var t := Simplify(line);
    Bracketed(t) && !Contains(t, "END")
  }

  predicate IsEnd(line: string) {
    var t := Simplify(line);
    Bracketed(t) && Word(t) == "END"
  }

  function NameOf(line: string): string {
    var t := Simplify(line);
    if |t| <= 2 || !Bracketed(t) || Word(t) == "END" then "" else Word(t)
  }

  /** isalnum or ispunct. */
  predicate IsGraph(c: char) {
    '!' <= c <= '~'
  }

  function Graphs(s: string): string {
    if s == "" then ""
    else if IsGraph(s[0]) then [s[0]] + Graphs(s[1..])
    else Graphs(s[1..])
  }

  /** The key and the value a line declares. */
  function Declared(line: string): Option<(string, string)> {
    var i := IndexOf(line, '=');
    if i == |line| then None
    else
      var key := Graphs(line[..i]);
      if key == "" then None else Some((key, line[i + 1..]))
  }

  // ------------------------------------------------------------ saved lines

  predicate GoodName(n: string) {
    n != "" && NoBlanks(n) && ']' !in n && !Contains(n, "END")
  }

  predicate PlainKey(k: string) {
    k != "" && forall c :: c in k ==> IsGraph(c) && c != '='
  }

  predicate GoodKey(k: string) {
    PlainKey(k) && k[0] != '#'
  }

  /** No character that ends a line. */
  predicate NoBreak(s: string) {
    '\n' !in s && '\r' !in s
  }

  predicate Quoted(v: string) {
    |v| >= 2 && v[0] == '\"' && v[|v| - 1] == '\"' && NoBreak(v)
  }

  /** A key and a value that look like a section line together. */
  predicate SectionLike(k: string, v: string) {
    IsBegin(k + "=" + v) || IsEnd(k + "=" + v)
  }

  function Spaces(n: nat): (s: string)
    ensures |s| == n && Blanks(s) && NoBreak(s)
  {
    if n == 0 then "" else " " + Spaces(n - 1)
  }

  function OpenLine(n: string, indent: nat): string {
    Spaces(indent) + ("[" + n + "]")
  }

  function CloseLine(n: string, indent: nat): string {
    Spaces(indent) + ("[END " + n + "]")
  }

  function KeyLine(k: string, v: string, indent: nat): string {
    Spaces(indent) + (k + "=" + v)
  }

  function CommentLine(text: string, indent: nat): string {
    Spaces(indent) + ("# " + text)
  }

  lemma CommentReads(text: string, indent: nat)
    ensures IsComment(CommentLine(text, indent))
  {
    var line := "# " + text;
    StripLeftIndent(Spaces(indent), line);
    StripRightKeepsFirst(line);
  }

  lemma {:induction false} StripRightKeepsFirst(s: string)
    requires s != "" && !IsSpace(s[0])
    ensures StripRight(s) != "" && StripRight(s)[0] == s[0]
    decreases |s|
  {
    if IsSpace(s[|s| - 1]) {
      StripRightKeepsFirst(s[..|s| - 1]);
    }
  }

  // names

  lemma {:induction false} UpToWord(word: string, rest: string)
    requires rest != "" && (rest[0] == ' ' || rest[0] == ']')
    requires ' ' !in word && ']' !in word
    ensures UpTo(word + rest) == word
    decreases |word|
  {
    if word == "" {
      assert word + rest == rest;
    } else {
      assert (word + rest)[1..] == word[1..] + rest;
      UpToWord(word[1..], rest);
    }
  }

  lemma {:induction false} UpToChars(t: string)
    ensures ' ' !in UpTo(t) && ']' !in UpTo(t)
    ensures forall c :: c in UpTo(t) ==> c in t
    decreases |t|
  {
    if t != "" {
      UpToChars(t[1..]);
    }
  }

  lemma {:induction false} SkipSpacesChars(t: string)
    ensures forall c :: c in SkipSpaces(t) ==> c in t
    decreases |t|
  {
    if t != "" && t[0] == ' ' {
      SkipSpacesChars(t[1..]);
    }
  }

  lemma WordChars(t: string)
    requires Bracketed(t)
    ensures ' ' !in Word(t) && ']' !in Word(t)
    ensures forall c :: c in Word(t) ==> c in t
  {
    SkipSpacesChars(t[1..]);
    UpToChars(SkipSpaces(t[1..]));
  }

  lemma ContainsInside(n: string)
    ensures Contains("[" + n + "]", "END") <==> Contains(n, "END")
  {
    var t := "[" + n + "]";
    if i: nat :| i <= |n| && ContainsAt(n, "END", i) {
      assert t[i + 1..i + 4] == n[i..i + 3];
      assert ContainsAt(t, "END", i + 1);
    }
    if i: nat :| i <= |t| && ContainsAt(t, "END", i) {
      var found := t[i..i + 3];
      assert found[0] == t[i] && found[2] == t[i + 2];
      assert t[i] == 'E' && t[i + 2] == 'D';
      assert t[0] == '[' && t[|n| + 1] == ']';
      assert t[i..i + 3] == n[i - 1..i + 2];
      assert ContainsAt(n, "END", i - 1);
    }
  }

  lemma ContainsItself(n: string)
    ensures n == "END" ==> Contains(n, "END")
  {
    if n == "END" {
      assert ContainsAt(n, "END", 0);
    }
  }

  lemma GoodNameReads(n: string, indent: nat)
    requires GoodName(n)
    ensures IsBegin(OpenLine(n, indent)) && NameOf(OpenLine(n, indent)) == n
    ensures !IsEnd(OpenLine(n, indent)) && !IsComment(OpenLine(n, indent))
  {
    var t := "[" + n + "]";
    SimplifyLine(Spaces(indent), t);
    assert t + "" == t;
    CollapseWord(t, "");
    ContainsInside(n);
    assert t[1..] == n + "]";
    assert n[0] in n;
    UpToWord(n, "]");
    ContainsItself(n);
  }

  /** A section's opening line is read as that section exactly for the names that
      are not empty and have no blank, no "]" and no "END" in them. */
  lemma NameReadsExactly(n: string, indent: nat)
    ensures n != "" && IsBegin(OpenLine(n, indent)) && NameOf(OpenLine(n, indent)) == n <==> GoodName(n)
  {
    var t := Simplify(OpenLine(n, indent));
    if n != "" && IsBegin(OpenLine(n, indent)) && NameOf(OpenLine(n, indent)) == n {
      WordChars(t);
      CollapseBlanks(Strip(OpenLine(n, indent)));
      forall c | c in n ensures !IsSpace(c) {
        assert c in t;
      }
      SimplifyLine(Spaces(indent), "[" + n + "]");
      assert ("[" + n + "]") + "" == "[" + n + "]";
      CollapseWord("[" + n + "]", "");
      ContainsInside(n);
    }
    if GoodName(n) {
      GoodNameReads(n, indent);
    }
  }

  /** The closing line ends a section whatever the name is. */
  lemma CloseReads(n: string, indent: nat)
    ensures IsEnd(CloseLine(n, indent)) && !IsComment(CloseLine(n, indent))
  {
    var line := "[END " + n + "]";
    SimplifyLine(Spaces(indent), line);
    CloseCollapses(n);
    UpToWord("END", Collapse(line)[4..]);
  }

  lemma CloseCollapses(n: string)
    ensures var t := Collapse("[END " + n + "]");
            |t| > 4 && t[0] == '[' && t[4] == ' ' && t[1..] == "END" + t[4..]
  {
    var rest := " " + (n + "]");
    assert "[END " + n + "]" == "[END" + rest;
    CollapseWord("[END", rest);
    CollapseLeadingBlank(n + "]");
  }

  lemma CollapseLeadingBlank(s: string)
    requires s != "" && !IsSpace(s[|s| - 1])
    ensures var t := Collapse(" " + s); t != "" && t[0] == ' '
    decreases |s|
  {
    assert (" " + s)[1..] == s;
    if IsSpace(s[0]) {
      CollapseFromBlank(s);
    }
  }

  lemma {:induction false} CollapseFromBlank(s: string)
    requires s != "" && IsSpace(s[0])
    ensures Collapse(s) != "" && Collapse(s)[0] == ' '
    decreases |s|
  {
    if |s| > 1 && IsSpace(s[1]) {
      CollapseFromBlank(s[1..]);
    }
  }

  // keys

  lemma GraphsOf(blank: string, k: string)
    requires Blanks(blank) && forall c :: c in k ==> IsGraph(c)
    ensures Graphs(blank + k) == k
  {
    assert blank + (k + "") == blank + k;
    GraphsAround(blank, k, "");
  }

  lemma {:induction false} GraphsAll(k: string)
    requires forall c :: c in k ==> IsGraph(c)
    ensures Graphs(k) == k
    decreases |k|
  {
    if k != "" {
      assert k == [k[0]] + k[1..];
      GraphsAll(k[1..]);
    }
  }

  lemma {:induction false} GraphsChars(s: string)
    ensures forall c :: c in Graphs(s) ==> IsGraph(c) && c in s
    decreases |s|
  {
    if s != "" {
      GraphsChars(s[1..]);
    }
  }

  lemma KeyLineDeclares(k: string, v: string, indent: nat)
    requires GoodKey(k)
    ensures Declared(KeyLine(k, v, indent)) == Some((k, v))
  {
    var head := Spaces(indent) + k;
    var line := KeyLine(k, v, indent);
    assert line == head + "=" + v;
    assert line[..|head|] == head && line[|head| + 1..] == v;
    IndexOfIs(line, '=', |head|);
    GraphsOf(Spaces(indent), k);
  }

  /** Blanks in front of a line say nothing. */
  lemma IndentSaysNothing(line: string, indent: nat)
    requires line != "" && !IsSpace(line[0])
    ensures Strip(Spaces(indent) + line) == Strip(line)
  {
    StripLeftIndent(Spaces(indent), line);
  }

  lemma KeyLineIs(k: string, v: string, indent: nat)
    requires k != "" && !IsSpace(k[0])
    ensures var line, text := KeyLine(k, v, indent), k + "=" + v;
            (IsComment(line) <==> k[0] == '#') && (IsBegin(line) <==> IsBegin(text)) && (IsEnd(line) <==> IsEnd(text))
  {
    var text := k + "=" + v;
    assert text[0] == k[0];
    IndentSaysNothing(text, indent);
    StripRightKeepsFirst(text);
  }

  /** A quoted value makes no section line: the line ends with a quote. */
  lemma QuotedIsFlat(k: string, v: string)
    requires Quoted(v)
    ensures !SectionLike(k, v)
  {
    var line := k + "=" + v;
    assert line[|line| - 1] == '\"';
    EndIsFlat(line);
  }

  /** A line that ends with anything but a bracket is no section line. */
  lemma EndIsFlat(line: string)
    requires line != "" && !IsSpace(line[|line| - 1]) && line[|line| - 1] != ']'
    ensures !IsBegin(line) && !IsEnd(line)
  {
    StripEnds(line);
    CollapseEnds(Strip(line));
  }

  lemma {:induction false} StripEnds(s: string)
    requires s != "" && !IsSpace(s[|s| - 1])
    ensures Strip(s) != "" && Strip(s)[|Strip(s)| - 1] == s[|s| - 1]
    decreases |s|
  {
    if IsSpace(s[0]) {
      StripEnds(s[1..]);
    }
  }

  predicate KeyLineReads(k: string, v: string, indent: nat) {
    var line := KeyLine(k, v, indent);
    && !IsComment(line) && !IsEnd(line) && !IsBegin(line)
    && Declared(line) == Some((k, v))
  }

  lemma GoodKeyReads(k: string, v: string, indent: nat)
    requires GoodKey(k) && !SectionLike(k, v)
    ensures KeyLineReads(k, v, indent)
  {
    assert k[0] in k;
    KeyLineIs(k, v, indent);
    KeyLineDeclares(k, v, indent);
  }

  /** A key line gives its key and value back exactly for the keys that are not empty,
      printable, free of "=" and do not start a comment, with values that do not make it look
      like a section line. */
  lemma KeyReadsExactly(k: string, v: string, indent: nat)
    ensures KeyLineReads(k, v, indent) <==> GoodKey(k) && !SectionLike(k, v)
  {
    var line := KeyLine(k, v, indent);
    if KeyLineReads(k, v, indent) {
      GraphsChars(line[..IndexOf(line, '=')]);
      assert k[0] in k;
      KeyLineIs(k, v, indent);
    }
    if GoodKey(k) && !SectionLike(k, v) {
      GoodKeyReads(k, v, indent);
    }
  }

  /** What the encoders make fits into the value of a key line exactly for texts without a
      carriage return, which the encoders leave as it is. */
  lemma EncodedIsQuoted(s: string, xs: seq<string>)
    ensures Quoted(Encode(s)) <==> '\r' !in s
    ensures Quoted(ConfigLists.EncodeList(xs)) <==> forall x <- xs :: '\r' !in x
  {
    OneLine(s);
    ConfigLists.ListOneLine(xs);
  }

  lemma HashKeyIsComment(k: string, v: string, indent: nat)
    requires k != "" && k[0] == '#'
    ensures IsComment(KeyLine(k, v, indent))
  {
    KeyLineIs(k, v, indent);
  }

  // --------------------------------------------- what any line can declare

  /** The key that any line declares is printable and has no "=" in it, and a line has no breaks. */
  lemma DeclaredIsPlain(line: string)
    requires Declared(line).Some? && NoBreak(line)
    ensures PlainKey(Declared(line).value.0) && NoBreak(Declared(line).value.1)
  {
    GraphsChars(line[..IndexOf(line, '=')]);
  }

  lemma {:induction false} UpToPrefix(t: string)
    ensures UpTo(t) <= t
    decreases |t|
  {
    if t != "" && t[0] != ' ' && t[0] != ']' {
      UpToPrefix(t[1..]);
      assert t == [t[0]] + t[1..];
    }
  }

  lemma {:induction false} SkipSpacesSuffix(t: string) returns (k: nat)
    ensures k <= |t| && SkipSpaces(t) == t[k..]
    decreases |t|
  {
    if t != "" && t[0] == ' ' {
      k := SkipSpacesSuffix(t[1..]);
      k := k + 1;
    } else {
      k := 0;
    }
  }

  lemma SliceOfSlice<T>(s: seq<T>, t: seq<T>, i: nat, n: nat)
    requires t <= s && i + n <= |t|
    ensures s[i..i + n] == t[i..i + n]
  {
  }

  lemma SliceOfTail<T>(s: seq<T>, k: nat, i: nat, n: nat)
    requires k + i + n <= |s|
    ensures s[k..][i..i + n] == s[k + i..k + i + n]
  {
  }

  lemma WordContains(t: string, word: string)
    requires Bracketed(t) && Contains(Word(t), word)
    ensures Contains(t, word)
  {
    var k := SkipSpacesSuffix(t[1..]);
    var rest := SkipSpaces(t[1..]);
    UpToPrefix(rest);
    var i: nat :| i <= |Word(t)| && ContainsAt(Word(t), word, i);
    SliceOfSlice(rest, Word(t), i, |word|);
    SliceOfTail(t, k + 1, i, |word|);
    assert ContainsAt(t, word, k + 1 + i);
  }

  /** The name on any opening line is good, or there is none. */
  lemma NameIsGood(line: string)
    requires IsBegin(line) && NameOf(line) != ""
    ensures GoodName(NameOf(line))
  {
    var t := Simplify(line);
    WordChars(t);
    CollapseBlanks(Strip(line));
    if Contains(Word(t), "END") {
      WordContains(t, "END");
      assert false;
    }
  }

  // ------------------------------------------------- lines written by other hands

  /** One space for a run of blanks. */
  function Space(blank: string): string {
    if blank == "" then "" else " "
  }

  lemma {:induction false} CollapseRun(blank: string, s: string)
    requires Blanks(blank) && s != "" && !IsSpace(s[0])
    ensures Collapse(blank + s) == Space(blank) + Collapse(s)
    decreases |blank|
  {
    if blank == "" {
      assert blank + s == s;
    } else {
      var whole := blank + s;
      assert blank[0] in blank && whole[1..] == blank[1..] + s;
      if |blank| > 1 {
        assert blank[1] in blank && whole[1] == blank[1];
        CollapseRun(blank[1..], s);
      } else {
        assert whole[1..] == s;
      }
    }
  }

  lemma {:induction false} StripRightBlanks(s: string, blank: string)
    requires Blanks(blank) && (s == "" || !IsSpace(s[|s| - 1]))
    ensures StripRight(s + blank) == s
    decreases |blank|
  {
    if blank == "" {
      assert s + blank == s;
    } else {
      var whole := s + blank;
      assert blank[|blank| - 1] in blank && whole[..|whole| - 1] == s + blank[..|blank| - 1];
      StripRightBlanks(s, blank[..|blank| - 1]);
    }
  }

  /** Blanks at either end of a line do not matter, and others count as one. */
  lemma BracketsSimplify(before: string, inside: string, after: string)
    requires Blanks(before) && Blanks(after)
    ensures Simplify(before + ("[" + inside + "]" + after)) == Collapse("[" + inside + "]")
    ensures Strip(before + ("[" + inside + "]" + after)) == "[" + inside + "]"
  {
    var core := "[" + inside + "]";
    StripLeftIndent(before, core + after);
    StripRightBlanks(core, after);
  }

  lemma {:induction false} SkipsSpace(blank: string, s: string)
    requires s != "" && !IsSpace(s[0])
    ensures SkipSpaces(Space(blank) + s) == s
  {
    if blank == "" {
      assert "" + s == s;
    } else {
      assert (" " + s)[1..] == s;
    }
  }

  /** Between brackets, with spaces around it, a word contains what it contains. */
  lemma SpacesContainNothing(left: string, n: string, right: string)
    ensures Contains("[" + (Space(left) + (n + (Space(right) + "]"))), "END") ==> Contains(n, "END")
  {
    var t := "[" + (Space(left) + (n + (Space(right) + "]")));
    var k := 1 + |Space(left)|;
    if i: nat :| i <= |t| && ContainsAt(t, "END", i) {
      var found := t[i..i + 3];
      assert found[0] == t[i] == 'E' && found[1] == t[i + 1] == 'N' && found[2] == t[i + 2] == 'D';
      assert t[k..k + |n|] == n && k <= i && i + 3 <= k + |n|;
      SliceOfTail(t, k, i - k, 3);
      assert n[i - k..i - k + 3] == t[i..i + 3];
      assert ContainsAt(n, "END", i - k);
    }
  }

  lemma WordIs(left: string, n: string, rest: string)
    requires n != "" && NoBlanks(n) && ']' !in n && rest != "" && (rest[0] == ' ' || rest[0] == ']')
    requires Bracketed("[" + (Space(left) + (n + rest)))
    ensures Word("[" + (Space(left) + (n + rest))) == n
  {
    assert n[0] in n;
    SkipsSpace(left, n + rest);
    UpToWord(n, rest);
  }

  lemma CollapseBrackets(left: string, n: string, right: string)
    requires Blanks(left) && Blanks(right) && n != "" && NoBlanks(n)
    ensures Collapse("[" + (left + (n + (right + "]")))) == "[" + (Space(left) + (n + (Space(right) + "]")))
  {
    assert n[0] in n;
    CollapseWord("[", left + (n + (right + "]")));
    CollapseRun(left, n + (right + "]"));
    CollapseWord(n, right + "]");
    CollapseRun(right, "]");
    assert "]"[1..] == "" && Collapse("]") == "]";
  }

  /** A section is opened by its name between brackets, with blanks wherever they are. */
  lemma OpeningLine(before: string, left: string, n: string, right: string, after: string)
    requires Blanks(before) && Blanks(left) && Blanks(right) && Blanks(after) && GoodName(n)
    ensures var line := before + ("[" + (left + (n + right)) + "]" + after);
            IsBegin(line) && !IsEnd(line) && !IsComment(line) && NameOf(line) == n
  {
    var inside := left + (n + right);
    BracketsSimplify(before, inside, after);
    assert "[" + inside + "]" == "[" + (left + (n + (right + "]")));
    CollapseBrackets(left, n, right);
    WordIs(left, n, Space(right) + "]");
    SpacesContainNothing(left, n, right);
    ContainsItself(n);
  }

  /** A section is closed by END between brackets, with blanks wherever they are, and anything
      after a blank. */
  lemma ClosingLine(before: string, left: string, more: string, after: string)
    requires Blanks(before) && Blanks(left) && Blanks(after) && (more == "" || IsSpace(more[0]))
    ensures var line := before + ("[" + (left + ("END" + more)) + "]" + after);
            IsEnd(line) && !IsBegin(line) && !IsComment(line) && NameOf(line) == ""
  {
    var inside := left + ("END" + more);
    BracketsSimplify(before, inside, after);
    assert "[" + inside + "]" == "[" + (left + ("END" + (more + "]")));
    CollapseWord("[", left + ("END" + (more + "]")));
    CollapseRun(left, "END" + (more + "]"));
    CollapseWord("END", more + "]");
    var tail := Collapse(more + "]");
    CollapseStarts(more);
    CollapseEnds(more + "]");
    WordIs(left, "END", tail);
    ContainsEnd(left, tail);
  }

  lemma CollapseStarts(more: string)
    requires more == "" || IsSpace(more[0])
    ensures var tail := Collapse(more + "]"); tail != "" && (tail[0] == ' ' || tail[0] == ']')
  {
    if more == "" {
      assert more + "]" == "]";
    } else {
      CollapseFromBlank(more + "]");
    }
  }

  lemma ContainsEnd(left: string, tail: string)
    ensures Contains("[" + (Space(left) + ("END" + tail)), "END")
  {
    var k := 1 + |Space(left)|;
    var t := "[" + (Space(left) + ("END" + tail));
    assert t[k..k + 3] == "END";
    assert ContainsAt(t, "END", k);
  }

  /** A comment is a line whose first character that is no blank is "#". */
  lemma CommentExactly(before: string, line: string)
    requires Blanks(before) && line != "" && !IsSpace(line[0])
    ensures IsComment(before + line) <==> line[0] == '#'
  {
    StripLeftIndent(before, line);
    StripRightKeepsFirst(line);
  }

  /** Blanks around a key do not matter, and the value is all that follows the first "=", with
      its blanks. */
  lemma KeyIsTrimmed(before: string, k: string, after: string, v: string)
    requires Blanks(before) && Blanks(after) && PlainKey(k)
    ensures Declared(before + (k + after) + "=" + v) == Some((k, v))
  {
    var head := before + (k + after);
    assert forall c :: IsSpace(c) ==> c != '=' && !IsGraph(c);
    IndexOfBehind(head, '=', v);
    GraphsAround(before, k, after);
  }

  lemma GraphsAround(before: string, k: string, after: string)
    requires Blanks(before) && Blanks(after) && forall c :: c in k ==> IsGraph(c)
    ensures Graphs(before + (k + after)) == k
  {
    GraphsConcat(before, k + after);
    GraphsConcat(k, after);
    GraphsOfBlanks(before);
    GraphsOfBlanks(after);
    GraphsAll(k);
  }

  lemma {:induction false} GraphsConcat(s: string, t: string)
    ensures Graphs(s + t) == Graphs(s) + Graphs(t)
    decreases |s|
  {
    if s == "" {
      assert s + t == t;
    } else {
      assert (s + t)[1..] == s[1..] + t;
      GraphsConcat(s[1..], t);
    }
  }

  /** isalnum and ispunct, character by character. */
  lemma GraphsAre(c: char)
    ensures IsGraph(c) <==>
              'a' <= c <= 'z' || 'A' <= c <= 'Z' || '0' <= c <= '9' || c in "!\"#$%&'()*+,-./:;<=>?@[\\]^_`{|}~"
  {
  }

  lemma {:induction false} GraphsOfBlanks(blank: string)
    requires Blanks(blank)
    ensures Graphs(blank) == ""
    decreases |blank|
  {
    if blank != "" {
      assert blank[0] in blank && forall c :: c in blank[1..] ==> c in blank;
      GraphsOfBlanks(blank[1..]);
    }
  }
}
