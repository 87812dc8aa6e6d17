/** How reading a file ends: when a section is left open, and when it uses a subsection
    variable that was never set, for an opening line that names no section, such as "[]". */
module ConfigNameless {
  import opened ConfigFile
  import opened ConfigLines
  import opened ConfigMaps
  import opened Options

  /** Going through the lines of a text with nothing but a flag for each section that is being
      read, outermost first, whether an opening line was passed in it: is a nameless
      opening line reached before any other opening line of its section? */
  predicate Strays(flags: seq<bool>, text: string)
    requires flags != []
    decreases |text|
  {
    var (line, rest) := NextLine(text);
    var outer := flags[..|flags| - 1];
    if text == "" then false
    else if IsEnd(line) then outer != [] && Strays(outer, rest)
    else if rest == "" then false
    else if IsBegin(line) then
      (NameOf(line) == "" && !flags[|flags| - 1]) || Strays(outer + [true] + [false], rest)
    else Strays(flags, rest)
  }

  // ------------------------------------------------------- sections left open

  /** Going through the lines of a text with nothing but the number of sections that are open: is
      one still open at the end? */
  predicate Unclosed(depth: nat, text: string)
    decreases |text|
  {
    var (line, rest) := NextLine(text);
    if text == "" then depth > 0
    else if IsEnd(line) then depth > 0 && Unclosed(depth - 1, rest)
    else if rest == "" then depth > 0
    else if IsBegin(line) then Unclosed(depth + 1, rest)
    else Unclosed(depth, rest)
  }

  /** What the number of open sections says about how reading ends. */
  ghost predicate Counts(depth: nat, text: string, o: Outcome) {
    match o
    case Undefined => true
    case Failed(_, _) => Unclosed(depth, text)
    case Loaded(_, rest) => Unclosed(depth, text) <==> depth > 0 && Unclosed(depth - 1, rest)
  }

  lemma {:induction false} DepthCounts(s: Tree, last: Option<string>, text: string, depth: nat)
    ensures Counts(depth, text, Read(s, last, text, depth > 0))
    decreases |text|
  {
    var (line, rest) := NextLine(text);
    if !IsEnd(line) && rest != "" {
      if IsBegin(line) {
        var t := Add(s, NameOf(line));
        var i := Found(t, NameOf(line), last);
        if i < |t.subs| {
          var r := Read(t.subs[i].value, None, rest, true);
          DepthCounts(t.subs[i].value, None, rest, depth + 1);
          if r.Loaded? {
            DepthCounts(WithSub(t, i, r.tree), Some(t.subs[i].key), r.rest, depth);
          }
        }
      } else {
        DepthCounts(InsertLine(s, line), last, rest, depth);
      }
    }
  }

  /** For all texts: loading fails exactly if a section that was opened is not closed at the end
      of the file, unless the undefined variable was used before. */
  lemma FailsExactly(text: string)
    ensures var o := Read(EMPTY, None, text, false); !o.Undefined? ==> (o.Failed? <==> Unclosed(0, text))
  {
    DepthCounts(EMPTY, None, text, 0);
  }

  // ------------------------------------------------- opening lines without a name

  lemma NamelessFindsNothing(s: Tree)
    requires PlainTree(s)
    ensures Position(s.subs, "") == |s.subs|
  {
    assert PlainSubs(s) && !GoodName("");
  }

  lemma NamedIsFound(s: Tree, name: string, last: Option<string>)
    requires name != ""
    ensures Found(Add(s, name), name, last) < |Add(s, name).subs|
  {
    InsertMembers(s.subs, name, EMPTY);
    var t := Add(s, name);
    var e :| e in t.subs && e.key == name;
    var k :| 0 <= k < |t.subs| && t.subs[k] == e;
    assert HasKey(t.subs, name);
  }

  ghost predicate Holding(s: Tree, last: Option<string>) {
    last.Some? ==> HasKey(s.subs, last.value)
  }

  /** What the flags say about how reading ends. */
  ghost predicate Foretells(outer: seq<bool>, last: Option<string>, text: string, o: Outcome) {
    var strays := Strays(outer + [last.Some?], text);
    match o
    case Undefined => strays
    case Failed(_, _) => !strays
    case Loaded(_, rest) => strays <==> outer != [] && Strays(outer, rest)
  }

  lemma {:induction false} StraysForetells(s: Tree, last: Option<string>, text: string, finish: bool, outer: seq<bool>)
    requires PlainTree(s) && Holding(s, last) && (outer == [] || finish)
    ensures Foretells(outer, last, text, Read(s, last, text, finish))
    decreases |text|, 1
  {
    var (line, rest) := NextLine(text);
    if IsEnd(line) || rest == "" {
      EndForetells(s, last, text, finish, outer);
    } else if IsBegin(line) {
      BeginForetells(s, last, text, finish, outer);
    } else {
      KeyForetells(s, last, text, finish, outer);
    }
  }

  lemma EndForetells(s: Tree, last: Option<string>, text: string, finish: bool, outer: seq<bool>)
    requires outer == [] || finish
    requires var (line, rest) := NextLine(text); IsEnd(line) || rest == ""
    ensures Foretells(outer, last, text, Read(s, last, text, finish))
  {
    assert (outer + [last.Some?])[..|outer|] == outer;
  }

  lemma {:induction false} KeyForetells(s: Tree, last: Option<string>, text: string, finish: bool, outer: seq<bool>)
    requires PlainTree(s) && Holding(s, last) && (outer == [] || finish)
    requires var (line, rest) := NextLine(text); !IsEnd(line) && rest != "" && !IsBegin(line)
    ensures Foretells(outer, last, text, Read(s, last, text, finish))
    decreases |text|, 0
  {
    var (line, rest) := NextLine(text);
    NextLineHasNoBreak(text);
    InsertLineKeepsPlain(s, line);
    StraysForetells(InsertLine(s, line), last, rest, finish, outer);
  }

  lemma {:induction false} BeginForetells(s: Tree, last: Option<string>, text: string, finish: bool, outer: seq<bool>)
    requires PlainTree(s) && Holding(s, last) && (outer == [] || finish)
    requires var (line, rest) := NextLine(text); !IsEnd(line) && rest != "" && IsBegin(line)
    ensures Foretells(outer, last, text, Read(s, last, text, finish))
    decreases |text|, 0
  {
    var (line, rest) := NextLine(text);
    var name := NameOf(line);
    var t := Add(s, name);
    var i := Found(t, name, last);
    assert (outer + [last.Some?])[..|outer|] == outer;
    if name == "" {
      NamelessFindsNothing(s);
    } else {
      NameIsGood(line);
      NamedIsFound(s, name, last);
    }
    AddKeepsPlain(s, name);
    if i < |t.subs| {
      assert PlainSubs(t);
      var r := Read(t.subs[i].value, None, rest, true);
      StraysForetells(t.subs[i].value, None, rest, true, outer + [true]);
      ReadYieldsPlain(t.subs[i].value, None, rest, true);
      if r.Loaded? {
        var u := WithSub(t, i, r.tree);
        WithSubKeepsPlain(t, i, r.tree);
        assert u.subs[i].key == t.subs[i].key;
        StraysForetells(u, Some(t.subs[i].key), r.rest, finish, outer);
      }
    }
  }

  /** Whatever the file says: loading it uses a subsection variable that was never set exactly
      when it reaches a nameless opening line before any other opening line of the same section. */
  lemma UndefinedExactly(text: string)
    ensures Read(EMPTY, None, text, false).Undefined? <==> Strays([false], text)
  {
    StraysForetells(EMPTY, None, text, false, []);
    assert [] + [false] == [false];
  }

  // --------------------------------------------------------------- witnesses

  lemma NamelessLine(indent: nat)
    ensures var line := OpenLine("", indent); IsBegin(line) && NameOf(line) == "" && !IsEnd(line) && !IsComment(line)
  {
    var line := "[]";
    assert OpenLine("", indent) == Spaces(indent) + line;
    SimplifyLine(Spaces(indent), line);
    CollapseWord(line, "");
    assert line + "" == line;
  }

  /** As the first opening line of a section, "[]" is used unset. */
  lemma NamelessFirst(s: Tree, indent: nat, rest: string, finish: bool)
    requires rest != "" && PlainTree(s)
    ensures Read(s, None, Line(OpenLine("", indent)) + rest, finish) == Undefined
  {
    NamelessLine(indent);
    NextLineOf(OpenLine("", indent), rest);
    NamelessFindsNothing(s);
  }

  /** A subsection that was read, in its place. */
  function Into(s: Tree, i: nat, o: Outcome): Outcome
    requires i < |s.subs|
  {
    match o
    case Loaded(sub, after) => Loaded(WithSub(s, i, sub), after)
    case Failed(sub, after) => Failed(WithSub(s, i, sub), after)
    case Undefined => Undefined
  }

  /** After another opening line, "[]" leads into the subsection of that line again. */
  lemma NamelessLater(s: Tree, name: string, indent: nat, rest: string, finish: bool)
    requires rest != "" && PlainTree(s) && HasKey(s.subs, name)
    ensures var i := Position(s.subs, name);
            i < |s.subs| && Inside(s, "", Some(name), rest) == Into(s, i, Read(s.subs[i].value, None, rest, true))
    ensures Read(s, Some(name), Line(OpenLine("", indent)) + rest, finish)
         == ReadOn(Inside(s, "", Some(name), rest), Some(name), finish)
  {
    NamelessLine(indent);
    NextLineOf(OpenLine("", indent), rest);
    NamelessFindsNothing(s);
  }

  /** One key, and the end of the section. */
  lemma OneKeyRead(k: string, v: string)
    requires Shown(Entry(k, v))
    ensures Read(EMPTY, None, Line(KeyLine(k, v, 0)) + Line(CloseLine("", 0)), true)
            == Loaded(Tree([Entry(k, v)], []), "")
  {
    var close := Line(CloseLine("", 0));
    ReadKeyLine(EMPTY, None, k, v, 0, close, true);
    ReadClose(Tree([Entry(k, v)], []), None, "", 0, "", true);
    assert close + "" == close;
  }

  lemma ReadAgain(name: string, k: string, v: string)
    requires GoodName(name) && Shown(Entry(k, v))
    ensures Read(Tree([], [Entry(name, EMPTY)]), Some(name),
                 Line(OpenLine("", 0)) + (Line(KeyLine(k, v, 0)) + Line(CloseLine("", 0))), false)
         == Loaded(Tree([], [Entry(name, Tree([Entry(k, v)], []))]), "")
  {
    var s, t := Tree([], [Entry(name, EMPTY)]), Tree([], [Entry(name, Tree([Entry(k, v)], []))]);
    var key := Line(KeyLine(k, v, 0)) + Line(CloseLine("", 0));
    assert s.subs[0].key == name && Position(s.subs, name) == 0;
    OneKeyRead(k, v);
    NamelessLater(s, name, 0, key, false);
    assert WithSub(s, 0, Tree([Entry(k, v)], [])) == t;
    ReadNothing(t, Some(name));
  }

  /** A file with an empty section, and a nameless one after it that is read into the first. */
  lemma NamelessReadsAgain(name: string, k: string, v: string)
    requires GoodName(name) && Shown(Entry(k, v))
    ensures var again := Line(OpenLine("", 0)) + (Line(KeyLine(k, v, 0)) + Line(CloseLine("", 0)));
            var text := Line(OpenLine(name, 0)) + ("" + (Line(CloseLine(name, 0)) + again));
            Read(EMPTY, None, text, false) == Loaded(Tree([], [Entry(name, Tree([Entry(k, v)], []))]), "")
  {
    var again := Line(OpenLine("", 0)) + (Line(KeyLine(k, v, 0)) + Line(CloseLine("", 0)));
    var close := Line(CloseLine(name, 0)) + again;
    assert "" + close == close;
    assert NoBreak(name);
    ReadClose(EMPTY, None, name, 0, again, true);
    ReadSub(EMPTY, None, name, EMPTY, "", 0, again, false);
    assert [] + [Entry(name, EMPTY)] == [Entry(name, EMPTY)];
    ReadAgain(name, k, v);
  }
}
