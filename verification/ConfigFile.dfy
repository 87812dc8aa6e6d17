/** The file of the configuration database: sections of key-value pairs and of
    further sections, printed and read back recursively. */
module ConfigFile {
  import opened Options
  import opened Texts
  import opened ConfigMaps
  import opened ConfigLines

  /** A section: its key-value pairs and its subsections. */
  datatype Tree = Tree(keys: seq<Entry<string>>, subs: seq<Entry<Tree>>)

  const EMPTY := Tree([], [])
  const INDENT_WIDTH := 2

  // ----------------------------------------------------------------- writing

  function Line(text: string): string {
    text + "\n"
  }

  function SaveKeys(keys: seq<Entry<string>>, indent: nat): string {
    if keys == [] then ""
    else Line(KeyLine(keys[0].key, keys[0].value, indent)) + SaveKeys(keys[1..], indent)
  }

  function SaveKeyPart(keys: seq<Entry<string>>, indent: nat): string {
    if keys == [] then "" else Line(CommentLine("key-value-pairs:", indent)) + SaveKeys(keys, indent)
  }

  function SaveSubsComment(subs: seq<Entry<Tree>>, indent: nat): string {
    if subs == [] then "" else Line(CommentLine("subsections:", indent))
  }

  function Save(s: Tree, level: nat): string
    decreases s, |s.subs| + 1
  {
    SaveSubsComment(s.subs, INDENT_WIDTH * level)
    + SaveSubs(s, 0, level)
    + SaveKeyPart(s.keys, INDENT_WIDTH * level)
  }

  /** The subsections from the i-th on. */
  function SaveSubs(s: Tree, i: nat, level: nat): string
    requires i <= |s.subs|
    decreases s, |s.subs| - i
  {
    if i == |s.subs| then ""
    else SaveSub(s.subs[i].key, Save(s.subs[i].value, level + 1), INDENT_WIDTH * level) + SaveSubs(s, i + 1, level)
  }

  function SaveSub(name: string, body: string, indent: nat): string {
    Line(OpenLine(name, indent)) + body + Line(CloseLine(name, indent))
  }

  function SaveHeader(header: Option<string>): string {
    if header.None? then "" else Line(CommentLine(header.value, 0))
  }

  function CreatedBy(version: string): string {
    "[File created by QConfigDB object " + version + "]"
  }

  function SaveHead(header: Option<string>, version: string): string {
    SaveHeader(header) + Line(CommentLine(CreatedBy(version), 0))
  }

  /** The whole file: two comments, then the tree. */
  function SaveFile(header: Option<string>, version: string, top: Tree): string {
    SaveHead(header, version) + Save(top, 0)
  }

  // ----------------------------------------------------------------- reading

  /** The text after the end of a line, which may be a carriage return and a newline. */
  function AfterEnd(text: string): (r: string)
    requires text != ""
    ensures |r| < |text|
  {
    if text[0] == '\r' && |text| > 1 && text[1] == '\n' then text[2..] else text[1..]
  }

  /** One line and the text after it. */
  function ReadLine(text: string): (r: (string, string))
    ensures text != "" ==> |r.1| < |text|
  {
    if text == "" then ("", "")
    else if text[0] == '\n' || text[0] == '\r' then ("", AfterEnd(text))
    else
      var more := ReadLine(text[1..]);
      ([text[0]] + more.0, more.1)
  }

  /** The next line that is no comment, empty at the end of the text. */
  function NextLine(text: string): (r: (string, string))
    ensures text != "" ==> |r.1| < |text|
    ensures text == "" ==> r == ("", "")
    decreases |text|
  {
    if text == "" then ("", "")
    else
      var line := ReadLine(text);
      if IsComment(line.0) then NextLine(line.1) else line
  }

  /** KeyValueMap::insertLine, as loading calls it. */
  function InsertLine(s: Tree, line: string): Tree {
    var d := Declared(line);
    if d.None? then s else s.(keys := Insert(s.keys, d.value.0, d.value.1))
  }

  /** Tree::add: an empty name adds nothing, a known one changes nothing. */
  function Add(s: Tree, name: string): Tree {
    if name == "" then s else s.(subs := Insert(s.subs, name, EMPTY))
  }

  /** How reading a section ends; `Undefined` is the use of a subsection variable that
      was never set. */
  datatype Outcome =
    | Loaded(tree: Tree, rest: string)
    | Failed(tree: Tree, rest: string)
    | Undefined

  /** The subsection that an opening line leads to: the one of its name, or else the one
      that the variable still holds from before; the length of the map if it holds none. */
  function Found(t: Tree, name: string, last: Option<string>): (i: nat)
    ensures i <= |t.subs|
  {
    if Position(t.subs, name) < |t.subs| then Position(t.subs, name)
    else if last.Some? then Position(t.subs, last.value)
    else |t.subs|
  }

  /** `last` is the name of the subsection that the variable holds. */
  function Read(s: Tree, last: Option<string>, text: string, finish: bool): (r: Outcome)
    ensures !r.Undefined? ==> |r.rest| <= |text|
    decreases |text|
  {
    var (line, rest) := NextLine(text);
    if IsEnd(line) then Loaded(s, rest)
    else if rest == "" then
      var t := InsertLine(s, line);
      if finish then Failed(t, rest) else Loaded(t, rest)
    else if IsBegin(line) then
      var t := Add(s, NameOf(line));
      var i := Found(t, NameOf(line), last);
      if i == |t.subs| then Undefined
      else
        match Read(t.subs[i].value, None, rest, true)
        case Undefined => Undefined
        case Failed(sub, after) => Failed(WithSub(t, i, sub), after)
        case Loaded(sub, after) => Read(WithSub(t, i, sub), Some(t.subs[i].key), after, finish)
    else Read(InsertLine(s, line), last, rest, finish)
  }

  /** What an opening line leads to: the reading of one subsection. */
  function Inside(s: Tree, name: string, last: Option<string>, text: string): (o: Outcome)
    ensures !o.Undefined? ==> |o.rest| <= |text|
  {
    var t := Add(s, name);
    var i := Found(t, name, last);
    if i == |t.subs| then Undefined
    else
      match Read(t.subs[i].value, None, text, true)
      case Undefined => Undefined
      case Failed(sub, after) => Failed(WithSub(t, i, sub), after)
      case Loaded(sub, after) => Loaded(WithSub(t, i, sub), after)
  }

  /** The name of the subsection that the variable holds afterwards. */
  function Current(s: Tree, name: string, last: Option<string>): Option<string> {
    var t := Add(s, name);
    var i := Found(t, name, last);
    if i == |t.subs| then last else Some(t.subs[i].key)
  }

  function ReadOn(o: Outcome, last: Option<string>, finish: bool): Outcome {
    match o
    case Loaded(t, after) => Read(t, last, after, finish)
    case Failed(_, _) => o
    case Undefined => o
  }

  lemma ReadGoesInside(s: Tree, last: Option<string>, text: string, finish: bool)
    ensures var (line, rest) := NextLine(text);
            !IsEnd(line) && rest != "" && IsBegin(line) ==>
              Read(s, last, text, finish)
              == ReadOn(Inside(s, NameOf(line), last, rest), Current(s, NameOf(line), last), finish)
  {
  }

  function WithSub(s: Tree, i: nat, sub: Tree): Tree
    requires i < |s.subs|
  {
    s.(subs := s.subs[i := Entry(s.subs[i].key, sub)])
  }

  // ------------------------------------------------------------------- trees

  /** All maps have their keys in order, each of them once. */
  ghost predicate Ordered(s: Tree)
    decreases s, 1
  {
    Sorted(s.keys) && Sorted(s.subs) && OrderedSubs(s)
  }

  ghost predicate OrderedSubs(s: Tree)
    decreases s, 0
  {
    forall i :: 0 <= i < |s.subs| ==> Ordered(s.subs[i].value)
  }

  /** All names are good, and all keys are, but that they may start with "#"; values are on
      one line. */
  ghost predicate PlainTree(s: Tree)
    decreases s, 1
  {
    PlainEntries(s.keys) && PlainSubs(s)
  }

  ghost predicate PlainEntries(keys: seq<Entry<string>>) {
    forall e <- keys :: PlainKey(e.key) && NoBreak(e.value)
  }

  ghost predicate PlainSubs(s: Tree)
    decreases s, 0
  {
    forall i :: 0 <= i < |s.subs| ==> GoodName(s.subs[i].key) && PlainTree(s.subs[i].value)
  }

  /** No key and its value look like a section line. */
  ghost predicate FlatTree(s: Tree)
    decreases s, 1
  {
    FlatEntries(s.keys) && FlatSubs(s)
  }

  ghost predicate FlatEntries(keys: seq<Entry<string>>) {
    forall e <- keys :: !SectionLike(e.key, e.value)
  }

  ghost predicate FlatSubs(s: Tree)
    decreases s, 0
  {
    forall i :: 0 <= i < |s.subs| ==> FlatTree(s.subs[i].value)
  }

  /** A key and its value that one line shows. */
  predicate Shown(e: Entry<string>) {
    GoodKey(e.key) && NoBreak(e.value) && !SectionLike(e.key, e.value)
  }

  /** All names are good and all keys and values shown by their lines. */
  ghost predicate GoodTree(s: Tree)
    decreases s, 1
  {
    (forall e <- s.keys :: Shown(e)) && GoodSubs(s)
  }

  ghost predicate GoodSubs(s: Tree)
    decreases s, 0
  {
    forall i :: 0 <= i < |s.subs| ==> GoodName(s.subs[i].key) && GoodTree(s.subs[i].value)
  }

  /** A tree that can be printed and read line by line. */
  ghost predicate Printable(s: Tree) {
    Ordered(s) && PlainTree(s) && FlatTree(s)
  }

  lemma SubPrintable(s: Tree, i: nat)
    requires Printable(s) && i < |s.subs|
    ensures Printable(s.subs[i].value) && GoodName(s.subs[i].key)
  {
    assert OrderedSubs(s) && PlainSubs(s) && FlatSubs(s);
  }

  /** The keys that are not taken for comments. */
  function Unhashed(keys: seq<Entry<string>>): seq<Entry<string>> {
    if keys == [] then []
    else (if keys[0].key != "" && keys[0].key[0] == '#' then [] else [keys[0]]) + Unhashed(keys[1..])
  }

  /** The tree without the keys that start with "#". */
  function Visible(s: Tree): Tree
    decreases s, |s.subs| + 1
  {
    Tree(Unhashed(s.keys), VisibleSubs(s, |s.subs|))
  }

  function VisibleSubs(s: Tree, n: nat): (r: seq<Entry<Tree>>)
    requires n <= |s.subs|
    ensures |r| == n
    ensures forall i :: 0 <= i < n ==> r[i] == Entry(s.subs[i].key, Visible(s.subs[i].value))
    decreases s, n
  {
    if n == 0 then []
    else VisibleSubs(s, n - 1) + [Entry(s.subs[n - 1].key, Visible(s.subs[n - 1].value))]
  }

  lemma {:induction false} UnhashedIs(keys: seq<Entry<string>>)
    requires PlainEntries(keys) && FlatEntries(keys)
    ensures Unhashed(keys) == keys <==> forall e <- keys :: Shown(e)
    ensures |Unhashed(keys)| <= |keys|
    decreases |keys|
  {
    if keys != [] {
      HeadAndTail(keys);
      UnhashedIs(keys[1..]);
      assert keys == [keys[0]] + keys[1..];
      if Shown(keys[0]) {
        assert Unhashed(keys)[1..] == Unhashed(keys[1..]);
      }
    }
  }

  lemma HeadAndTail<T>(s: seq<T>)
    requires s != []
    ensures s[0] in s && (forall x <- s[1..] :: x in s) && forall x <- s :: x == s[0] || x in s[1..]
  {
  }

  /** Nothing is invisible exactly in trees whose keys are good. */
  lemma {:induction false} VisibleIs(s: Tree)
    requires PlainTree(s) && FlatTree(s)
    ensures Visible(s) == s <==> GoodTree(s)
    decreases s
  {
    UnhashedIs(s.keys);
    forall i | 0 <= i < |s.subs| ensures Visible(s.subs[i].value) == s.subs[i].value <==> GoodTree(s.subs[i].value) {
      VisibleIs(s.subs[i].value);
    }
    assert PlainSubs(s) && FlatSubs(s);
    var subs := VisibleSubs(s, |s.subs|);
    if subs == s.subs {
      forall i | 0 <= i < |s.subs| ensures GoodTree(s.subs[i].value) {
        assert subs[i] == s.subs[i];
      }
    }
    if GoodSubs(s) {
      forall i | 0 <= i < |s.subs| ensures subs[i] == s.subs[i] {
      }
    }
    assert GoodSubs(s) <==> subs == s.subs;
  }

  // -------------------------------------------------------------- round trip

  lemma {:induction false} ReadLineOf(line: string, rest: string)
    requires NoBreak(line)
    ensures ReadLine(Line(line) + rest) == (line, rest)
    decreases |line|
  {
    var text := Line(line) + rest;
    if line == "" {
      assert text[1..] == rest;
    } else {
      assert text[0] == line[0] && text[1..] == Line(line[1..]) + rest;
      ReadLineOf(line[1..], rest);
      assert line == [line[0]] + line[1..];
    }
  }

  lemma SkipLine(s: Tree, last: Option<string>, line: string, rest: string, finish: bool)
    requires NoBreak(line) && IsComment(line)
    ensures Read(s, last, Line(line) + rest, finish) == Read(s, last, rest, finish)
  {
    ReadLineOf(line, rest);
    assert NextLine(Line(line) + rest) == NextLine(rest);
  }

  lemma SkipComment(s: Tree, last: Option<string>, text: string, indent: nat, rest: string, finish: bool)
    requires NoBreak(text)
    ensures Read(s, last, Line(CommentLine(text, indent)) + rest, finish) == Read(s, last, rest, finish)
  {
    CommentReads(text, indent);
    SkipLine(s, last, CommentLine(text, indent), rest, finish);
  }

  lemma NextLineOf(line: string, rest: string)
    requires NoBreak(line) && !IsComment(line)
    ensures NextLine(Line(line) + rest) == (line, rest)
  {
    ReadLineOf(line, rest);
  }

  lemma ReadNothing(s: Tree, last: Option<string>)
    ensures Read(s, last, "", false) == Loaded(s, "")
  {
  }

  lemma ReadKeyLine(s: Tree, last: Option<string>, k: string, v: string, indent: nat, rest: string, finish: bool)
    requires Shown(Entry(k, v)) && (rest != "" || !finish)
    ensures Read(s, last, Line(KeyLine(k, v, indent)) + rest, finish)
         == Read(s.(keys := Insert(s.keys, k, v)), last, rest, finish)
  {
    var line := KeyLine(k, v, indent);
    GoodKeyReads(k, v, indent);
    NextLineOf(line, rest);
    if rest == "" {
      ReadNothing(InsertLine(s, line), last);
    }
  }

  /** A key that starts with "#" is read as a comment. */
  lemma ReadHashLine(s: Tree, last: Option<string>, k: string, v: string, indent: nat, rest: string, finish: bool)
    requires PlainKey(k) && k[0] == '#' && NoBreak(v)
    ensures Read(s, last, Line(KeyLine(k, v, indent)) + rest, finish) == Read(s, last, rest, finish)
  {
    HashKeyIsComment(k, v, indent);
    assert forall c <- k :: IsGraph(c);
    SkipLine(s, last, KeyLine(k, v, indent), rest, finish);
  }

  lemma UnhashedOne(e: Entry<string>)
    ensures Unhashed([e]) == if e.key != "" && e.key[0] == '#' then [] else [e]
  {
    assert [e][1..] == [] && [e] + [] == [e];
  }

  /** The first of the keys goes to the end of the map, or is skipped. */
  lemma ReadFirstKey(s: Tree, last: Option<string>, keys: seq<Entry<string>>, indent: nat, rest: string, finish: bool)
    requires keys != [] && PlainKey(keys[0].key) && NoBreak(keys[0].value) && (rest != "" || !finish)
    requires !SectionLike(keys[0].key, keys[0].value)
    requires forall e :: e in s.keys ==> Less(e.key, keys[0].key)
    ensures Read(s, last, SaveKeys(keys, indent) + rest, finish)
         == Read(s.(keys := s.keys + Unhashed([keys[0]])), last, SaveKeys(keys[1..], indent) + rest, finish)
  {
    var e, tail := keys[0], SaveKeys(keys[1..], indent) + rest;
    Regroup3(Line(KeyLine(e.key, e.value, indent)), SaveKeys(keys[1..], indent), rest);
    UnhashedOne(e);
    if e.key[0] == '#' {
      ReadHashLine(s, last, e.key, e.value, indent, tail, finish);
      assert s.keys + [] == s.keys;
    } else {
      ReadKeyLine(s, last, e.key, e.value, indent, tail, finish);
      InsertAppends(s.keys, e.key, e.value);
    }
  }

  lemma UnhashedSplit(keys: seq<Entry<string>>)
    requires keys != []
    ensures Unhashed(keys) == Unhashed([keys[0]]) + Unhashed(keys[1..])
  {
    assert [keys[0]][1..] == [];
  }

  lemma UnhashedSorted(m: seq<Entry<string>>, more: seq<Entry<string>>)
    requires Sorted(m + more) && more != []
    ensures Sorted(m + Unhashed([more[0]]) + more[1..])
  {
    UnhashedOne(more[0]);
    if Unhashed([more[0]]) == [] {
      DropSorted(m, more);
      assert m + [] == m;
    } else {
      MoveHead(m, more);
    }
  }

  lemma {:induction false} ReadKeys(s: Tree, last: Option<string>, keys: seq<Entry<string>>, indent: nat, rest: string,
                                    finish: bool)
    requires Sorted(s.keys + keys) && PlainEntries(keys) && FlatEntries(keys) && (rest != "" || !finish)
    ensures Read(s, last, SaveKeys(keys, indent) + rest, finish)
         == Read(s.(keys := s.keys + Unhashed(keys)), last, rest, finish)
    decreases |keys|
  {
    if keys == [] {
      assert SaveKeys(keys, indent) + rest == rest;
      assert s.keys + Unhashed(keys) == s.keys;
    } else {
      assert keys[0] in keys && PlainEntries(keys[1..]) && FlatEntries(keys[1..]);
      LaterKeys(s.keys, keys);
      ReadFirstKey(s, last, keys, indent, rest, finish);
      UnhashedSorted(s.keys, keys);
      UnhashedSplit(keys);
      var t := s.(keys := s.keys + Unhashed([keys[0]]));
      ReadKeys(t, last, keys[1..], indent, rest, finish);
      Regroup3(s.keys, Unhashed([keys[0]]), Unhashed(keys[1..]));
    }
  }

  lemma Regroup3<T>(a: seq<T>, b: seq<T>, c: seq<T>)
    ensures a + b + c == a + (b + c)
  {
  }

  lemma MoveHead<T>(m: seq<T>, more: seq<T>)
    requires more != []
    ensures m + more == (m + [more[0]]) + more[1..]
  {
  }

  lemma DropSorted<T>(m: seq<Entry<T>>, more: seq<Entry<T>>)
    requires Sorted(m + more) && more != []
    ensures Sorted(m + more[1..])
  {
    var all, left := m + more, m + more[1..];
    forall i, j | 0 <= i < j < |left| ensures Less(left[i].key, left[j].key) {
      var x, y := if i < |m| then i else i + 1, if j < |m| then j else j + 1;
      assert left[i] == all[x] && left[j] == all[y];
    }
  }

  lemma LaterKeys<T>(m: seq<Entry<T>>, more: seq<Entry<T>>)
    requires Sorted(m + more) && more != []
    ensures forall e :: e in m ==> Less(e.key, more[0].key)
  {
    forall e | e in m ensures Less(e.key, more[0].key) {
      var i :| 0 <= i < |m| && m[i] == e;
      assert (m + more)[i] == e && (m + more)[|m|] == more[0];
    }
  }

  /** A subsection is read into its own place. */
  lemma ReadSub(s: Tree, last: Option<string>, name: string, sub: Tree, body: string, indent: nat, rest: string,
                finish: bool)
    requires GoodName(name) && forall e :: e in s.subs ==> Less(e.key, name)
    requires Read(EMPTY, None, body + (Line(CloseLine(name, indent)) + rest), true) == Loaded(sub, rest)
    ensures Read(s, last, Line(OpenLine(name, indent)) + (body + (Line(CloseLine(name, indent)) + rest)), finish)
         == Read(s.(subs := s.subs + [Entry(name, sub)]), Some(name), rest, finish)
  {
    var line := OpenLine(name, indent);
    var inside := body + (Line(CloseLine(name, indent)) + rest);
    GoodNameReads(name, indent);
    assert forall c <- name :: !IsSpace(c);
    NextLineOf(line, inside);
    InsertAppends(s.subs, name, EMPTY);
    var t := Add(s, name);
    assert t.subs == s.subs + [Entry(name, EMPTY)];
    NewIsLast(s.subs, name, EMPTY);
    assert Found(t, name, last) == |s.subs|;
    assert WithSub(t, |s.subs|, sub).subs == s.subs + [Entry(name, sub)];
  }

  lemma {:induction false} NewIsLast<T>(m: seq<Entry<T>>, name: string, x: T)
    requires forall e :: e in m ==> Less(e.key, name)
    ensures Position(m + [Entry(name, x)], name) == |m|
    decreases |m|
  {
    var all := m + [Entry(name, x)];
    if m != [] {
      assert m[0] in m;
      LessTotal(m[0].key, name);
      assert all[1..] == m[1..] + [Entry(name, x)];
      NewIsLast(m[1..], name, x);
    }
  }

  lemma ReadClose(s: Tree, last: Option<string>, name: string, indent: nat, rest: string, finish: bool)
    requires NoBreak(name)
    ensures Read(s, last, Line(CloseLine(name, indent)) + rest, finish) == Loaded(s, rest)
  {
    CloseReads(name, indent);
    NextLineOf(CloseLine(name, indent), rest);
  }

  /** The subsection that was read last, of the first n. */
  function LastName(subs: seq<Entry<Tree>>, n: nat): Option<string>
    requires n <= |subs|
  {
    if n == 0 then None else Some(subs[n - 1].key)
  }

  /** Reading what was saved puts what is visible of the tree into an empty section and
      goes on with the text that follows. */
  lemma {:induction false} ReadSaved(s: Tree, level: nat, rest: string, finish: bool)
    requires Printable(s) && (rest != "" || !finish)
    ensures Read(EMPTY, None, Save(s, level) + rest, finish)
            == Read(Visible(s), LastName(s.subs, |s.subs|), rest, finish)
    decreases s, |s.subs| + 1
  {
    var indent := INDENT_WIDTH * level;
    var tail := SaveKeyPart(s.keys, indent) + rest;
    SkipSubsComment(s.subs, indent, SaveSubs(s, 0, level) + tail, finish);
    Regroup(SaveSubsComment(s.subs, indent), SaveSubs(s, 0, level), SaveKeyPart(s.keys, indent), rest);
    ReadSubs(s, level, tail, finish);
    ReadKeyPart(s.keys, VisibleSubs(s, |s.subs|), LastName(s.subs, |s.subs|), indent, rest, finish);
  }

  lemma SkipSubsComment(subs: seq<Entry<Tree>>, indent: nat, rest: string, finish: bool)
    ensures Read(EMPTY, None, SaveSubsComment(subs, indent) + rest, finish) == Read(EMPTY, None, rest, finish)
  {
    if subs == [] {
      assert "" + rest == rest;
    } else {
      SkipComment(EMPTY, None, "subsections:", indent, rest, finish);
    }
  }

  lemma ReadKeyPart(keys: seq<Entry<string>>, subs: seq<Entry<Tree>>, last: Option<string>, indent: nat,
                                       rest: string, finish: bool)
    requires Sorted(keys) && PlainEntries(keys) && FlatEntries(keys) && (rest != "" || !finish)
    ensures Read(Tree([], subs), last, SaveKeyPart(keys, indent) + rest, finish)
         == Read(Tree(Unhashed(keys), subs), last, rest, finish)
  {
    if keys == [] {
      assert "" + rest == rest;
    } else {
      var comment := Line(CommentLine("key-value-pairs:", indent));
      assert comment + SaveKeys(keys, indent) + rest == comment + (SaveKeys(keys, indent) + rest);
      SkipComment(Tree([], subs), last, "key-value-pairs:", indent, SaveKeys(keys, indent) + rest, finish);
      assert [] + keys == keys && [] + Unhashed(keys) == Unhashed(keys);
      ReadKeys(Tree([], subs), last, keys, indent, rest, finish);
    }
  }

  lemma Regroup(a: string, b: string, c: string, d: string)
    ensures a + b + c + d == a + (b + (c + d))
  {
  }

  /** The i-th subsection, printed as `body`, joins those before it. */
  lemma ReadNextSub(s: Tree, i: nat, body: string, indent: nat, tail: string, finish: bool)
    requires i < |s.subs| && Sorted(s.subs) && GoodName(s.subs[i].key)
    requires var close := Line(CloseLine(s.subs[i].key, indent)) + tail;
             Read(EMPTY, None, body + close, true) == Loaded(Visible(s.subs[i].value), tail)
    ensures Read(Tree([], VisibleSubs(s, i)), LastName(s.subs, i), SaveSub(s.subs[i].key, body, indent) + tail, finish)
         == Read(Tree([], VisibleSubs(s, i + 1)), LastName(s.subs, i + 1), tail, finish)
  {
    var e := s.subs[i];
    EarlierSubs(s, i);
    ReadSub(Tree([], VisibleSubs(s, i)), LastName(s.subs, i), e.key, Visible(e.value), body, indent, tail, finish);
    Regroup(Line(OpenLine(e.key, indent)), body, Line(CloseLine(e.key, indent)), tail);
  }

  lemma EarlierSubs(s: Tree, i: nat)
    requires i < |s.subs| && Sorted(s.subs)
    ensures forall e :: e in VisibleSubs(s, i) ==> Less(e.key, s.subs[i].key)
  {
  }

  /** What comes of reading the subsections from the i-th on into a section with those before. */
  function ReadFrom(s: Tree, i: nat, level: nat, rest: string, finish: bool): Outcome
    requires i <= |s.subs|
  {
    Read(Tree([], VisibleSubs(s, i)), LastName(s.subs, i), SaveSubs(s, i, level) + rest, finish)
  }

  lemma {:induction false} ReadSubs(s: Tree, level: nat, rest: string, finish: bool)
    requires Printable(s)
    ensures Read(EMPTY, None, SaveSubs(s, 0, level) + rest, finish)
         == Read(Tree([], VisibleSubs(s, |s.subs|)), LastName(s.subs, |s.subs|), rest, finish)
    decreases s, |s.subs| + 1, 1
  {
    ReadThrough(s, |s.subs|, level, rest, finish);
    ReadToEnd(s, level, rest, finish);
  }

  lemma {:induction false} ReadThrough(s: Tree, n: nat, level: nat, rest: string, finish: bool)
    requires Printable(s) && n <= |s.subs|
    ensures ReadFrom(s, 0, level, rest, finish) == ReadFrom(s, n, level, rest, finish)
    decreases s, n, 2
  {
    if n > 0 {
      ReadThrough(s, n - 1, level, rest, finish);
      ReadOneSub(s, n - 1, level, rest, finish);
    }
  }

  lemma ReadToEnd(s: Tree, level: nat, rest: string, finish: bool)
    ensures ReadFrom(s, |s.subs|, level, rest, finish)
         == Read(Tree([], VisibleSubs(s, |s.subs|)), LastName(s.subs, |s.subs|), rest, finish)
  {
    assert SaveSubs(s, |s.subs|, level) + rest == rest;
  }

  lemma {:induction false} ReadOneSub(s: Tree, i: nat, level: nat, rest: string, finish: bool)
    requires i < |s.subs| && Printable(s)
    ensures ReadFrom(s, i, level, rest, finish) == ReadFrom(s, i + 1, level, rest, finish)
    decreases s, 0, 1
  {
    SubPrintable(s, i);
    ReadBody(s, i, level, SaveSubs(s, i + 1, level) + rest);
    JoinNextSub(s, i, level, rest, finish);
  }

  lemma JoinNextSub(s: Tree, i: nat, level: nat, rest: string, finish: bool)
    requires i < |s.subs| && Sorted(s.subs) && GoodName(s.subs[i].key)
    requires var tail := SaveSubs(s, i + 1, level) + rest;
             Read(EMPTY, None, Save(s.subs[i].value, level + 1)
                  + (Line(CloseLine(s.subs[i].key, INDENT_WIDTH * level)) + tail), true)
             == Loaded(Visible(s.subs[i].value), tail)
    ensures Read(Tree([], VisibleSubs(s, i)), LastName(s.subs, i), SaveSubs(s, i, level) + rest, finish)
         == Read(Tree([], VisibleSubs(s, i + 1)), LastName(s.subs, i + 1), SaveSubs(s, i + 1, level) + rest, finish)
  {
    ReadNextSub(s, i, Save(s.subs[i].value, level + 1), INDENT_WIDTH * level, SaveSubs(s, i + 1, level) + rest, finish);
    SubsSplit(s, i, level, rest);
  }

  lemma SubsSplit(s: Tree, i: nat, level: nat, rest: string)
    requires i < |s.subs|
    ensures SaveSubs(s, i, level) + rest
         == SaveSub(s.subs[i].key, Save(s.subs[i].value, level + 1), INDENT_WIDTH * level)
            + (SaveSubs(s, i + 1, level) + rest)
  {
    Regroup3(SaveSub(s.subs[i].key, Save(s.subs[i].value, level + 1), INDENT_WIDTH * level), SaveSubs(s, i + 1, level),
             rest);
  }

  lemma {:induction false} ReadBody(s: Tree, i: nat, level: nat, tail: string)
    requires i < |s.subs| && Printable(s.subs[i].value) && GoodName(s.subs[i].key)
    ensures var close := Line(CloseLine(s.subs[i].key, INDENT_WIDTH * level)) + tail;
            Read(EMPTY, None, Save(s.subs[i].value, level + 1) + close, true) == Loaded(Visible(s.subs[i].value), tail)
    decreases s, 0, 0
  {
    var e := s.subs[i];
    var close := Line(CloseLine(e.key, INDENT_WIDTH * level)) + tail;
    assert forall c <- e.key :: !IsSpace(c);
    ReadSaved(e.value, level + 1, close, true);
    ReadClose(Visible(e.value), LastName(e.value.subs, |e.value.subs|), e.key, INDENT_WIDTH * level, tail, true);
  }

  lemma {:induction false} GoodIsPlain(s: Tree)
    requires GoodTree(s)
    ensures PlainTree(s) && FlatTree(s)
    decreases s
  {
    forall i | 0 <= i < |s.subs| ensures PlainTree(s.subs[i].value) && FlatTree(s.subs[i].value) {
      GoodIsPlain(s.subs[i].value);
    }
  }

  // ------------------------------------------------ what reading can yield

  lemma AddKeepsPlain(s: Tree, name: string)
    requires PlainTree(s) && (name != "" ==> GoodName(name))
    ensures PlainTree(Add(s, name))
  {
    if name != "" {
      InsertMembers(s.subs, name, EMPTY);
      var t := Add(s, name);
      forall i | 0 <= i < |t.subs| ensures GoodName(t.subs[i].key) && PlainTree(t.subs[i].value) {
        assert t.subs[i] in t.subs;
        if t.subs[i] in s.subs {
          var j :| 0 <= j < |s.subs| && s.subs[j] == t.subs[i];
        }
      }
    }
  }

  lemma WithSubKeepsPlain(s: Tree, i: nat, sub: Tree)
    requires PlainTree(s) && i < |s.subs| && PlainTree(sub)
    ensures PlainTree(WithSub(s, i, sub))
  {
  }

  lemma {:induction false} LineHasNoBreak(text: string)
    ensures NoBreak(ReadLine(text).0)
    decreases |text|
  {
    if text != "" && text[0] != '\n' && text[0] != '\r' {
      LineHasNoBreak(text[1..]);
    }
  }

  lemma {:induction false} NextLineHasNoBreak(text: string)
    ensures NoBreak(NextLine(text).0)
    decreases |text|
  {
    if text != "" {
      LineHasNoBreak(text);
      if IsComment(ReadLine(text).0) {
        NextLineHasNoBreak(ReadLine(text).1);
      }
    }
  }

  lemma InsertLineKeepsPlain(s: Tree, line: string)
    requires PlainTree(s) && NoBreak(line)
    ensures PlainTree(InsertLine(s, line))
  {
    var d := Declared(line);
    if d.Some? {
      DeclaredIsPlain(line);
      InsertMembers(s.keys, d.value.0, d.value.1);
    }
  }

  /** Whatever the file says, names and keys that are read obey the rules, but for keys
      that start with "#", and values are on one line. */
  lemma {:induction false} ReadYieldsPlain(s: Tree, last: Option<string>, text: string, finish: bool)
    requires PlainTree(s)
    ensures var r := Read(s, last, text, finish); !r.Undefined? ==> PlainTree(r.tree)
    decreases |text|
  {
    var (line, rest) := NextLine(text);
    NextLineHasNoBreak(text);
    InsertLineKeepsPlain(s, line);
    if !IsEnd(line) && rest != "" {
      if IsBegin(line) {
        var t := Add(s, NameOf(line));
        if NameOf(line) != "" {
          NameIsGood(line);
        }
        AddKeepsPlain(s, NameOf(line));
        var i := Found(t, NameOf(line), last);
        if i < |t.subs| {
          ReadYieldsPlain(t.subs[i].value, None, rest, true);
          var r := Read(t.subs[i].value, None, rest, true);
          if !r.Undefined? {
            WithSubKeepsPlain(t, i, r.tree);
          }
          if r.Loaded? {
            ReadYieldsPlain(WithSub(t, i, r.tree), Some(t.subs[i].key), r.rest, finish);
          }
        }
      } else {
        ReadYieldsPlain(InsertLine(s, line), last, rest, finish);
      }
    }
  }

  lemma AddKeepsOrder(s: Tree, name: string)
    requires Ordered(s)
    ensures Ordered(Add(s, name))
  {
    if name != "" {
      InsertKeepsOrder(s.subs, name, EMPTY);
      InsertMembers(s.subs, name, EMPTY);
      var t := Add(s, name);
      forall i | 0 <= i < |t.subs| ensures Ordered(t.subs[i].value) {
        assert t.subs[i] in t.subs;
        if t.subs[i] in s.subs {
          var j :| 0 <= j < |s.subs| && s.subs[j] == t.subs[i];
        }
      }
    }
  }

  lemma WithSubKeepsOrder(s: Tree, i: nat, sub: Tree)
    requires Ordered(s) && i < |s.subs| && Ordered(sub)
    ensures Ordered(WithSub(s, i, sub))
  {
    var t := WithSub(s, i, sub);
    assert forall k :: 0 <= k < |s.subs| ==> t.subs[k].key == s.subs[k].key;
  }

  lemma InsertLineKeepsOrder(s: Tree, line: string)
    requires Ordered(s)
    ensures Ordered(InsertLine(s, line))
  {
    var d := Declared(line);
    if d.Some? {
      InsertKeepsOrder(s.keys, d.value.0, d.value.1);
    }
  }

  /** Whatever the file says, every map that is read has its keys in order, each
      of them once. */
  lemma {:induction false} ReadKeepsOrder(s: Tree, last: Option<string>, text: string, finish: bool)
    requires Ordered(s)
    ensures var r := Read(s, last, text, finish); !r.Undefined? ==> Ordered(r.tree)
    decreases |text|
  {
    var (line, rest) := NextLine(text);
    InsertLineKeepsOrder(s, line);
    if !IsEnd(line) && rest != "" {
      if IsBegin(line) {
        var t := Add(s, NameOf(line));
        AddKeepsOrder(s, NameOf(line));
        var i := Found(t, NameOf(line), last);
        if i < |t.subs| {
          ReadKeepsOrder(t.subs[i].value, None, rest, true);
          var r := Read(t.subs[i].value, None, rest, true);
          if !r.Undefined? {
            WithSubKeepsOrder(t, i, r.tree);
          }
          if r.Loaded? {
            ReadKeepsOrder(WithSub(t, i, r.tree), Some(t.subs[i].key), r.rest, finish);
          }
        }
      } else {
        ReadKeepsOrder(InsertLine(s, line), last, rest, finish);
      }
    }
  }
}
