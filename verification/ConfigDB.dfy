/** The code that writes and reads the file of the configuration database. */
module ConfigDB {
  import opened ConfigCodec
  import opened ConfigFile
  import opened ConfigLines
  import opened ConfigLoad
  import opened ConfigMaps
  import opened ConfigNameless
  import opened Options
  import opened Texts

  /** What is written to a stream, or what is left to read from it. */
  class TextStream {
    var text: string

    constructor (text: string)
      ensures this.text == text
    {
      this.text := text;
    }

    method Write(s: string)
      modifies this
      ensures text == old(text) + s
    {
      text := text + s;
    }

    predicate Eof()
      reads this
    {
      text == ""
    }

    method ReadLine() returns (line: string)
      modifies this
      ensures (line, text) == ConfigFile.ReadLine(old(text))
    {
      line := "";
      ghost var all := ConfigFile.ReadLine(text);
      assert "" + all.0 == all.0;
      while text != "" && text[0] != '\n' && text[0] != '\r'
        invariant all == (line + ConfigFile.ReadLine(text).0, ConfigFile.ReadLine(text).1)
        decreases |text|
      {
        ghost var more := ConfigFile.ReadLine(text[1..]).0;
        assert line + ([text[0]] + more) == (line + [text[0]]) + more;
        line := line + [text[0]];
        text := text[1..];
      }
      assert line + "" == line;
      if text != "" {
        text := AfterEnd(text);
      }
    }
  }

  method ReadLineFromStream(stream: TextStream) returns (line: string)
    modifies stream
    ensures (line, stream.text) == NextLine(old(stream.text))
  {
    line := "";
    while !stream.Eof()
      invariant NextLine(old(stream.text)) == NextLine(stream.text)
      invariant line == ""
      decreases |stream.text|
    {
      line := stream.ReadLine();
      if line != "" {
        if IsComment(line) {
          line := "";
          continue;
        }
      }
      return;
    }
  }

  // ------------------------------------------------------- reading one line

  lemma GraphsFrom(name: string, index: nat)
    requires index < |name|
    ensures Graphs(name[index..]) == (if IsGraph(name[index]) then [name[index]] else []) + Graphs(name[index + 1..])
  {
    assert name[index..][1..] == name[index + 1..];
  }

  /** One character at the end of what is still to be looked at. */
  lemma LastOfPrefix(name: string, index: nat, rest: string)
    requires index < |name|
    ensures name[..index + 1] + rest == name[..index] + ([name[index]] + rest)
    ensures (name[..index + 1] + rest)[..index] + (name[..index + 1] + rest)[index + 1..] == name[..index] + ([] + rest)
    ensures (name[..index + 1] + rest)[index] == name[index]
  {
  }

  /** Takes every character that is neither alphanumeric nor punctuation out of a key. */
  method CleanKey(name: string) returns (key: string)
    ensures key == Graphs(name)
  {
    key := name;
    var index := |key| - 1;
    assert name[index + 1..] == "";
    while index > -1
      invariant -1 <= index < |name|
      invariant key == name[..index + 1] + Graphs(name[index + 1..])
    {
      LastOfPrefix(name, index, Graphs(name[index + 1..]));
      GraphsFrom(name, index);
      if !IsGraph(key[index]) {
        key := key[..index] + key[index + 1..];
      }
      index := index - 1;
    }
    assert name[0..] == name;
  }

  method ParseLine(line: string) returns (d: Option<(string, string)>)
    ensures d == Declared(line)
  {
    var index := 0;
    while index < |line| && IsSpace(line[index])
      invariant index <= |line|
      invariant Blanks(line[..index])
    {
      index := index + 1;
    }
    if index == |line| {
      assert line[..index] == line;
      assert Blanks(line) && !IsSpace('=');
      return None;
    }
    index := IndexOf(line, '=');
    if index == |line| {
      return None;
    }
    var key := CleanKey(line[..index]);
    if key == "" {
      return None;
    }
    return Some((key, line[index + 1..]));
  }

  /** The word between the brackets, found with two cursors. */
  method FirstWord(t: string) returns (word: string)
    requires Bracketed(t)
    ensures word == Word(t)
  {
    var first := WordStart(t);
    var second := WordEnd(t, first);
    word := t[first..second];
  }

  method WordStart(t: string) returns (first: nat)
    requires Bracketed(t)
    ensures 1 <= first < |t| && SkipSpaces(t[1..]) == t[first..]
  {
    first := 1;
    while t[first] == ' '
      invariant 1 <= first < |t|
      invariant SkipSpaces(t[1..]) == SkipSpaces(t[first..])
      decreases |t| - first
    {
      first := first + 1;
    }
    assert SkipSpaces(t[first..]) == t[first..];
  }

  method WordEnd(t: string, first: nat) returns (second: nat)
    requires Bracketed(t) && first < |t|
    ensures first <= second < |t| && t[first..second] == UpTo(t[first..])
  {
    second := first;
    assert t[first..second] + UpTo(t[second..]) == UpTo(t[first..]);
    while t[second] != ' ' && t[second] != ']'
      invariant first <= second < |t|
      invariant t[first..second] + UpTo(t[second..]) == UpTo(t[first..])
      decreases |t| - second
    {
      OneMoreOf(t, first, second);
      second := second + 1;
    }
    assert t[first..second] + "" == t[first..second];
  }

  lemma OneMoreOf(t: string, first: nat, second: nat)
    requires first <= second < |t| && t[second] != ' ' && t[second] != ']'
    ensures t[first..second] + UpTo(t[second..]) == t[first..second + 1] + UpTo(t[second + 1..])
  {
    assert t[second..][1..] == t[second + 1..];
  }

  method IsEndOfSection(line: string) returns (end: bool)
    ensures end == IsEnd(line)
  {
    var t := Simplify(line);
    if |t| < 2 || t[0] != '[' || t[|t| - 1] != ']' {
      return false;
    }
    var temp := FirstWord(t);
    end := temp == "END";
  }

  method NameOfSection(line: string) returns (name: string)
    ensures name == NameOf(line)
  {
    var t := Simplify(line);
    if |t| <= 2 || t[0] != '[' || t[|t| - 1] != ']' {
      return "";
    }
    name := FirstWord(t);
    if name == "END" {
      return "";
    }
  }

  method WriteKeys(stream: TextStream, keys: seq<Entry<string>>, indent: nat)
    modifies stream
    ensures stream.text == old(stream.text) + SaveKeys(keys, indent)
  {
    var pos := 0;
    assert keys[0..] == keys;
    while pos < |keys|
      invariant pos <= |keys|
      invariant stream.text + SaveKeys(keys[pos..], indent) == old(stream.text) + SaveKeys(keys, indent)
    {
      ghost var was := stream.text;
      stream.Write(Line(KeyLine(keys[pos].key, keys[pos].value, indent)));
      assert keys[pos..][1..] == keys[pos + 1..];
      assert was + SaveKeys(keys[pos..], indent) == stream.text + SaveKeys(keys[pos + 1..], indent);
      pos := pos + 1;
    }
  }

  method WriteSubsComment(stream: TextStream, none: bool, indent: nat)
    modifies stream
    ensures stream.text == old(stream.text) + (if none then "" else Line(CommentLine("subsections:", indent)))
  {
    if !none {
      stream.Write(Line(CommentLine("subsections:", indent)));
    }
  }

  method WriteKeyPart(stream: TextStream, keys: seq<Entry<string>>, indent: nat)
    modifies stream
    ensures stream.text == old(stream.text) + SaveKeyPart(keys, indent)
  {
    if keys != [] {
      ghost var was := stream.text;
      ghost var comment := Line(CommentLine("key-value-pairs:", indent));
      stream.Write(Line(CommentLine("key-value-pairs:", indent)));
      WriteKeys(stream, keys, indent);
      assert was + comment + SaveKeys(keys, indent) == was + (comment + SaveKeys(keys, indent));
    }
  }

  lemma Associate(was: string, a: string, b: string, c: string)
    ensures was + a + b + c == was + (a + b + c)
  {
  }

  /** The subsections are being written after `start`, and those from the i-th on are still to come. */
  ghost predicate WrittenTo(start: string, now: string, s: Tree, i: nat, level: nat)
    requires i <= |s.subs|
  {
    now + SaveSubs(s, i, level) == start + SaveSubs(s, 0, level)
  }

  lemma NothingWritten(start: string, s: Tree, level: nat)
    ensures WrittenTo(start, start, s, 0, level)
  {
  }

  lemma AllWritten(start: string, now: string, s: Tree, level: nat)
    requires WrittenTo(start, now, s, |s.subs|, level)
    ensures now == start + SaveSubs(s, 0, level)
  {
    assert now + "" == now;
  }

  lemma WroteSub(start: string, was: string, now: string, s: Tree, i: nat, level: nat)
    requires i < |s.subs| && WrittenTo(start, was, s, i, level)
    requires now == was + SaveSub(s.subs[i].key, Save(s.subs[i].value, level + 1), INDENT_WIDTH * level)
    ensures WrittenTo(start, now, s, i + 1, level)
  {
    var sub := SaveSub(s.subs[i].key, Save(s.subs[i].value, level + 1), INDENT_WIDTH * level);
    Concat(was, sub, SaveSubs(s, i + 1, level));
  }

  lemma Concat(a: string, b: string, c: string)
    ensures (a + b) + c == a + (b + c)
  {
  }

  // --------------------------------------------------------------- sections

  /** The four kinds of lines that reading goes on from. */
  lemma ReadCases(s: Tree, last: Option<string>, text: string, finish: bool)
    ensures var (line, rest) := NextLine(text);
            Read(s, last, text, finish)
            == if IsEnd(line) then Loaded(s, rest)
               else if rest == "" then
                 if finish then Failed(InsertLine(s, line), rest) else Loaded(InsertLine(s, line), rest)
               else if IsBegin(line) then
                 ReadOn(Inside(s, NameOf(line), last, rest), Current(s, NameOf(line), last), finish)
               else Read(InsertLine(s, line), last, rest, finish)
  {
    ReadGoesInside(s, last, text, finish);
  }

  lemma InsideCases(s: Tree, name: string, last: Option<string>, text: string)
    ensures var t := ConfigFile.Add(s, name);
            var i := Found(t, name, last);
            Inside(s, name, last, text)
            == if i == |t.subs| then Outcome.Undefined else WithinSub(t, i, Read(t.subs[i].value, None, text, true))
  {
  }

  /** A subsection that was read is put back into its place. */
  function WithinSub(t: Tree, i: nat, o: Outcome): Outcome
    requires i < |t.subs|
  {
    match o
    case Loaded(sub, rest) => Loaded(WithSub(t, i, sub), rest)
    case Failed(sub, rest) => Failed(WithSub(t, i, sub), rest)
    case Undefined => Outcome.Undefined
  }

  /** How readSection ends: well, with an error, or using a subsection that was not found. */
  datatype Status = Good | Bad | Undefined

  function StatusOf(o: Outcome): Status {
    match o
    case Loaded(_, _) => Good
    case Failed(_, _) => Bad
    case Undefined => Status.Undefined
  }

  /** The section objects of a map and the trees they hold. */
  ghost predicate Holds(subs: seq<Entry<Section>>, trees: seq<Entry<Tree>>)
    reads set i | 0 <= i < |subs| :: subs[i].value
  {
    && |subs| == |trees|
    && forall i :: 0 <= i < |subs| ==> subs[i].key == trees[i].key && subs[i].value.tree == trees[i].value
  }

  lemma {:induction false} InsertHolds(subs: seq<Entry<Section>>, trees: seq<Entry<Tree>>, key: string, x: Section)
    requires Holds(subs, trees)
    ensures Holds(Insert(subs, key, x), Insert(trees, key, x.tree))
    decreases |subs|
  {
    if subs != [] && subs[0].key != key && !Less(key, subs[0].key) {
      InsertHolds(subs[1..], trees[1..], key, x);
    }
  }

  lemma {:induction false} PositionHolds(subs: seq<Entry<Section>>, trees: seq<Entry<Tree>>, key: string)
    requires Holds(subs, trees)
    ensures Position(subs, key) == Position(trees, key)
    decreases |subs|
  {
    if subs != [] && subs[0].key != key {
      PositionHolds(subs[1..], trees[1..], key);
    }
  }

  ghost predicate Apart(subs: seq<Entry<Section>>)
    reads set i | 0 <= i < |subs| :: subs[i].value
  {
    forall i, j :: 0 <= i < j < |subs| ==> subs[i].value.repr !! subs[j].value.repr
  }

  class Section {
    var keys: seq<Entry<string>>
    var subs: seq<Entry<Section>>
    /** The value of the section, and all objects it consists of. */
    ghost var tree: Tree
    ghost var repr: set<Section>

    /** The subsections are sections of their own, each in one place. */
    ghost predicate Valid()
      reads this, repr
      decreases repr, 1
    {
      && this in repr && keys == tree.keys && Sorted(subs)
      && PartsIn(subs, repr) && Apart(subs) && Holds(subs, tree.subs)
    }

    ghost predicate PartsIn(list: seq<Entry<Section>>, all: set<Section>)
      reads all
      decreases all, 0
    {
      forall i :: 0 <= i < |list| ==>
        list[i].value in all && list[i].value.repr < all && this !in list[i].value.repr && list[i].value.Valid()
    }

    constructor ()
      ensures Valid() && tree == EMPTY && repr == {this}
    {
      keys, subs, tree, repr := [], [], EMPTY, {this};
    }

    method Clear()
      modifies this
      ensures Valid() && tree == EMPTY && repr == {this}
    {
      keys, subs, tree, repr := [], [], EMPTY, {this};
    }

    /** A new section takes its place among the others. */
    lemma PutKeepsParts(k: nat, e: Entry<Section>)
      requires Valid() && k <= |subs| && e.value.Valid() && e.value.repr == {e.value} && e.value !in repr
      ensures PartsIn(subs[..k] + [e] + subs[k..], repr + {e.value})
    {
      var r := subs[..k] + [e] + subs[k..];
      assert this in repr && this != e.value;
      forall i | 0 <= i < |r|
        ensures r[i].value == if i < k then subs[i].value else if i == k then e.value else subs[i - 1].value
      {
      }
    }

    lemma PutKeepsApart(k: nat, e: Entry<Section>)
      requires Valid() && k <= |subs| && e.value.repr == {e.value} && e.value !in repr
      ensures Apart(subs[..k] + [e] + subs[k..])
    {
      var r := subs[..k] + [e] + subs[k..];
      forall i, j | 0 <= i < j < |r| ensures r[i].value.repr !! r[j].value.repr {
        var x, y := if i < k then i else i - 1, if j < k then j else j - 1;
        if i == k {
          assert r[j] == subs[y] && subs[y].value.repr < repr;
        } else if j == k {
          assert r[i] == subs[x] && subs[x].value.repr < repr;
        } else {
          assert r[i] == subs[x] && r[j] == subs[y];
        }
      }
    }

    lemma InsertKeepsParts(key: string, x: Section)
      requires Valid() && x.Valid() && x.repr == {x} && x !in repr
      ensures var r := Insert(subs, key, x);
              Sorted(r) && PartsIn(r, repr + {x}) && Apart(r) && Holds(r, Insert(tree.subs, key, x.tree))
    {
      InsertKeepsOrder(subs, key, x);
      InsertHolds(subs, tree.subs, key, x);
      InsertIs(subs, key, x);
      var k := Place(subs, key);
      if k == |subs| || subs[k].key != key {
        PutKeepsParts(k, Entry(key, x));
        PutKeepsApart(k, Entry(key, x));
      }
    }

    /** add: a new empty section, unless the name is empty or in use. */
    method Add(name: string) returns (ghost added: Section?)
      requires Valid()
      modifies this`subs, this`tree, this`repr
      ensures Valid() && fresh(repr - old(repr)) && tree == ConfigFile.Add(old(tree), name)
      ensures subs == if added == null then old(subs) else Insert(old(subs), name, added)
    {
      if name == "" {
        return null;
      }
      var section := new Section();
      added := section;
      Put(name, section);
    }

    method Put(name: string, section: Section)
      requires Valid() && name != ""
      requires section.Valid() && section.repr == {section} && section !in repr && section.tree == EMPTY
      modifies this`subs, this`tree, this`repr
      ensures Valid() && tree == ConfigFile.Add(old(tree), name)
      ensures subs == Insert(old(subs), name, section) && repr == old(repr) + {section}
    {
      InsertKeepsParts(name, section);
      tree := ConfigFile.Add(tree, name);
      subs := Insert(subs, name, section);
      repr := repr + {section};
    }

    method InsertLine(line: string)
      requires Valid()
      modifies this`keys, this`tree
      ensures Valid() && tree == ConfigFile.InsertLine(old(tree), line)
    {
      var d := ParseLine(line);
      match d
      case None =>
      case Some(pair) =>
        keys := Insert(keys, pair.0, pair.1);
        tree := ConfigFile.InsertLine(tree, line);
    }

    lemma Others(i: nat)
      requires Valid() && i < |subs|
      ensures subs[i].value.Valid() && this !in subs[i].value.repr
      ensures forall j :: 0 <= j < |subs| && j != i ==>
                subs[j].value.Valid() && subs[j].value.repr < repr && subs[j].value in subs[j].value.repr
                && subs[j].value.repr !! subs[i].value.repr
    {
      forall j | 0 <= j < |subs| && j != i
        ensures subs[j].value.Valid() && subs[j].value.repr < repr && subs[j].value in subs[j].value.repr
                && subs[j].value.repr !! subs[i].value.repr
      {
        OneOther(i, j);
      }
    }

    lemma OneOther(i: nat, j: nat)
      requires Valid() && i < |subs| && j < |subs| && j != i
      ensures subs[j].value.Valid() && subs[j].value.repr < repr && subs[j].value in subs[j].value.repr
      ensures subs[j].value.repr !! subs[i].value.repr
    {
      if i < j {
        assert subs[i].value.repr !! subs[j].value.repr;
      }
    }

    /** `temp` is the subsection that was found last, called `last`. */
    ghost predicate Holding(temp: Section?, last: Option<string>)
      reads this`subs
    {
      if temp == null then last.None?
      else last.Some? && var i := Position(subs, last.value); i < |subs| && subs[i].value == temp
    }

    /** Reading into the i-th subsection. */
    method ReadSub(file: TextStream, sub: Section, ghost i: nat) returns (status: Status)
      requires Valid() && i < |subs| && subs[i].value == sub && file.text != ""
      modifies this`tree, this`repr, sub.repr, file
      ensures Valid() && fresh(repr - old(repr)) && subs == old(subs)
      ensures var o := WithinSub(old(tree), i, Read(old(tree).subs[i].value, None, old(file.text), true));
              status == StatusOf(o) && (!o.Undefined? ==> tree == o.tree && file.text == o.rest)
      decreases |file.text|, 2
    {
      Others(i);
      status := sub.ReadSection(file, true);
      forall j | 0 <= j < |subs| && j != i
        ensures subs[j].value.Valid() && subs[j].value.repr == old(subs[j].value.repr)
                && subs[j].value.tree == old(subs[j].value.tree) && subs[j].value.repr !! sub.repr
      {
      }
      TakeBack(i);
    }

    /** All that Valid says, but for the size and the tree of the i-th subsection. */
    ghost predicate ValidBut(i: nat)
      reads this, set j | 0 <= j < |subs| :: subs[j].value, set j, o | 0 <= j < |subs| && o in subs[j].value.repr :: o
    {
      && this in repr && keys == tree.keys && Sorted(subs) && Apart(subs) && |subs| == |tree.subs|
      && forall j :: 0 <= j < |subs| ==>
           && subs[j].value in repr && this !in subs[j].value.repr && subs[j].value.Valid()
              && subs[j].key == tree.subs[j].key
           && (j != i ==> subs[j].value.repr < repr && subs[j].value.tree == tree.subs[j].value)
    }

    ghost method TakeBack(i: nat)
      requires i < |subs| && ValidBut(i)
      modifies this`tree, this`repr
      ensures Valid() && tree == WithSub(old(tree), i, subs[i].value.tree) && repr == old(repr) + subs[i].value.repr
    {
      repr := repr + subs[i].value.repr;
      tree := WithSub(tree, i, subs[i].value.tree);
    }

    /** add and find: `temp` is left alone if there is no section of the name. */
    method FindSection(name: string, temp: Section?, ghost last: Option<string>) returns (found: Section?)
      requires Valid() && Holding(temp, last)
      modifies this`subs, this`tree, this`repr
      ensures Valid() && fresh(repr - old(repr)) && tree == ConfigFile.Add(old(tree), name)
      ensures var i := Found(tree, name, last);
              if i == |tree.subs| then found == null
              else
                && subs[i].value == found && Holding(found, Some(tree.subs[i].key))
                && Some(tree.subs[i].key) == Current(old(tree), name, last)
    {
      ghost var before := subs;
      ghost var added := Add(name);
      if last.Some? && added != null {
        InsertKeepsFound(before, name, added, last.value);
      }
      assert Holding(temp, last);
      PositionHolds(subs, tree.subs, name);
      if last.Some? {
        PositionHolds(subs, tree.subs, last.value);
      }
      var i := Position(subs, name);
      found := if i < |subs| then subs[i].value else temp;
    }

    method ReadSubsection(file: TextStream, name: string, temp: Section?, ghost last: Option<string>)
      returns (status: Status, found: Section?)
      requires Valid() && Holding(temp, last) && file.text != ""
      modifies repr, file
      ensures Valid() && fresh(repr - old(repr))
      ensures var o := Inside(old(tree), name, last, old(file.text));
              status == StatusOf(o) &&
              (!o.Undefined? ==>
                 tree == o.tree && file.text == o.rest && Holding(found, Current(old(tree), name, last)))
      decreases |file.text|, 3
    {
      InsideCases(tree, name, last, file.text);
      found := FindSection(name, temp, last);
      if found == null {
        return Status.Undefined, null;
      }
      status := ReadSub(file, found, Found(tree, name, last));
    }

    /** The last line of the file. */
    method ReadLast(line: string)
      requires Valid()
      modifies this`keys, this`tree
      ensures Valid() && tree == ConfigFile.InsertLine(old(tree), line)
    {
      if line != "" {
        InsertLine(line);
      }
    }

    /** Reading a line leaves the section as it is. */
    method NextLineIn(file: TextStream) returns (line: string)
      requires Valid()
      modifies file
      ensures Valid() && (line, file.text) == NextLine(old(file.text))
    {
      line := ReadLineFromStream(file);
    }

    /** One turn of the loop of readSection. */
    method ReadTurn(file: TextStream, finish: bool, temp: Section?, ghost last: Option<string>)
      returns (done: bool, status: Status, found: Section?, ghost current: Option<string>)
      requires Valid() && Holding(temp, last)
      modifies repr, file
      ensures Valid() && fresh(repr - old(repr))
      ensures var o := Read(old(tree), last, old(file.text), finish);
              if done then status == StatusOf(o) && (!o.Undefined? ==> tree == o.tree && file.text == o.rest)
              else
                && o == Read(tree, current, file.text, finish)
                && |file.text| < |old(file.text)| && Holding(found, current)
      decreases |file.text|, 0
    {
      ReadCases(tree, last, file.text, finish);
      found, current := temp, last;
      var line := NextLineIn(file);
      var end := IsEndOfSection(line);
      if end {
        return true, Good, found, current;
      } else if file.Eof() {
        ReadLast(line);
        return true, if finish then Bad else Good, found, current;
      }
      if IsBegin(line) {
        done, status, found, current := ReadInside(file, line, finish, temp, last);
      } else {
        InsertLine(line);
        done, status := false, Good;
      }
    }

    /** The turn for an opening line. */
    method ReadInside(file: TextStream, line: string, ghost finish: bool, temp: Section?, ghost last: Option<string>)
      returns (done: bool, status: Status, found: Section?, ghost current: Option<string>)
      requires Valid() && Holding(temp, last) && file.text != ""
      modifies repr, file
      ensures Valid() && fresh(repr - old(repr))
      ensures var name := NameOf(line);
              var o := ReadOn(Inside(old(tree), name, last, old(file.text)), Current(old(tree), name, last), finish);
              if done then status == StatusOf(o) && (!o.Undefined? ==> tree == o.tree && file.text == o.rest)
              else
                && o == Read(tree, current, file.text, finish)
                && |file.text| <= |old(file.text)| && Holding(found, current)
      decreases |file.text|, 4
    {
      var name := NameOfSection(line);
      current := Current(tree, name, last);
      status, found := ReadSubsection(file, name, temp, last);
      done := status != Good;
    }

    method ReadSection(file: TextStream, finish: bool) returns (status: Status)
      requires Valid()
      modifies repr, file
      ensures Valid() && fresh(repr - old(repr))
      ensures var o := Read(old(tree), None, old(file.text), finish);
              status == StatusOf(o) && (!o.Undefined? ==> tree == o.tree && file.text == o.rest)
      decreases |file.text|, 1
    {
      var temp: Section? := null;
      ghost var last: Option<string> := None;
      while true
        invariant Valid() && fresh(repr - old(repr)) && Holding(temp, last)
        invariant Read(old(tree), None, old(file.text), finish) == Read(tree, last, file.text, finish)
        invariant |file.text| <= |old(file.text)|
        decreases |file.text|
      {
        var done;
        done, status, temp, last := ReadTurn(file, finish, temp, last);
        if done {
          return;
        }
      }
    }

    /** save: appends the printed section to the stream. */
    method Save(stream: TextStream, level: nat)
      requires Valid()
      modifies stream
      ensures stream.text == old(stream.text) + ConfigFile.Save(tree, level)
      decreases repr, 1
    {
      var indent := INDENT_WIDTH * level;
      WriteSubsComment(stream, subs == [], indent);
      SaveSubs(stream, level);
      WriteKeyPart(stream, keys, indent);
      Associate(old(stream.text), SaveSubsComment(tree.subs, indent), ConfigFile.SaveSubs(tree, 0, level),
                SaveKeyPart(tree.keys, indent));
    }

    method SaveSubs(stream: TextStream, level: nat)
      requires Valid()
      modifies stream
      ensures stream.text == old(stream.text) + ConfigFile.SaveSubs(tree, 0, level)
      decreases repr, 0
    {
      var i := 0;
      ghost var start := stream.text;
      NothingWritten(start, tree, level);
      while i < |subs|
        invariant i <= |subs| && Valid() && WrittenTo(start, stream.text, tree, i, level)
      {
        SaveNext(stream, i, level, start);
        i := i + 1;
      }
      AllWritten(start, stream.text, tree, level);
    }

    /** One turn of the loop. */
    method SaveNext(stream: TextStream, i: nat, level: nat, ghost start: string)
      requires Valid() && i < |subs| && WrittenTo(start, stream.text, tree, i, level)
      modifies stream
      ensures Valid() && WrittenTo(start, stream.text, tree, i + 1, level)
      decreases repr, 0, 2
    {
      ghost var was := stream.text;
      SaveSub(stream, i, level);
      WroteSub(start, was, stream.text, tree, i, level);
    }

    /** Writing leaves the section as it is. */
    method WriteLine(stream: TextStream, text: string)
      requires Valid()
      modifies stream
      ensures Valid() && stream.text == old(stream.text) + Line(text)
    {
      stream.Write(Line(text));
    }

    method SaveBody(stream: TextStream, i: nat, level: nat)
      requires Valid() && i < |subs|
      modifies stream
      ensures Valid() && stream.text == old(stream.text) + ConfigFile.Save(tree.subs[i].value, level + 1)
      decreases repr, 0, 0
    {
      subs[i].value.Save(stream, level + 1);
    }

    method SaveSub(stream: TextStream, i: nat, level: nat)
      requires Valid() && i < |subs|
      modifies stream
      ensures Valid()
      ensures var e := tree.subs[i];
              stream.text
              == old(stream.text) + ConfigFile.SaveSub(e.key, ConfigFile.Save(e.value, level + 1), INDENT_WIDTH * level)
      decreases repr, 0, 1
    {
      var name, indent := subs[i].key, INDENT_WIDTH * level;
      ghost var sub := tree.subs[i].value;
      WriteLine(stream, OpenLine(name, indent));
      SaveBody(stream, i, level);
      WriteLine(stream, CloseLine(name, indent));
      Associate(old(stream.text), Line(OpenLine(name, indent)), ConfigFile.Save(sub, level + 1),
                Line(CloseLine(name, indent)));
    }
  }

  method WriteHead(stream: TextStream, header: Option<string>, version: string)
    requires stream.text == ""
    modifies stream
    ensures stream.text == SaveHead(header, version)
  {
    if header.Some? {
      stream.Write(Line(CommentLine(header.value, 0)));
      assert "" + Line(CommentLine(header.value, 0)) == Line(CommentLine(header.value, 0));
    }
    stream.Write(Line(CommentLine(CreatedBy(version), 0)));
  }

  /** What a file can be saved from. */
  ghost predicate Saveable(header: Option<string>, version: string, top: Tree) {
    Ordered(top) && GoodHeader(header) && NoBreak(version)
  }

  class QConfigDB {
    const top: Section

    constructor ()
      ensures top.Valid() && top.tree == EMPTY && fresh(top.repr)
    {
      top := new Section();
    }

    /** Writes the file: an optional comment of the caller, a comment of its own, the sections. */
    method Save(stream: TextStream, header: Option<string>, version: string)
      requires top.Valid() && stream.text == ""
      modifies stream
      ensures stream.text == SaveFile(header, version, top.tree)
    {
      WriteHead(stream, header, version);
      top.Save(stream, 0);
    }

    /** Clears the database and reads the file into it. */
    method Load(stream: TextStream) returns (status: Status)
      modifies top, stream
      ensures top.Valid() && fresh(top.repr - {top})
      ensures var o := Read(EMPTY, None, old(stream.text), false);
              status == StatusOf(o) &&
              (!o.Undefined? ==> top.tree == o.tree && Ordered(top.tree) && PlainTree(top.tree))
      ensures status.Undefined? <==> Strays([false], old(stream.text))
      ensures !status.Undefined? ==> (status.Bad? <==> Unclosed(0, old(stream.text)))
      ensures forall header: Option<string>, version, saved ::
                Saveable(header, version, saved) && old(stream.text) == SaveFile(header, version, saved) ==>
                  (status == Good && top.tree == saved && stream.text == "" <==> Loadable(saved))
    {
      ghost var text := stream.text;
      top.Clear();
      status := top.ReadSection(stream, false);
      ReadKeepsOrder(EMPTY, None, text, false);
      ReadYieldsPlain(EMPTY, None, text, false);
      UndefinedExactly(text);
      FailsExactly(text);
      forall header: Option<string>, version, saved
        | Saveable(header, version, saved) && text == SaveFile(header, version, saved)
        ensures status == Good && top.tree == saved && stream.text == "" <==> Loadable(saved)
      {
        LoadSaved(header, version, saved);
      }
    }
  }
}
