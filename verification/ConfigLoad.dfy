/** When loading what was saved gives the same database: the lines that declare a key are
    counted, in the file and in what is read from it. */
module ConfigLoad {
  import opened ConfigCodec
  import opened ConfigFile
  import opened ConfigLines
  import opened ConfigMaps
  import opened Options

  // ---------------------------------------------------------------- counting

  function OneIf(b: bool): nat { if b then 1 else 0 }

  /** How many lines of a text put a key into some section, whatever sections are open. */
  function Inserted(text: string): nat
    decreases |text|
  {
    if text == "" then 0
    else
      var (line, rest) := NextLine(text);
      if IsEnd(line) then Inserted(rest)
      else if rest == "" then OneIf(Declared(line).Some?)
      else OneIf(!IsBegin(line) && Declared(line).Some?) + Inserted(rest)
  }

  /** How many keys there are in a section and in all sections inside. */
  function KeyCount(s: Tree): nat
    decreases s, |s.subs| + 1
  {
    |s.keys| + SubsCount(s, |s.subs|)
  }

  function SubsCount(s: Tree, n: nat): nat
    requires n <= |s.subs|
    decreases s, n
  {
    if n == 0 then 0 else SubsCount(s, n - 1) + KeyCount(s.subs[n - 1].value)
  }

  lemma {:induction false} SameSubsCount(s: Tree, t: Tree, n: nat)
    requires n <= |s.subs| && n <= |t.subs| && s.subs[..n] == t.subs[..n]
    ensures SubsCount(s, n) == SubsCount(t, n)
    decreases n
  {
    if n > 0 {
      assert s.subs[n - 1] == s.subs[..n][n - 1] == t.subs[n - 1];
      assert s.subs[..n - 1] == s.subs[..n][..n - 1] && t.subs[..n - 1] == t.subs[..n][..n - 1];
      SameSubsCount(s, t, n - 1);
    }
  }

  lemma {:induction false} WithSubCounts(s: Tree, i: nat, sub: Tree, n: nat)
    requires i < |s.subs| && n <= |s.subs|
    ensures SubsCount(WithSub(s, i, sub), n) + (if i < n then KeyCount(s.subs[i].value) else 0)
         == SubsCount(s, n) + (if i < n then KeyCount(sub) else 0)
    decreases n
  {
    if n > 0 {
      WithSubCounts(s, i, sub, n - 1);
    }
  }

  lemma EmptyCounts()
    ensures KeyCount(EMPTY) == 0
  {
  }

  /** A new section adds no keys. */
  lemma {:induction false} NewSubCounts(s: Tree, t: Tree, name: string, k: nat, n: nat)
    requires k <= |s.subs| && t.subs == s.subs[..k] + [Entry(name, EMPTY)] + s.subs[k..] && n <= |t.subs|
    ensures SubsCount(t, n) == SubsCount(s, if n <= k then n else n - 1)
    decreases n
  {
    if n > 0 {
      NewSubCounts(s, t, name, k, n - 1);
      EmptyCounts();
      if n - 1 < k {
        assert t.subs[n - 1] == s.subs[n - 1];
      } else if n - 1 > k {
        assert t.subs[n - 1] == s.subs[n - 2];
      }
    }
  }

  lemma NewCounts(s: Tree, name: string)
    requires var k := Place(s.subs, name);
             k <= |s.subs| && Add(s, name).subs == s.subs[..k] + [Entry(name, EMPTY)] + s.subs[k..]
    ensures KeyCount(Add(s, name)) == KeyCount(s)
  {
    var t := Add(s, name);
    NewSubCounts(s, t, name, Place(s.subs, name), |t.subs|);
  }

  lemma AddCounts(s: Tree, name: string)
    requires Ordered(s)
    ensures KeyCount(Add(s, name)) == KeyCount(s)
  {
    if name != "" {
      InsertIs(s.subs, name, EMPTY);
      if Add(s, name) != s {
        NewCounts(s, name);
      }
    }
  }

  lemma {:induction false} InsertGrows<T>(m: seq<Entry<T>>, key: string, value: T)
    ensures |Insert(m, key, value)| <= |m| + 1
  {
    if m != [] {
      InsertGrows(m[1..], key, value);
    }
  }

  lemma InsertLineCounts(s: Tree, line: string)
    ensures KeyCount(InsertLine(s, line)) <= KeyCount(s) + OneIf(Declared(line).Some?)
  {
    var d := Declared(line);
    if d.Some? {
      InsertGrows(s.keys, d.value.0, d.value.1);
      SameSubsCount(s, InsertLine(s, line), |s.subs|);
    }
  }

  ghost predicate Counts(s: Tree, text: string, o: Outcome) {
    o.Loaded? ==> KeyCount(o.tree) + Inserted(o.rest) <= KeyCount(s) + Inserted(text)
  }

  /** Reading puts no more keys into a section than there are lines for. */
  lemma {:induction false} ReadCounts(s: Tree, last: Option<string>, text: string, finish: bool)
    requires Ordered(s)
    ensures Counts(s, text, Read(s, last, text, finish))
    decreases |text|, 1
  {
    var (line, rest) := NextLine(text);
    InsertLineCounts(s, line);
    if !IsEnd(line) && rest != "" {
      if IsBegin(line) {
        BeginCounts(s, last, text, finish);
      } else {
        InsertLineKeepsOrder(s, line);
        ReadCounts(InsertLine(s, line), last, rest, finish);
      }
    }
  }

  lemma {:induction false} BeginCounts(s: Tree, last: Option<string>, text: string, finish: bool)
    requires Ordered(s)
    requires var (line, rest) := NextLine(text); !IsEnd(line) && rest != "" && IsBegin(line)
    ensures Counts(s, text, Read(s, last, text, finish))
    decreases |text|, 0
  {
    var (line, rest) := NextLine(text);
    var t := Add(s, NameOf(line));
    var i := Found(t, NameOf(line), last);
    AddCounts(s, NameOf(line));
    AddKeepsOrder(s, NameOf(line));
    if i < |t.subs| {
      assert OrderedSubs(t);
      var r := Read(t.subs[i].value, None, rest, true);
      ReadCounts(t.subs[i].value, None, rest, true);
      ReadKeepsOrder(t.subs[i].value, None, rest, true);
      if r.Loaded? {
        WithSubCounts(t, i, r.tree, |t.subs|);
        WithSubKeepsOrder(t, i, r.tree);
        ReadCounts(WithSub(t, i, r.tree), Some(t.subs[i].key), r.rest, finish);
      }
    }
  }

  // ---------------------------------------------------- counting saved lines

  /** How many keys are shown by their lines. */
  function FitKeys(keys: seq<Entry<string>>): nat {
    if keys == [] then 0 else OneIf(Shown(keys[0])) + FitKeys(keys[1..])
  }

  function Fit(s: Tree): nat
    decreases s, |s.subs| + 1
  {
    FitKeys(s.keys) + FitSubs(s, |s.subs|)
  }

  function FitSubs(s: Tree, n: nat): nat
    requires n <= |s.subs|
    decreases s, n
  {
    if n == 0 then 0 else FitSubs(s, n - 1) + Fit(s.subs[n - 1].value)
  }

  lemma {:induction false} FitKeysAll(keys: seq<Entry<string>>)
    ensures FitKeys(keys) <= |keys|
    ensures FitKeys(keys) == |keys| <==> forall e <- keys :: Shown(e)
    decreases |keys|
  {
    if keys != [] {
      FitKeysAll(keys[1..]);
      assert forall e <- keys :: e == keys[0] || e in keys[1..];
      assert forall e <- keys[1..] :: e in keys;
      assert keys[0] in keys;
    }
  }

  lemma {:induction false} FitAll(s: Tree)
    requires PlainTree(s)
    ensures Fit(s) <= KeyCount(s) && (Fit(s) == KeyCount(s) <==> GoodTree(s))
    decreases s, |s.subs| + 1
  {
    FitKeysAll(s.keys);
    FitSubsAll(s, |s.subs|);
    assert GoodSubs(s) <==> forall i :: 0 <= i < |s.subs| ==> GoodTree(s.subs[i].value) by {
      assert PlainSubs(s);
    }
  }

  lemma {:induction false} FitSubsAll(s: Tree, n: nat)
    requires PlainTree(s) && n <= |s.subs|
    ensures FitSubs(s, n) <= SubsCount(s, n)
    ensures FitSubs(s, n) == SubsCount(s, n) <==> forall i :: 0 <= i < n ==> GoodTree(s.subs[i].value)
    decreases s, n
  {
    if n > 0 {
      assert PlainSubs(s);
      FitSubsAll(s, n - 1);
      FitAll(s.subs[n - 1].value);
    }
  }

  lemma InsertedComment(text: string, indent: nat, rest: string)
    requires NoBreak(text)
    ensures Inserted(Line(CommentLine(text, indent)) + rest) == Inserted(rest)
  {
    CommentReads(text, indent);
    InsertedSkips(CommentLine(text, indent), rest);
  }

  lemma InsertedSkips(line: string, rest: string)
    requires NoBreak(line) && IsComment(line)
    ensures Inserted(Line(line) + rest) == Inserted(rest)
  {
    ReadLineOf(line, rest);
    assert NextLine(Line(line) + rest) == NextLine(rest);
    assert !IsEnd("") && Declared("").None?;
  }

  lemma InsertedLine(line: string, rest: string)
    requires NoBreak(line) && !IsComment(line)
    ensures Inserted(Line(line) + rest) ==
            if IsEnd(line) then Inserted(rest)
            else if rest == "" then OneIf(Declared(line).Some?)
            else OneIf(!IsBegin(line) && Declared(line).Some?) + Inserted(rest)
  {
    NextLineOf(line, rest);
  }

  lemma InsertedKey(e: Entry<string>, indent: nat, rest: string)
    requires PlainKey(e.key) && NoBreak(e.value) && rest != ""
    ensures Inserted(Line(KeyLine(e.key, e.value, indent)) + rest) == OneIf(Shown(e)) + Inserted(rest)
  {
    assert e.key[0] in e.key;
    KeyLineIs(e.key, e.value, indent);
    KeyLineHasNoBreak(e, indent);
    if e.key[0] == '#' {
      InsertedSkips(KeyLine(e.key, e.value, indent), rest);
    } else {
      InsertedLine(KeyLine(e.key, e.value, indent), rest);
      KeyLineDeclares(e.key, e.value, indent);
    }
  }

  lemma KeyLineHasNoBreak(e: Entry<string>, indent: nat)
    requires PlainKey(e.key) && NoBreak(e.value)
    ensures NoBreak(KeyLine(e.key, e.value, indent))
  {
    assert forall c <- e.key :: IsGraph(c);
  }

  /** The last line of a file is a key even if it looks like an opening line. */
  predicate ShownLast(e: Entry<string>) {
    GoodKey(e.key) && NoBreak(e.value) && !IsEnd(e.key + "=" + e.value)
  }

  lemma InsertedLastKey(e: Entry<string>, indent: nat)
    requires PlainKey(e.key) && NoBreak(e.value)
    ensures Inserted(Line(KeyLine(e.key, e.value, indent))) == OneIf(ShownLast(e))
  {
    var line := KeyLine(e.key, e.value, indent);
    assert Line(line) + "" == Line(line);
    assert e.key[0] in e.key;
    KeyLineIs(e.key, e.value, indent);
    KeyLineHasNoBreak(e, indent);
    if e.key[0] == '#' {
      InsertedSkips(line, "");
    } else {
      InsertedLine(line, "");
      KeyLineDeclares(e.key, e.value, indent);
    }
  }

  lemma {:induction false} InsertedKeys(keys: seq<Entry<string>>, indent: nat, rest: string)
    requires PlainEntries(keys) && rest != ""
    ensures Inserted(SaveKeys(keys, indent) + rest) == FitKeys(keys) + Inserted(rest)
    decreases |keys|
  {
    if keys == [] {
      assert SaveKeys(keys, indent) + rest == rest;
    } else {
      assert keys[0] in keys && PlainEntries(keys[1..]);
      Regroup3(Line(KeyLine(keys[0].key, keys[0].value, indent)), SaveKeys(keys[1..], indent), rest);
      InsertedKey(keys[0], indent, SaveKeys(keys[1..], indent) + rest);
      InsertedKeys(keys[1..], indent, rest);
    }
  }

  lemma InsertedKeyPart(keys: seq<Entry<string>>, indent: nat, rest: string)
    requires PlainEntries(keys) && rest != ""
    ensures Inserted(SaveKeyPart(keys, indent) + rest) == FitKeys(keys) + Inserted(rest)
  {
    if keys == [] {
      assert "" + rest == rest;
    } else {
      Regroup3(Line(CommentLine("key-value-pairs:", indent)), SaveKeys(keys, indent), rest);
      InsertedComment("key-value-pairs:", indent, SaveKeys(keys, indent) + rest);
      InsertedKeys(keys, indent, rest);
    }
  }

  lemma {:induction false} InsertedSave(s: Tree, level: nat, rest: string)
    requires PlainTree(s) && rest != ""
    ensures Inserted(Save(s, level) + rest) == Fit(s) + Inserted(rest)
    decreases s, |s.subs| + 1
  {
    var indent := INDENT_WIDTH * level;
    var tail := SaveKeyPart(s.keys, indent) + rest;
    Regroup(SaveSubsComment(s.subs, indent), SaveSubs(s, 0, level), SaveKeyPart(s.keys, indent), rest);
    InsertedSubsComment(s.subs, indent, SaveSubs(s, 0, level) + tail);
    InsertedAllSubs(s, level, tail);
    InsertedKeyPart(s.keys, indent, rest);
  }

  lemma InsertedSubsComment(subs: seq<Entry<Tree>>, indent: nat, rest: string)
    ensures Inserted(SaveSubsComment(subs, indent) + rest) == Inserted(rest)
  {
    if subs == [] {
      assert "" + rest == rest;
    } else {
      InsertedComment("subsections:", indent, rest);
    }
  }

  lemma InsertedOpen(name: string, indent: nat, rest: string)
    requires GoodName(name) && rest != ""
    ensures Inserted(Line(OpenLine(name, indent)) + rest) == Inserted(rest)
  {
    assert NoBreak(name);
    GoodNameReads(name, indent);
    InsertedLine(OpenLine(name, indent), rest);
  }

  lemma InsertedClose(name: string, indent: nat, rest: string)
    requires NoBreak(name)
    ensures Inserted(Line(CloseLine(name, indent)) + rest) == Inserted(rest)
  {
    CloseReads(name, indent);
    InsertedLine(CloseLine(name, indent), rest);
  }

  /** A printed subsection, whose body has so many lines that put a key into a section. */
  lemma InsertedPart(name: string, body: string, indent: nat, rest: string, count: nat)
    requires GoodName(name)
    requires var close := Line(CloseLine(name, indent)) + rest; Inserted(body + close) == count + Inserted(close)
    ensures Inserted(SaveSub(name, body, indent) + rest) == count + Inserted(rest)
  {
    assert NoBreak(name);
    var open, close := Line(OpenLine(name, indent)), Line(CloseLine(name, indent));
    Regroup(open, body, close, rest);
    InsertedOpen(name, indent, body + (close + rest));
    InsertedClose(name, indent, rest);
  }

  /** The lines counted up to the i-th subsection, and those from there on. */
  function Counted(s: Tree, i: nat, level: nat, rest: string): nat
    requires i <= |s.subs|
  {
    FitSubs(s, i) + Inserted(SaveSubs(s, i, level) + rest)
  }

  lemma {:induction false} CountedThrough(s: Tree, n: nat, level: nat, rest: string)
    requires PlainSubs(s) && n <= |s.subs|
    ensures Counted(s, 0, level, rest) == Counted(s, n, level, rest)
    decreases s, n, 3
  {
    if n > 0 {
      CountedThrough(s, n - 1, level, rest);
      InsertedStep(s, n - 1, level, rest);
    }
  }

  lemma {:induction false} InsertedAllSubs(s: Tree, level: nat, rest: string)
    requires PlainSubs(s)
    ensures Inserted(SaveSubs(s, 0, level) + rest) == FitSubs(s, |s.subs|) + Inserted(rest)
    decreases s, |s.subs| + 1, 0
  {
    CountedThrough(s, |s.subs|, level, rest);
    assert SaveSubs(s, |s.subs|, level) + rest == rest;
  }

  lemma {:induction false} InsertedStep(s: Tree, i: nat, level: nat, rest: string)
    requires i < |s.subs| && PlainSubs(s)
    ensures Counted(s, i, level, rest) == Counted(s, i + 1, level, rest)
    decreases s, 0, 2
  {
    FitSubsStep(s, i);
    InsertedSub(s, i, level, rest);
  }

  lemma FitSubsStep(s: Tree, i: nat)
    requires i < |s.subs|
    ensures FitSubs(s, i + 1) == FitSubs(s, i) + Fit(s.subs[i].value)
  {
  }

  lemma {:induction false} InsertedSub(s: Tree, i: nat, level: nat, rest: string)
    requires i < |s.subs| && PlainSubs(s)
    ensures Inserted(SaveSubs(s, i, level) + rest) == Fit(s.subs[i].value) + Inserted(SaveSubs(s, i + 1, level) + rest)
    decreases s, 0, 1
  {
    var e, indent := s.subs[i], INDENT_WIDTH * level;
    var tail := SaveSubs(s, i + 1, level) + rest;
    InsertedBody(s, i, level, Line(CloseLine(e.key, indent)) + tail);
    InsertedPart(e.key, Save(e.value, level + 1), indent, tail, Fit(e.value));
    SubsSplit(s, i, level, rest);
  }

  lemma {:induction false} InsertedBody(s: Tree, i: nat, level: nat, rest: string)
    requires i < |s.subs| && PlainSubs(s) && rest != ""
    ensures Inserted(Save(s.subs[i].value, level + 1) + rest) == Fit(s.subs[i].value) + Inserted(rest)
    decreases s, 0, 0
  {
    InsertedSave(s.subs[i].value, level + 1, rest);
  }

  // ------------------------------------------------------------ the whole file

  /** All names are good and all keys and values shown by their lines. The last line of a
      file is read otherwise, and is the last key of the outermost section, if it has keys. */
  ghost predicate Loadable(top: Tree) {
    GoodSubs(top) &&
    forall i :: 0 <= i < |top.keys| ==> if i + 1 == |top.keys| then ShownLast(top.keys[i]) else Shown(top.keys[i])
  }

  ghost predicate LoadableKeys(keys: seq<Entry<string>>) {
    keys != [] ==> (forall e <- AllButLast(keys) :: Shown(e)) && ShownLast(keys[|keys| - 1])
  }

  function AllButLast<T>(s: seq<T>): seq<T>
    requires s != []
  {
    s[..|s| - 1]
  }

  lemma LoadableIs(top: Tree)
    ensures Loadable(top) <==> GoodSubs(top) && LoadableKeys(top.keys)
  {
    var keys := top.keys;
    if keys != [] {
      var init := AllButLast(keys);
      assert forall i :: 0 <= i < |init| ==> init[i] == keys[i];
      if LoadableKeys(keys) {
        forall i | 0 <= i < |init| ensures Shown(keys[i]) {
          assert init[i] in init;
        }
      }
    }
  }

  /** How many lines of a saved file put a key into a section. */
  function FitTopKeys(keys: seq<Entry<string>>): nat {
    if keys == [] then 0 else FitKeys(AllButLast(keys)) + OneIf(ShownLast(keys[|keys| - 1]))
  }

  lemma FitTopKeysAll(keys: seq<Entry<string>>)
    ensures FitTopKeys(keys) <= |keys| && (FitTopKeys(keys) == |keys| <==> LoadableKeys(keys))
  {
    if keys != [] {
      FitKeysAll(AllButLast(keys));
    }
  }

  lemma FitTopAll(top: Tree)
    requires PlainTree(top)
    ensures FitSubs(top, |top.subs|) + FitTopKeys(top.keys) >= KeyCount(top) <==> Loadable(top)
  {
    FitSubsAll(top, |top.subs|);
    FitTopKeysAll(top.keys);
    LoadableIs(top);
    assert PlainSubs(top);
    assert GoodSubs(top) <==> forall i :: 0 <= i < |top.subs| ==> GoodTree(top.subs[i].value);
  }

  lemma {:induction false} SaveKeysSplit(keys: seq<Entry<string>>, indent: nat)
    requires keys != []
    ensures var e := keys[|keys| - 1];
            SaveKeys(keys, indent) == SaveKeys(AllButLast(keys), indent) + Line(KeyLine(e.key, e.value, indent))
    decreases |keys|
  {
    var e := keys[|keys| - 1];
    var last := Line(KeyLine(e.key, e.value, indent));
    if |keys| == 1 {
      assert SaveKeys(keys[1..], indent) == "";
      assert last + "" == last && "" + last == last;
    } else {
      SaveKeysSplit(keys[1..], indent);
      assert AllButLast(keys)[1..] == AllButLast(keys[1..]);
      Regroup3(Line(KeyLine(keys[0].key, keys[0].value, indent)), SaveKeys(AllButLast(keys[1..]), indent), last);
    }
  }

  lemma InsertedTopKeys(keys: seq<Entry<string>>)
    requires PlainEntries(keys)
    ensures Inserted(SaveKeyPart(keys, 0)) == FitTopKeys(keys)
  {
    if keys != [] {
      var e, init := keys[|keys| - 1], AllButLast(keys);
      assert e in keys && PlainEntries(init);
      InsertedComment("key-value-pairs:", 0, SaveKeys(keys, 0));
      SaveKeysSplit(keys, 0);
      InsertedKeys(init, 0, Line(KeyLine(e.key, e.value, 0)));
      InsertedLastKey(e, 0);
    }
  }

  lemma InsertedTop(top: Tree)
    requires PlainTree(top)
    ensures Inserted(Save(top, 0)) == FitSubs(top, |top.subs|) + FitTopKeys(top.keys)
  {
    var tail := SaveKeyPart(top.keys, 0);
    Regroup3(SaveSubsComment(top.subs, 0), SaveSubs(top, 0, 0), tail);
    InsertedSubsComment(top.subs, 0, SaveSubs(top, 0, 0) + tail);
    InsertedAllSubs(top, 0, tail);
    InsertedTopKeys(top.keys);
  }

  // -------------------------------------------------- loadable trees are loaded

  /** The printed subsections do not depend on the keys outside. */
  lemma {:induction false} SameSubs(s: Tree, t: Tree, i: nat, level: nat)
    requires s.subs == t.subs && i <= |s.subs|
    ensures SaveSubs(s, i, level) == SaveSubs(t, i, level)
    decreases |s.subs| - i
  {
    if i < |s.subs| {
      var part := SaveSub(s.subs[i].key, Save(s.subs[i].value, level + 1), INDENT_WIDTH * level);
      SubsStep(s, i, level, part);
      SubsStep(t, i, level, part);
      SameSubs(s, t, i + 1, level);
    }
  }

  lemma SubsStep(s: Tree, i: nat, level: nat, part: string)
    requires i < |s.subs| && part == SaveSub(s.subs[i].key, Save(s.subs[i].value, level + 1), INDENT_WIDTH * level)
    ensures SaveSubs(s, i, level) == part + SaveSubs(s, i + 1, level)
  {
  }

  lemma SubsAreRead(top: Tree, rest: string)
    requires Ordered(top) && GoodSubs(top)
    ensures Read(EMPTY, None, SaveSubs(top, 0, 0) + rest, false)
         == Read(Tree([], top.subs), LastName(top.subs, |top.subs|), rest, false)
  {
    var t := Tree([], top.subs);
    assert OrderedSubs(top) && OrderedSubs(t) && GoodSubs(t) && GoodTree(t);
    GoodIsPlain(t);
    VisibleIs(t);
    SameSubs(top, t, 0, 0);
    ReadSubs(t, 0, rest, false);
  }

  lemma LastIsRead(s: Tree, last: Option<string>, e: Entry<string>)
    requires ShownLast(e) && forall f <- s.keys :: Less(f.key, e.key)
    ensures Read(s, last, Line(KeyLine(e.key, e.value, 0)), false) == Loaded(s.(keys := s.keys + [e]), "")
  {
    var line := KeyLine(e.key, e.value, 0);
    assert Line(line) + "" == Line(line);
    assert e.key[0] in e.key;
    KeyLineIs(e.key, e.value, 0);
    KeyLineHasNoBreak(e, 0);
    NextLineOf(line, "");
    KeyLineDeclares(e.key, e.value, 0);
    InsertAppends(s.keys, e.key, e.value);
  }

  lemma AllButLastAre(keys: seq<Entry<string>>)
    requires keys != [] && forall e <- AllButLast(keys) :: Shown(e)
    ensures PlainEntries(AllButLast(keys)) && FlatEntries(AllButLast(keys))
            && Unhashed(AllButLast(keys)) == AllButLast(keys)
  {
    UnhashedIs(AllButLast(keys));
  }

  lemma ShownAreRead(s: Tree, last: Option<string>, keys: seq<Entry<string>>, rest: string)
    requires s.keys == [] && Sorted(keys) && PlainEntries(keys) && FlatEntries(keys) && Unhashed(keys) == keys
    ensures Read(s, last, SaveKeys(keys, 0) + rest, false) == Read(s.(keys := keys), last, rest, false)
  {
    assert [] + keys == keys;
    ReadKeys(s, last, keys, 0, rest, false);
  }

  lemma LastIsLater(keys: seq<Entry<string>>)
    requires keys != [] && Sorted(keys)
    ensures Sorted(AllButLast(keys)) && forall f <- AllButLast(keys) :: Less(f.key, keys[|keys| - 1].key)
  {
    assert keys == AllButLast(keys) + [keys[|keys| - 1]];
    LaterKeys(AllButLast(keys), [keys[|keys| - 1]]);
  }

  lemma KeysAreRead(s: Tree, last: Option<string>, keys: seq<Entry<string>>)
    requires s.keys == [] && Sorted(keys) && keys != [] && LoadableKeys(keys)
    ensures Read(s, last, SaveKeys(keys, 0), false) == Loaded(s.(keys := keys), "")
  {
    var e, init := keys[|keys| - 1], AllButLast(keys);
    AllButLastAre(keys);
    LastIsLater(keys);
    SaveKeysSplit(keys, 0);
    ShownAreRead(s, last, init, Line(KeyLine(e.key, e.value, 0)));
    LastIsRead(s.(keys := init), last, e);
    assert keys == init + [e];
  }

  lemma KeyPartIsRead(s: Tree, last: Option<string>, keys: seq<Entry<string>>)
    requires s.keys == [] && Sorted(keys) && LoadableKeys(keys)
    ensures Read(s, last, SaveKeyPart(keys, 0), false) == Loaded(s.(keys := keys), "")
  {
    if keys == [] {
      ReadNothing(s, last);
    } else {
      SkipComment(s, last, "key-value-pairs:", 0, SaveKeys(keys, 0), false);
      KeysAreRead(s, last, keys);
    }
  }

  lemma LoadableIsRead(top: Tree)
    requires Ordered(top) && Loadable(top)
    ensures Read(EMPTY, None, Save(top, 0), false) == Loaded(top, "")
  {
    LoadableIs(top);
    var tail := SaveKeyPart(top.keys, 0);
    Regroup3(SaveSubsComment(top.subs, 0), SaveSubs(top, 0, 0), tail);
    SkipSubsComment(top.subs, 0, SaveSubs(top, 0, 0) + tail, false);
    SubsAreRead(top, tail);
    KeyPartIsRead(Tree([], top.subs), LastName(top.subs, |top.subs|), top.keys);
  }

  lemma ReadIsLoadable(top: Tree)
    requires Ordered(top) && Read(EMPTY, None, Save(top, 0), false) == Loaded(top, "")
    ensures Loadable(top)
  {
    ReadYieldsPlain(EMPTY, None, Save(top, 0), false);
    ReadCounts(EMPTY, None, Save(top, 0), false);
    InsertedTop(top);
    FitTopAll(top);
    EmptyCounts();
  }

  lemma BodyLoadsExactly(top: Tree)
    requires Ordered(top)
    ensures Read(EMPTY, None, Save(top, 0), false) == Loaded(top, "") <==> Loadable(top)
  {
    if Loadable(top) {
      LoadableIsRead(top);
    } else if Read(EMPTY, None, Save(top, 0), false) == Loaded(top, "") {
      ReadIsLoadable(top);
    }
  }

  // ------------------------------------------------------------- the header

  /** A line that changes nothing while it is not the last one. */
  predicate Silent(line: string) {
    IsComment(line) || (!IsBegin(line) && !IsEnd(line) && Declared(line).None?)
  }

  predicate AllSilent(text: string)
    decreases |text|
  {
    text != "" ==> Silent(ReadLine(text).0) && AllSilent(ReadLine(text).1)
  }

  /** The caller's header is one comment, or its further lines say nothing. */
  predicate GoodHeader(header: Option<string>) {
    AllSilent(SaveHeader(header))
  }

  predicate Ended(text: string) {
    text != "" ==> text[|text| - 1] == '\n'
  }

  lemma {:induction false} ReadLineWithin(text: string, rest: string)
    requires text != "" && Ended(text)
    ensures ReadLine(text + rest) == (ReadLine(text).0, ReadLine(text).1 + rest)
    ensures Ended(ReadLine(text).1)
    decreases |text|
  {
    var all := text + rest;
    if text[0] == '\n' || text[0] == '\r' {
      assert AfterEnd(all) == AfterEnd(text) + rest;
    } else {
      assert all[1..] == text[1..] + rest;
      ReadLineWithin(text[1..], rest);
    }
  }

  lemma {:induction false} SilentIsSkipped(text: string, rest: string)
    requires Ended(text) && AllSilent(text) && rest != ""
    ensures Read(EMPTY, None, text + rest, false) == Read(EMPTY, None, rest, false)
    decreases |text|
  {
    if text == "" {
      assert "" + rest == rest;
    } else {
      ReadLineWithin(text, rest);
      SilentIsSkipped(ReadLine(text).1, rest);
    }
  }

  /** Reading takes nothing out of a section. */
  lemma {:induction false} ReadGrows(s: Tree, last: Option<string>, text: string, finish: bool)
    ensures var o := Read(s, last, text, finish);
            !o.Undefined? ==> |o.tree.keys| >= |s.keys| && |o.tree.subs| >= |s.subs|
    decreases |text|
  {
    var (line, rest) := NextLine(text);
    InsertLineGrows(s, line);
    if !IsEnd(line) && rest != "" {
      if IsBegin(line) {
        var t := Add(s, NameOf(line));
        NotShorter(s.subs, NameOf(line), EMPTY);
        var i := Found(t, NameOf(line), last);
        if i < |t.subs| {
          var r := Read(t.subs[i].value, None, rest, true);
          if r.Loaded? {
            ReadGrows(WithSub(t, i, r.tree), Some(t.subs[i].key), r.rest, finish);
          }
        }
      } else {
        ReadGrows(InsertLine(s, line), last, rest, finish);
      }
    }
  }

  lemma {:induction false} NotShorter<T>(m: seq<Entry<T>>, key: string, value: T)
    ensures |Insert(m, key, value)| >= |m| && Insert(m, key, value) != []
  {
    if m != [] {
      NotShorter(m[1..], key, value);
    }
  }

  lemma InsertLineGrows(s: Tree, line: string)
    ensures var t := InsertLine(s, line);
            t.subs == s.subs && |t.keys| >= |s.keys| && (Declared(line).Some? ==> t.keys != [])
  {
    var d := Declared(line);
    if d.Some? {
      NotShorter(s.keys, d.value.0, d.value.1);
    }
  }

  /** What opens a section in front of a saved file leaves a section in what is read, or
      reading fails. */
  lemma BeginIsNoted(line: string, text: string)
    requires !IsComment(line) && !IsEnd(line) && IsBegin(line) && text != "" && NextLine(text).0 == line
             && NextLine(text).1 != ""
    ensures Read(EMPTY, None, text, false) != Loaded(EMPTY, "")
  {
    var t := Add(EMPTY, NameOf(line));
    NotShorter(EMPTY.subs, NameOf(line), EMPTY);
    var i := Found(t, NameOf(line), None);
    if i < |t.subs| {
      var r := Read(t.subs[i].value, None, NextLine(text).1, true);
      if r.Loaded? {
        ReadGrows(WithSub(t, i, r.tree), Some(t.subs[i].key), r.rest, false);
      }
    }
  }

  lemma {:induction false} SilentIsNeeded(text: string, rest: string)
    requires Ended(text) && rest != "" && Read(EMPTY, None, text + rest, false) == Loaded(EMPTY, "")
    ensures AllSilent(text)
    decreases |text|
  {
    if text != "" {
      var all, line := text + rest, ReadLine(text).0;
      ReadLineWithin(text, rest);
      if !IsComment(line) {
        assert NextLine(all) == ReadLine(all);
        if IsBegin(line) && !IsEnd(line) {
          BeginIsNoted(line, all);
        } else if Declared(line).Some? && !IsEnd(line) {
          InsertLineGrows(EMPTY, line);
          ReadGrows(InsertLine(EMPTY, line), None, ReadLine(all).1, false);
        }
      }
      SilentIsNeeded(ReadLine(text).1, rest);
    }
  }

  lemma HeadIs(header: Option<string>, version: string, top: Tree)
    ensures SaveFile(header, version, top) == SaveHeader(header)
            + (Line(CommentLine(CreatedBy(version), 0)) + Save(top, 0))
  {
    Regroup3(SaveHeader(header), Line(CommentLine(CreatedBy(version), 0)), Save(top, 0));
  }

  /** The comment that saving puts in front is skipped. */
  lemma CreatedIsSkipped(s: Tree, version: string, body: string)
    requires NoBreak(version)
    ensures Read(s, None, Line(CommentLine(CreatedBy(version), 0)) + body, false) == Read(s, None, body, false)
  {
    CreatedHasNoBreak(version);
    SkipComment(s, None, CreatedBy(version), 0, body, false);
  }

  lemma CreatedHasNoBreak(version: string)
    requires NoBreak(version)
    ensures NoBreak(CreatedBy(version))
  {
  }

  /** An empty database is loaded as it was saved exactly if the further lines of the header
      say nothing. */
  lemma HeaderLoadsExactly(header: Option<string>, version: string)
    requires NoBreak(version)
    ensures Read(EMPTY, None, SaveFile(header, version, EMPTY), false) == Loaded(EMPTY, "") <==> GoodHeader(header)
  {
    var rest := Line(CommentLine(CreatedBy(version), 0)) + Save(EMPTY, 0);
    HeadIs(header, version, EMPTY);
    CreatedIsSkipped(EMPTY, version, Save(EMPTY, 0));
    ReadNothing(EMPTY, None);
    assert Save(EMPTY, 0) == "";
    if GoodHeader(header) {
      SilentIsSkipped(SaveHeader(header), rest);
    } else if Read(EMPTY, None, SaveFile(header, version, EMPTY), false) == Loaded(EMPTY, "") {
      SilentIsNeeded(SaveHeader(header), rest);
    }
  }

  /** Loading what was saved gives the same database, with the file read to its end, exactly
      when its names are good and its lines show its keys and values. */
  lemma LoadSaved(header: Option<string>, version: string, top: Tree)
    requires Ordered(top) && GoodHeader(header) && NoBreak(version)
    ensures Read(EMPTY, None, SaveFile(header, version, top), false) == Loaded(top, "") <==> Loadable(top)
  {
    var created := Line(CommentLine(CreatedBy(version), 0));
    HeadIs(header, version, top);
    SilentIsSkipped(SaveHeader(header), created + Save(top, 0));
    CreatedIsSkipped(EMPTY, version, Save(top, 0));
    BodyLoadsExactly(top);
  }

  // ----------------------------------------------------------- quoted values

  /** All values are quoted, as the encoders make them of texts without a carriage return. */
  ghost predicate QuotedTree(s: Tree)
    decreases s, 1
  {
    (forall e <- s.keys :: Quoted(e.value)) && QuotedSubs(s)
  }

  ghost predicate QuotedSubs(s: Tree)
    decreases s, 0
  {
    forall i :: 0 <= i < |s.subs| ==> QuotedTree(s.subs[i].value)
  }

  /** All names and keys follow the rules of the lines. */
  ghost predicate WellNamed(s: Tree)
    decreases s, 1
  {
    (forall e <- s.keys :: GoodKey(e.key)) && WellNamedSubs(s)
  }

  ghost predicate WellNamedSubs(s: Tree)
    decreases s, 0
  {
    forall i :: 0 <= i < |s.subs| ==> GoodName(s.subs[i].key) && WellNamed(s.subs[i].value)
  }

  lemma QuotedIsShown(e: Entry<string>)
    requires Quoted(e.value)
    ensures (Shown(e) <==> GoodKey(e.key)) && (ShownLast(e) <==> GoodKey(e.key))
  {
    QuotedIsFlat(e.key, e.value);
  }

  lemma {:induction false} WellNamedIs(s: Tree)
    requires QuotedTree(s)
    ensures GoodTree(s) <==> WellNamed(s)
    ensures GoodSubs(s) <==> WellNamedSubs(s)
    decreases s
  {
    forall e | e in s.keys ensures Shown(e) <==> GoodKey(e.key) {
      QuotedIsShown(e);
    }
    assert QuotedSubs(s);
    forall i | 0 <= i < |s.subs| ensures GoodTree(s.subs[i].value) <==> WellNamed(s.subs[i].value) {
      WellNamedIs(s.subs[i].value);
    }
  }

  /** Of quoted values, a database is loaded as it was saved exactly when all its names and
      keys follow the rules. */
  lemma LoadQuoted(header: Option<string>, version: string, top: Tree)
    requires Ordered(top) && GoodHeader(header) && NoBreak(version) && QuotedTree(top)
    ensures Read(EMPTY, None, SaveFile(header, version, top), false) == Loaded(top, "") <==> WellNamed(top)
  {
    LoadSaved(header, version, top);
    WellNamedIs(top);
    forall i | 0 <= i < |top.keys|
      ensures (Shown(top.keys[i]) <==> GoodKey(top.keys[i].key))
              && (ShownLast(top.keys[i]) <==> GoodKey(top.keys[i].key))
    {
      QuotedIsShown(top.keys[i]);
    }
  }

  // --------------------------------------------------- what does not come back

  lemma EmptyFirst(text: string)
    ensures "" + text == text && text + "" == text
  {
  }

  lemma NoHeader(version: string, top: Tree)
    requires NoBreak(version)
    ensures Read(EMPTY, None, SaveFile(None, version, top), false) == Read(EMPTY, None, Save(top, 0), false)
  {
    HeadIs(None, version, top);
    CreatedIsSkipped(EMPTY, version, Save(top, 0));
    EmptyFirst(Line(CommentLine(CreatedBy(version), 0)) + Save(top, 0));
  }

  lemma OneKeyPart(e: Entry<string>)
    ensures SaveKeyPart([e], 0) == Line(CommentLine("key-value-pairs:", 0)) + Line(KeyLine(e.key, e.value, 0))
  {
    assert [e][1..] == [];
    assert SaveKeys([e][1..], 0) == "";
    EmptyFirst(Line(KeyLine(e.key, e.value, 0)));
  }

  /** Saving a section with a single key. */
  lemma OneKeyIs(e: Entry<string>)
    ensures Read(EMPTY, None, Save(Tree([e], []), 0), false)
            == Read(EMPTY, None, Line(KeyLine(e.key, e.value, 0)), false)
  {
    var t := Tree([e], []);
    EmptyFirst("");
    EmptyFirst(SaveKeyPart([e], 0));
    assert SaveSubs(t, 0, 0) == "";
    assert Save(t, 0) == SaveKeyPart([e], 0);
    OneKeyPart(e);
    SkipComment(EMPTY, None, "key-value-pairs:", 0, Line(KeyLine(e.key, e.value, 0)), false);
  }

  /** A key that starts with "#" is lost. */
  lemma HashKeyIsLost(version: string)
    requires NoBreak(version)
    ensures Read(EMPTY, None, SaveFile(None, version, Tree([Entry("#k", "\"v\"")], [])), false) == Loaded(EMPTY, "")
  {
    var e := Entry("#k", "\"v\"");
    NoHeader(version, Tree([e], []));
    OneKeyIs(e);
    EmptyFirst(Line(KeyLine(e.key, e.value, 0)));
    ReadHashLine(EMPTY, None, e.key, e.value, 0, "", false);
    ReadNothing(EMPTY, None);
  }

  lemma {:induction false} ReadLineCut(line: string, rest: string)
    requires NoBreak(line) && rest != "" && rest[0] != '\n'
    ensures ReadLine(line + ("\r" + rest)) == (line, rest)
    decreases |line|
  {
    var text := line + ("\r" + rest);
    if line == "" {
      EmptyFirst("\r" + rest);
      assert text[1..] == rest;
    } else {
      assert text[0] == line[0] && text[1..] == line[1..] + ("\r" + rest);
      ReadLineCut(line[1..], rest);
      assert line == [line[0]] + line[1..];
    }
  }

  /** A line ends alike at a newline, at a carriage return, and at both together. */
  lemma {:induction false} LinesEndAlike(line: string, rest: string)
    requires NoBreak(line)
    ensures ReadLine(line + ("\n" + rest)) == (line, rest) && ReadLine(line + ("\r\n" + rest)) == (line, rest)
    ensures rest != "" && rest[0] != '\n' ==> ReadLine(line + ("\r" + rest)) == (line, rest)
    decreases |line|
  {
    if line == "" {
      EmptyFirst("\n" + rest);
      EmptyFirst("\r\n" + rest);
      assert ("\n" + rest)[1..] == rest && ("\r\n" + rest)[2..] == rest;
    } else {
      assert (line + ("\n" + rest))[1..] == line[1..] + ("\n" + rest);
      assert (line + ("\r\n" + rest))[1..] == line[1..] + ("\r\n" + rest);
      LinesEndAlike(line[1..], rest);
      assert line == [line[0]] + line[1..];
    }
    if rest != "" && rest[0] != '\n' {
      ReadLineCut(line, rest);
    }
  }

  /** A key line that is cut by a carriage return. */
  lemma CutKeyIs(s: Tree, k: string, v: string, rest: string)
    requires Shown(Entry(k, v)) && rest != "" && rest[0] != '\n'
    ensures Read(s, None, KeyLine(k, v, 0) + ("\r" + rest), false)
            == Read(s.(keys := Insert(s.keys, k, v)), None, rest, false)
  {
    GoodKeyReads(k, v, 0);
    KeyLineHasNoBreak(Entry(k, v), 0);
    ReadLineCut(KeyLine(k, v, 0), rest);
  }

  lemma CutLine()
    ensures Line(KeyLine("k", "\"a\rb\"", 0)) == KeyLine("k", "\"a", 0) + ("\r" + Line("b\""))
    ensures Shown(Entry("k", "\"a"))
  {
    EndIsFlat("k" + "=" + "\"a");
  }

  /** Of a text with a carriage return, only what is in front of it comes back, with the quote
      that begins the code. */
  lemma ReturnCutsValue(version: string)
    requires NoBreak(version)
    ensures var saved := Tree([Entry("k", Encode("a\rb"))], []);
            Read(EMPTY, None, SaveFile(None, version, saved), false) == Loaded(Tree([Entry("k", "\"a")], []), "")
  {
    var e := Entry("k", "\"a\rb\"");
    EncodedReturn();
    NoHeader(version, Tree([e], []));
    OneKeyIs(e);
    CutLine();
    CutKeyIs(EMPTY, "k", "\"a", Line("b\""));
    LastPiece(Tree([Entry("k", "\"a")], []));
  }

  lemma EncodedReturn()
    ensures Encode("a\rb") == "\"a\rb\""
  {
    var s := "a\rb";
    assert s[1..] == "\rb" && s[1..][1..] == "b" && s[1..][1..][1..] == "";
    assert Body("b") == "b" && Body("\rb") == "\rb";
  }

  /** What is left of the cut line declares nothing. */
  lemma LastPiece(s: Tree)
    ensures Read(s, None, Line("b\""), false) == Loaded(s, "")
  {
    var line := "b\"";
    PieceIs(line);
    EmptyFirst(Line(line));
    NextLineOf(line, "");
  }

  lemma PieceIs(line: string)
    requires line == "b\""
    ensures !IsComment(line) && !IsBegin(line) && !IsEnd(line) && Declared(line).None?
  {
    StripRightKeepsFirst(line);
    EndIsFlat(line);
    assert line[1..] == "\"" && line[1..][1..] == "";
  }

  lemma TwoLines()
    ensures SaveHeader(Some("a\nb=c")) == Line(CommentLine("a", 0)) + Line(KeyLine("b", "c", 0))
    ensures Shown(Entry("b", "c"))
  {
    EndIsFlat("b" + "=" + "c");
  }

  lemma HeaderLines(rest: string)
    ensures Read(EMPTY, None, SaveHeader(Some("a\nb=c")) + rest, false)
            == Read(Tree([Entry("b", "c")], []), None, rest, false)
  {
    TwoLines();
    var comment, line := Line(CommentLine("a", 0)), Line(KeyLine("b", "c", 0));
    Regroup3(comment, line, rest);
    SkipComment(EMPTY, None, "a", 0, line + rest, false);
    ReadKeyLine(EMPTY, None, "b", "c", 0, rest, false);
  }

  /** A header of two lines brings a key into the database. */
  lemma HeaderBringsKey(version: string)
    requires NoBreak(version)
    ensures Read(EMPTY, None, SaveFile(Some("a\nb=c"), version, EMPTY), false)
            == Loaded(Tree([Entry("b", "c")], []), "")
  {
    var created, t := Line(CommentLine(CreatedBy(version), 0)), Tree([Entry("b", "c")], []);
    HeadIs(Some("a\nb=c"), version, EMPTY);
    assert Save(EMPTY, 0) == "";
    HeaderLines(created + Save(EMPTY, 0));
    CreatedIsSkipped(t, version, Save(EMPTY, 0));
    ReadNothing(t, None);
  }
}
