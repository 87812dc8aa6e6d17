/** String lists of the configuration database: complex strings run together, each
    ended by "\e". */
module ConfigLists {
  import opened Options
  import opened ConfigCodec

  const END := "\\e"

  function ListBody(xs: seq<string>): string {
    if xs == [] then "" else Body(xs[0]) + END + ListBody(xs[1..])
  }

  function EncodeList(xs: seq<string>): string {
    "\"" + ListBody(xs) + "\""
  }

  /** The distance to the next "\e" in `s` whose backslash does not follow a
      backslash; `prev` is the character before `s`. */
  function EndDistance(prev: char, s: string): (n: nat)
    ensures n <= |s|
    ensures n < |s| ==> n + 1 < |s| && s[n] == '\\' && s[n + 1] == 'e'
    decreases |s|
  {
    if s == "" then 0
    else if s[0] == '\\' && |s| > 1 && s[1] == 'e' && prev != '\\' then 0
    else 1 + EndDistance(s[0], s[1..])
  }

  /** The position of the end of the item at `first`, or the end of the text. */
  function EndAt(raw: string, first: nat): (second: nat)
    requires 1 <= first <= |raw|
    ensures first <= second <= |raw|
    ensures second < |raw| ==> second + 1 < |raw| && raw[second] == '\\' && raw[second + 1] == 'e'
  {
    first + EndDistance(raw[first - 1], raw[first..])
  }

  function ItemAt(raw: string, first: nat): Decoded
    requires 1 <= first <= |raw|
  {
    Decode("\"" + raw[first..EndAt(raw, first)] + "\"", 0)
  }

  function Follow(item: Decoded, more: Option<seq<string>>): Option<seq<string>> {
    if item.None? || more.None? then None else Some([item.value.0] + more.value)
  }

  /** The items from position `first` on. */
  function Items(raw: string, first: nat): Option<seq<string>>
    requires 1 <= first <= |raw|
    decreases |raw| - first
  {
    var second := EndAt(raw, first);
    if second == |raw| then Some([]) else Follow(ItemAt(raw, first), ItemsAfter(raw, second))
  }

  /** The items after the end mark at `second`. */
  function ItemsAfter(raw: string, second: nat): Option<seq<string>>
    requires second + 2 <= |raw|
    decreases |raw| - second, 0
  {
    if second >= |raw| - 3 then Some([]) else Items(raw, second + 2)
  }

  function DecodeList(raw: string): Option<seq<string>> {
    if raw == "" then Some([]) else Items(raw, 1)
  }

  predicate EndsInBackslash(s: string) {
    s != "" && s[|s| - 1] == '\\'
  }

  /** What decoding makes of a list: an item that ends in a backslash is joined
      to the next one by a literal "\e", or lost if there is none. */
  function Glued(pending: string, xs: seq<string>): seq<string>
    decreases |xs|
  {
    if xs == [] then []
    else if EndsInBackslash(xs[0]) then Glued(pending + xs[0] + END, xs[1..])
    else [pending + xs[0]] + Glued("", xs[1..])
  }

  function LastOf(prev: char, s: string): char {
    if s == "" then prev else s[|s| - 1]
  }

  /** No "\e" begins inside an escaped character. */
  lemma EscapeHidesNoEnd(prev: char, c: char, tail: string)
    ensures EndDistance(prev, Escape(c) + tail) == |Escape(c)| + EndDistance(LastOf(prev, Escape(c)), tail)
    ensures LastOf(prev, Escape(c)) == '\\' <==> c == '\\'
  {
    var e := Escape(c);
    var m := e + tail;
    if |e| == 2 {
      assert m[0] == '\\' && m[1] == e[1] && m[1..] == [e[1]] + tail;
      assert e[1] != 'e';
      assert ([e[1]] + tail)[1..] == tail;
    } else {
      assert m[0] == c && m[1..] == tail;
    }
  }

  lemma {:induction false} BodyHidesNoEnd(prev: char, s: string, rest: string)
    ensures EndDistance(prev, Body(s) + rest) == |Body(s)| + EndDistance(LastOf(prev, Body(s)), rest)
    ensures LastOf(prev, Body(s)) == '\\' <==> (if s == "" then prev == '\\' else EndsInBackslash(s))
    decreases |s|
  {
    if s == "" {
      assert Body(s) + rest == rest;
    } else {
      var e := Escape(s[0]);
      var tail := Body(s[1..]) + rest;
      assert Body(s) + rest == e + tail;
      EscapeHidesNoEnd(prev, s[0], tail);
      BodyHidesNoEnd(LastOf(prev, e), s[1..], rest);
      assert LastOf(prev, Body(s)) == LastOf(LastOf(prev, e), Body(s[1..]));
    }
  }

  // ------------------------------------------------------------- round trip

  lemma {:induction false} ListBodyConcat(xs: seq<string>, ys: seq<string>)
    ensures ListBody(xs + ys) == ListBody(xs) + ListBody(ys)
  {
    if xs == [] {
      assert xs + ys == ys;
    } else {
      assert (xs + ys)[1..] == xs[1..] + ys;
      ListBodyConcat(xs[1..], ys);
    }
  }

  /** Items that were not recognised as such, since each ends in a backslash. */
  predicate Unended(ps: seq<string>) {
    forall p :: p in ps ==> EndsInBackslash(p)
  }

  function Joined(ps: seq<string>): string {
    if ps == [] then "" else Joined(ps[..|ps| - 1]) + ps[|ps| - 1] + END
  }

  lemma {:induction false} UnendedScan(ps: seq<string>, rest: string)
    ensures Scan(ListBody(ps) + rest) == Prepend(Joined(ps), |ListBody(ps)|, Scan(rest))
    decreases |ps|
  {
    if ps == [] {
      assert ListBody(ps) + rest == rest;
      if Scan(rest).Some? {
        assert "" + Scan(rest).value.0 == Scan(rest).value.0;
      }
    } else {
      var front, last := ps[..|ps| - 1], ps[|ps| - 1];
      var tail := Body(last) + (END + rest);
      LastItem(ps, rest);
      UnendedScan(front, tail);
      UnendedItem(last, rest);
      PrependTwice(Joined(front), |ListBody(front)|, last + END, |Body(last)| + 2, Scan(rest));
      assert Joined(front) + (last + END) == Joined(ps);
    }
  }

  lemma LastItem(ps: seq<string>, rest: string)
    requires ps != []
    ensures var front, last := ps[..|ps| - 1], ps[|ps| - 1];
            |ListBody(ps)| == |ListBody(front)| + |Body(last)| + 2 &&
            ListBody(ps) + rest == ListBody(front) + (Body(last) + (END + rest))
  {
    var front, last := ps[..|ps| - 1], ps[|ps| - 1];
    assert ps == front + [last];
    ListBodyConcat(front, [last]);
    ListBodyOne(last);
  }

  lemma UnendedItem(x: string, rest: string)
    ensures Scan(Body(x) + (END + rest)) == Prepend(x + END, |Body(x)| + 2, Scan(rest))
  {
    ScanBody(x, END + rest);
    assert (END + rest)[2..] == rest;
    assert Scan(END + rest) == Prepend(END, 2, Scan(rest));
    PrependTwice(x, |Body(x)|, END, 2, Scan(rest));
  }

  lemma {:induction false} UnendedHidesNoEnd(prev: char, ps: seq<string>, rest: string)
    requires Unended(ps)
    ensures EndDistance(prev, ListBody(ps) + rest)
         == |ListBody(ps)| + EndDistance(if ps == [] then prev else 'e', rest)
    decreases |ps|
  {
    if ps == [] {
      assert ListBody(ps) + rest == rest;
    } else {
      assert EndsInBackslash(ps[0]);
      var tail := ListBody(ps[1..]) + rest;
      assert ListBody(ps) + rest == Body(ps[0]) + (END + tail);
      BodyHidesNoEnd(prev, ps[0], END + tail);
      assert (END + tail)[1..] == "e" + tail && ("e" + tail)[1..] == tail;
      assert EndDistance('\\', END + tail) == 2 + EndDistance('e', tail);
      UnendedHidesNoEnd('e', ps[1..], rest);
    }
  }

  /** The next item ends where its own code ends. */
  lemma NextEnd(prev: char, ps: seq<string>, x: string, rest: string)
    requires Unended(ps) && prev != '\\' && !EndsInBackslash(x)
    ensures EndDistance(prev, ListBody(ps) + (Body(x) + (END + rest))) == |ListBody(ps)| + |Body(x)|
  {
    UnendedHidesNoEnd(prev, ps, Body(x) + (END + rest));
    BodyHidesNoEnd(if ps == [] then prev else 'e', x, END + rest);
  }

  lemma StripQuoted(s: string)
    ensures Strip("\"" + s + "\"") == "\"" + s + "\""
  {
  }

  lemma ItemDecodes(ps: seq<string>, x: string)
    ensures var d := Decode("\"" + (ListBody(ps) + Body(x)) + "\"", 0);
            d.Some? && d.value.0 == Joined(ps) + x
  {
    var part := "\"" + (ListBody(ps) + Body(x)) + "\"";
    StripQuoted(ListBody(ps) + Body(x));
    assert part[0..] == part;
    QuotedTail(ListBody(ps), Body(x));
    ItemScans(ps, x);
  }

  lemma QuotedTail(a: string, b: string)
    ensures ("\"" + (a + b) + "\"")[1..] == a + (b + ("\"" + ""))
  {
  }

  lemma ItemScans(ps: seq<string>, x: string)
    ensures var d := Scan(ListBody(ps) + (Body(x) + ("\"" + "")));
            d.Some? && d.value.0 == Joined(ps) + x
  {
    ScanEncoded(x, "");
    UnendedScan(ps, Body(x) + ("\"" + ""));
  }

  lemma {:induction false} ItemsGlued(raw: string, first: nat, ps: seq<string>, xs: seq<string>)
    requires 1 <= first <= |raw| && raw[first - 1] != '\\'
    requires Unended(ps) && raw[first..] == ListBody(ps + xs) + "\""
    ensures Items(raw, first) == Some(Glued(Joined(ps), xs))
    decreases |xs|, 2
  {
    ListBodyConcat(ps, xs);
    if xs == [] {
      UnendedHidesNoEnd(raw[first - 1], ps, "\"");
      assert raw[first..] == ListBody(ps) + "\"";
    } else if EndsInBackslash(xs[0]) {
      assert ps + xs == (ps + [xs[0]]) + xs[1..];
      assert (ps + [xs[0]])[..|ps|] == ps;
      ItemsGlued(raw, first, ps + [xs[0]], xs[1..]);
    } else {
      var rest := ListBody(xs[1..]) + "\"";
      assert ListBody(ps) + ListBody(xs) + "\"" == ListBody(ps) + (Body(xs[0]) + (END + rest));
      ItemThenRest(raw, first, ps, xs);
    }
  }

  /** The text at `first` splits at the end of the item that is due. */
  lemma ItemSplit(raw: string, first: nat, ps: seq<string>, x: string, rest: string)
    requires 1 <= first <= |raw| && raw[first - 1] != '\\'
    requires Unended(ps) && !EndsInBackslash(x)
    requires raw[first..] == ListBody(ps) + (Body(x) + (END + rest))
    ensures var second := EndAt(raw, first);
            && second + 2 + |rest| == |raw|
            && raw[first..second] == ListBody(ps) + Body(x)
            && raw[second + 2..] == rest
  {
    var code := ListBody(ps) + Body(x);
    NextEnd(raw[first - 1], ps, x, rest);
    assert raw[first..] == code + (END + rest);
    assert EndAt(raw, first) == first + |code|;
    SplitAt(raw, first, code, rest);
  }

  lemma SplitAt(raw: string, first: nat, code: string, rest: string)
    requires first <= |raw| && raw[first..] == code + (END + rest)
    ensures first + |code| + 2 + |rest| == |raw|
    ensures raw[first..first + |code|] == code && raw[first + |code| + 2..] == rest
  {
    assert raw[first..][..|code|] == code;
    assert raw[first..][|code| + 2..] == rest;
  }

  lemma {:induction false} ItemThenRest(raw: string, first: nat, ps: seq<string>, xs: seq<string>)
    requires 1 <= first <= |raw| && raw[first - 1] != '\\'
    requires Unended(ps) && xs != [] && !EndsInBackslash(xs[0])
    requires raw[first..] == ListBody(ps) + (Body(xs[0]) + (END + (ListBody(xs[1..]) + "\"")))
    ensures Items(raw, first) == Some([Joined(ps) + xs[0]] + Glued("", xs[1..]))
    decreases |xs|, 1
  {
    ItemSplit(raw, first, ps, xs[0], ListBody(xs[1..]) + "\"");
    ItemDecodes(ps, xs[0]);
    RestDecodes(raw, EndAt(raw, first), xs[1..]);
  }

  lemma {:induction false} RestDecodes(raw: string, second: nat, xs: seq<string>)
    requires second + 2 <= |raw| && raw[second + 1] == 'e'
    requires raw[second + 2..] == ListBody(xs) + "\""
    ensures ItemsAfter(raw, second) == Some(Glued("", xs))
    decreases |xs|, 3
  {
    if xs != [] {
      assert [] + xs == xs;
      ItemsGlued(raw, second + 2, [], xs);
    }
  }

  /** What decoding makes of an encoded list, whatever its items. */
  lemma ListDecodes(xs: seq<string>)
    ensures DecodeList(EncodeList(xs)) == Some(Glued("", xs))
  {
    var raw := EncodeList(xs);
    assert raw[1..] == ListBody([] + xs) + "\"" by {
      assert [] + xs == xs;
    }
    ItemsGlued(raw, 1, [], xs);
  }

  lemma {:induction false} GluedKeeps(xs: seq<string>)
    requires forall x :: x in xs ==> !EndsInBackslash(x)
    ensures Glued("", xs) == xs
  {
    if xs != [] {
      assert xs[0] in xs;
      GluedKeeps(xs[1..]);
      assert "" + xs[0] == xs[0];
      assert xs == [xs[0]] + xs[1..];
    }
  }

  lemma {:induction false} GluedShrinks(pending: string, xs: seq<string>)
    ensures |Glued(pending, xs)| <= |xs|
    ensures (exists x :: x in xs && EndsInBackslash(x)) ==> |Glued(pending, xs)| < |xs|
    decreases |xs|
  {
    if xs != [] {
      if EndsInBackslash(xs[0]) {
        GluedShrinks(pending + xs[0] + END, xs[1..]);
      } else {
        GluedShrinks("", xs[1..]);
        if x :| x in xs && EndsInBackslash(x) {
          assert x in xs[1..];
        }
      }
    }
  }

  /** Decoding an encoded list gives the list back exactly when no item ends with
      a backslash; every other list comes back shorter. */
  lemma ListRoundTripExactly(xs: seq<string>)
    ensures DecodeList(EncodeList(xs)) == Some(xs) <==> forall x :: x in xs ==> !EndsInBackslash(x)
  {
    ListDecodes(xs);
    if forall x :: x in xs ==> !EndsInBackslash(x) {
      GluedKeeps(xs);
    } else {
      GluedShrinks("", xs);
    }
  }

  lemma BackslashJoinsItems(x: string, y: string)
    requires EndsInBackslash(x) && !EndsInBackslash(y)
    ensures DecodeList(EncodeList([x, y])) == Some([x + END + y])
  {
    var xs := [x, y];
    ListDecodes(xs);
    var ys := [y];
    assert xs[0] == x && xs[1..] == ys;
    assert ys[0] == y && ys[1..] == [];
    assert "" + x + END == x + END;
    assert Glued("", xs) == Glued(x + END, ys);
    var all := [x + END + y];
    assert Glued(x + END, ys) == all + Glued("", ys[1..]);
    assert all + [] == all;
  }

  predicate HasReturn(xs: seq<string>) {
    exists i :: 0 <= i < |xs| && '\r' in xs[i]
  }

  lemma {:induction false} ListBodyOneLine(xs: seq<string>)
    ensures '\n' !in ListBody(xs) && ('\r' in ListBody(xs) <==> HasReturn(xs))
  {
    if xs != [] {
      NoNewline(xs[0]);
      ListBodyOneLine(xs[1..]);
      assert HasReturn(xs) <==> '\r' in xs[0] || HasReturn(xs[1..]) by {
        if i :| 0 <= i < |xs[1..]| && '\r' in xs[1..][i] {
          assert '\r' in xs[i + 1];
        }
        if i :| 0 < i < |xs| && '\r' in xs[i] {
          assert '\r' in xs[1..][i - 1];
        }
      }
    }
  }

  lemma ListOneLine(xs: seq<string>)
    ensures '\n' !in EncodeList(xs) && ('\r' in EncodeList(xs) <==> HasReturn(xs))
    ensures |EncodeList(xs)| >= 2 && EncodeList(xs)[0] == '\"' && EncodeList(xs)[|EncodeList(xs)| - 1] == '\"'
  {
    ListBodyOneLine(xs);
  }

  // ---------------------------------------------------------------- methods

  lemma ListBodyOne(x: string)
    ensures ListBody([x]) == Body(x) + END
  {
    assert [x][1..] == [];
    assert Body(x) + END + "" == Body(x) + END;
  }

  lemma ListBodySnoc(xs: seq<string>, n: nat)
    requires n < |xs|
    ensures ListBody(xs[..n + 1]) == ListBody(xs[..n]) + Body(xs[n]) + END
  {
    assert xs[..n + 1] == xs[..n] + [xs[n]];
    ListBodyConcat(xs[..n], [xs[n]]);
    ListBodyOne(xs[n]);
    assert ListBody(xs[..n]) + (Body(xs[n]) + END) == ListBody(xs[..n]) + Body(xs[n]) + END;
  }

  /** The code of an item, without the quotes around it. */
  method ItemCode(x: string) returns (temp: string)
    ensures temp == Body(x)
  {
    temp := MakeComplexString(x);
    temp := temp[1..];
    temp := temp[..|temp| - 1];
  }

  method InsertList(values: seq<string>) returns (value: string)
    ensures value == EncodeList(values)
  {
    value := "\"";
    var pos := 0;
    while pos < |values|
      invariant pos <= |values|
      invariant value == "\"" + ListBody(values[..pos])
    {
      value := AppendItem(values, pos, value);
      pos := pos + 1;
    }
    assert values[..pos] == values;
    value := value + "\"";
  }

  method AppendItem(values: seq<string>, pos: nat, value: string) returns (r: string)
    requires pos < |values| && value == "\"" + ListBody(values[..pos])
    ensures r == "\"" + ListBody(values[..pos + 1])
  {
    var temp := ItemCode(values[pos]);
    ListBodySnoc(values, pos);
    r := value + temp;
    r := r + END;
    Regroup4("\"", ListBody(values[..pos]), temp, END);
  }

  lemma Regroup4(a: string, b: string, c: string, d: string)
    ensures a + b + c + d == a + (b + c + d)
  {
  }

  /** TQCString::find: the first `c` at or after `index`, or -1. */
  method Find(s: string, c: char, index: nat) returns (pos: int)
    ensures pos == -1 ==> forall k :: index <= k < |s| ==> s[k] != c
    ensures pos != -1 ==> index <= pos < |s| && s[pos] == c && forall k :: index <= k < pos ==> s[k] != c
  {
    pos := index;
    while pos < |s|
      invariant index <= pos
      invariant forall k :: index <= k < pos && k < |s| ==> s[k] != c
    {
      if s[pos] == c {
        return;
      }
      pos := pos + 1;
    }
    pos := -1;
  }

  lemma {:induction false} EndAtSkips(raw: string, i: nat, j: nat)
    requires 1 <= i <= j <= |raw|
    requires forall k :: i <= k < j ==> raw[k] != '\\'
    ensures EndAt(raw, i) == EndAt(raw, j)
    decreases j - i
  {
    if i < j {
      assert raw[i..][0] == raw[i] && raw[i..][1..] == raw[i + 1..];
      EndAtSkips(raw, i + 1, j);
    }
  }

  method FindEnd(raw: string, first: nat) returns (second: int)
    requires first >= 1
    ensures second == -1 <==> first >= |raw| || EndAt(raw, first) == |raw|
    ensures second != -1 ==> second == EndAt(raw, first)
  {
    second := first;
    while true
      invariant first <= second
      invariant first <= |raw| ==> second <= |raw| && EndAt(raw, first) == EndAt(raw, second)
      decreases |raw| - second
    {
      ghost var was := second;
      second := Find(raw, '\\', second);
      if second != -1 {
        EndAtSkips(raw, was, second);
        assert raw[second..][0] == raw[second] && raw[second..][1..] == raw[second + 1..];
        if second + 1 < |raw| && raw[second + 1] == 'e' && raw[second - 1] != '\\' {
          break;
        } else {
          second := second + 1;
        }
      } else {
        if first <= |raw| {
          EndAtSkips(raw, was, |raw|);
        }
        break;
      }
    }
  }

  /** The item at `first`, if the text has one more end mark. */
  method NextItem(raw: string, first: nat) returns (second: int, parsed: bool, value: string)
    requires first >= 1
    ensures second == -1 <==> first >= |raw| || EndAt(raw, first) == |raw|
    ensures second != -1 ==> second == EndAt(raw, first)
    ensures second != -1 ==> parsed == ItemAt(raw, first).Some?
    ensures second != -1 && parsed ==> value == ItemAt(raw, first).value.0
  {
    parsed, value := false, "";
    second := FindEnd(raw, first);
    if second != -1 {
      var part := "\"" + raw[first..second] + "\"";
      var i;
      parsed, value, i := ParseComplexString(part, 0);
    }
  }

  method GetList(raw: string) returns (ok: bool, values: seq<string>)
    ensures ok == DecodeList(raw).Some?
    ensures ok ==> values == DecodeList(raw).value
  {
    values := [];
    var first := 1;
    ghost var all := DecodeList(raw);
    StartOfItems(raw);
    while true
      invariant 1 <= first && (raw != "" ==> first <= |raw|)
      invariant Continues(values, ItemsFrom(raw, first), all)
      decreases |raw| - first
    {
      var second, parsed, value := NextItem(raw, first);
      if second == -1 {
        NoMoreItems(values, raw, first, all);
        break;
      }
      if !parsed {
        BadItem(values, raw, first, all);
        return false, values;
      }
      Continue(values, raw, first, all);
      values := values + [value];
      if second < |raw| - 3 {
        first := second + 2;
      } else {
        AllContinued(values, all);
        return true, values;
      }
    }
    ok := true;
  }

  /** The items from position `first` on, which is behind the end of an empty text. */
  function ItemsFrom(raw: string, first: nat): Option<seq<string>>
    requires 1 <= first
  {
    if first > |raw| then Some([]) else Items(raw, first)
  }

  lemma StartOfItems(raw: string)
    ensures Continues([], ItemsFrom(raw, 1), DecodeList(raw))
  {
    var all := DecodeList(raw);
    if all.Some? {
      assert [] + all.value == all.value;
    }
  }

  lemma NoMoreItems(done: seq<string>, raw: string, first: nat, all: Option<seq<string>>)
    requires 1 <= first && (first >= |raw| || EndAt(raw, first) == |raw|) && Continues(done, ItemsFrom(raw, first), all)
    ensures all == Some(done)
  {
    AllContinued(done, all);
  }

  lemma BadItem(done: seq<string>, raw: string, first: nat, all: Option<seq<string>>)
    requires 1 <= first <= |raw| && EndAt(raw, first) < |raw| && ItemAt(raw, first).None?
    requires Continues(done, ItemsFrom(raw, first), all)
    ensures all == None
  {
  }

  lemma AllContinued(done: seq<string>, all: Option<seq<string>>)
    requires Continues(done, Some([]), all)
    ensures all == Some(done)
  {
    assert done + [] == done;
  }

  lemma Continue(done: seq<string>, raw: string, first: nat, all: Option<seq<string>>)
    requires 1 <= first <= |raw| && EndAt(raw, first) < |raw| && ItemAt(raw, first).Some?
    requires Continues(done, ItemsFrom(raw, first), all)
    ensures var now, second := done + [ItemAt(raw, first).value.0], EndAt(raw, first);
            Continues(now, if second < |raw| - 3 then ItemsFrom(raw, second + 2) else Some([]), all)
  {
    ContinueWith(done, ItemAt(raw, first), ItemsAfter(raw, EndAt(raw, first)), all);
  }

  lemma ContinueWith(done: seq<string>, item: Decoded, more: Option<seq<string>>, all: Option<seq<string>>)
    requires item.Some? && Continues(done, Follow(item, more), all)
    ensures Continues(done + [item.value.0], more, all)
  {
    if more.Some? {
      assert done + ([item.value.0] + more.value) == (done + [item.value.0]) + more.value;
    }
  }

  ghost predicate Continues(done: seq<string>, rest: Option<seq<string>>, all: Option<seq<string>>) {
    all == if rest.None? then None else Some(done + rest.value)
  }
}
