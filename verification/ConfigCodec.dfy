/** Complex strings: the code of the configuration database that puts any string
    on one line, between quotes. */
module ConfigCodec {
  import opened Options
  import opened Texts

  // ---------------------------------------------------------------- encoding

  function Escape(c: char): string {
    match c
    case '\"' => "\\\""
    case '\n' => "\\n"
    case '\t' => "\\t"
    case '\\' => "\\\\"
    case _ => [c]
  }

  function Body(s: string): string {
    if s == "" then "" else Escape(s[0]) + Body(s[1..])
  }

  function Encode(s: string): string {
    "\"" + Body(s) + "\""
  }

  // ---------------------------------------------------------------- decoding

  /** Decoded text and the number of characters read, or nothing if the text is
      not a complex string. */
  type Decoded = Option<(string, nat)>

  function Prepend(text: string, read: nat, d: Decoded): Decoded {
    if d.None? then None else Some((text + d.value.0, read + d.value.1))
  }

  /** What a backslash and `c` stand for; "\e" stays as it is. */
  function Unescape(c: char): Option<string> {
    match c
    case 't' => Some("\t")
    case 'n' => Some("\n")
    case '\"' => Some("\"")
    case 'e' => Some("\\e")
    case '\\' => Some("\\")
    case _ => None
  }

  /** The text up to and including the closing quote. */
  function Scan(m: string): (d: Decoded)
    ensures d.Some? ==> 1 <= d.value.1 <= |m|
    decreases |m|
  {
    if m == "" then None
    else if m[0] == '\"' then Some(("", 1))
    else if m[0] != '\\' then Prepend([m[0]], 1, Scan(m[1..]))
    else if |m| == 1 || Unescape(m[1]).None? then None
    else Prepend(Unescape(m[1]).value, 2, Scan(m[2..]))
  }

  function StripLeft(s: string): string {
    if s != "" && IsSpace(s[0]) then StripLeft(s[1..]) else s
  }

  function StripRight(s: string): (r: string)
    ensures r <= s
  {
    if s != "" && IsSpace(s[|s| - 1]) then StripRight(s[..|s| - 1]) else s
  }

  /** TQCString::stripWhiteSpace. */
  function Strip(s: string): string {
    StripRight(StripLeft(s))
  }

  function From(s: string, index: nat): string {
    if index <= |s| then s[index..] else ""
  }

  /** The complex string that starts at `index`, leading blanks aside. */
  function Decode(orig: string, index: nat): Decoded {
    var mod := Strip(From(orig, index));
    if |mod| < 2 || mod[0] != '\"' then None else Prepend("", 1, Scan(mod[1..]))
  }

  lemma {:induction false} StripLeftIndent(blank: string, s: string)
    requires Blanks(blank)
    requires s == "" || !IsSpace(s[0])
    ensures StripLeft(blank + s) == s
    decreases |blank|
  {
    if blank == "" {
      assert blank + s == s;
    } else {
      assert blank[0] in blank;
      assert (blank + s)[1..] == blank[1..] + s;
      StripLeftIndent(blank[1..], s);
    }
  }

  /** Every text is blanks and what StripLeft leaves of it. */
  lemma {:induction false} StripLeftSplits(s: string) returns (blank: string)
    ensures Blanks(blank) && s == blank + StripLeft(s)
    ensures StripLeft(s) == "" || !IsSpace(StripLeft(s)[0])
    decreases |s|
  {
    blank := "";
    if s != "" && IsSpace(s[0]) {
      blank := StripLeftSplits(s[1..]);
      blank := [s[0]] + blank;
    }
  }

  // ------------------------------------------------------- what can be decoded

  /** A piece of a complex string: a character as it is, one that is escaped, or an end mark. */
  datatype Piece = Plain(c: char) | Escaped(c: char) | EndMark

  predicate Proper(p: Piece) {
    match p
    case Plain(c) => c != '\"' && c != '\\'
    case Escaped(c) => c == '\"' || c == '\n' || c == '\t' || c == '\\'
    case EndMark => true
  }

  /** How a piece is written: an escaped character as the encoder writes it. */
  function Spelled(p: Piece): string {
    match p
    case Plain(c) => [c]
    case Escaped(c) => Escape(c)
    case EndMark => "\\e"
  }

  /** What a piece says. An end mark is for a list to deal with, and stays as it is. */
  function Meant(p: Piece): string {
    match p
    case Plain(c) => [c]
    case Escaped(c) => [c]
    case EndMark => "\\e"
  }

  predicate AllProper(ps: seq<Piece>) {
    forall p :: p in ps ==> Proper(p)
  }

  function AllSpelled(ps: seq<Piece>): string {
    if ps == [] then "" else Spelled(ps[0]) + AllSpelled(ps[1..])
  }

  function AllMeant(ps: seq<Piece>): string {
    if ps == [] then "" else Meant(ps[0]) + AllMeant(ps[1..])
  }

  lemma ScanPiece(p: Piece, tail: string)
    requires Proper(p)
    ensures Scan(Spelled(p) + tail) == Prepend(Meant(p), |Spelled(p)|, Scan(tail))
  {
    var m := Spelled(p) + tail;
    match p
    case Plain(c) => assert m[0] == c && m[1..] == tail;
    case Escaped(c) => ScanEscape(c, tail);
    case EndMark => assert m[0] == '\\' && m[1] == 'e' && m[2..] == tail;
  }

  lemma {:induction false} ScanPieces(ps: seq<Piece>, rest: string)
    requires AllProper(ps)
    ensures Scan(AllSpelled(ps) + ("\"" + rest)) == Some((AllMeant(ps), |AllSpelled(ps)| + 1))
    decreases |ps|
  {
    var end := "\"" + rest;
    if ps == [] {
      assert "" + end == end;
    } else {
      assert ps[0] in ps && forall p :: p in ps[1..] ==> p in ps;
      Regrouped(Spelled(ps[0]), AllSpelled(ps[1..]), end);
      ScanPiece(ps[0], AllSpelled(ps[1..]) + end);
      ScanPieces(ps[1..], rest);
    }
  }

  lemma Regrouped(a: string, b: string, c: string)
    ensures a + b + c == a + (b + c)
  {
  }

  /** Whatever is scanned without a fault consists of such pieces and a quote. */
  lemma {:induction false} ScannedArePieces(m: string) returns (ps: seq<Piece>, rest: string)
    requires Scan(m).Some?
    ensures AllProper(ps) && m == AllSpelled(ps) + ("\"" + rest)
    decreases |m|
  {
    if m[0] == '\"' {
      ps, rest := [], m[1..];
      assert m == "" + ("\"" + rest);
    } else {
      var p := FirstPiece(m);
      var n := |Spelled(p)|;
      ps, rest := ScannedArePieces(m[n..]);
      assert [p][0] == p && ([p] + ps)[1..] == ps;
      Regrouped(Spelled(p), AllSpelled(ps), "\"" + rest);
      ps := [p] + ps;
    }
  }

  lemma FirstPiece(m: string) returns (p: Piece)
    requires Scan(m).Some? && m[0] != '\"'
    ensures Proper(p) && 1 <= |Spelled(p)| <= |m| && m == Spelled(p) + m[|Spelled(p)|..]
    ensures Scan(m[|Spelled(p)|..]).Some?
  {
    if m[0] != '\\' {
      return Plain(m[0]);
    }
    match m[1]
    case 't' => p := Escaped('\t');
    case 'n' => p := Escaped('\n');
    case '\"' => p := Escaped('\"');
    case 'e' => p := EndMark;
    case '\\' => p := Escaped('\\');
    case _ => assert false;
  }

  /** The text is blanks, a quote, pieces, a quote, and whatever follows. */
  ghost predicate Composed(text: string, blank: string, ps: seq<Piece>, rest: string) {
    Blanks(blank) && AllProper(ps) && text == blank + ("\"" + (AllSpelled(ps) + ("\"" + rest)))
  }

  lemma Requoted(body: string, rest: string)
    ensures "\"" + (body + ("\"" + rest)) == ("\"" + body + "\"") + rest
  {
  }

  /** Stripping a text takes the blanks in front of a quoted part, and leaves that part. */
  lemma StripsAround(blank: string, body: string, rest: string) returns (after: string)
    requires Blanks(blank)
    ensures var mod := Strip(blank + (("\"" + body + "\"") + rest));
            |mod| >= 2 && mod[0] == '\"' && mod[1..] == body + ("\"" + after)
  {
    var code := "\"" + body + "\"";
    StripLeftIndent(blank, code + rest);
    StripRightStops(code, rest);
    after := Strip(blank + (code + rest))[|code|..];
  }

  lemma ComposedDecodes(orig: string, index: nat, blank: string, ps: seq<Piece>, rest: string)
    requires Composed(From(orig, index), blank, ps, rest)
    ensures Decode(orig, index) == Some((AllMeant(ps), |AllSpelled(ps)| + 2))
  {
    Requoted(AllSpelled(ps), rest);
    var after := StripsAround(blank, AllSpelled(ps), rest);
    ScanPieces(ps, after);
    assert "" + AllMeant(ps) == AllMeant(ps);
  }

  lemma DecodedIsComposed(orig: string, index: nat) returns (blank: string, ps: seq<Piece>, rest: string)
    requires Decode(orig, index).Some?
    ensures Composed(From(orig, index), blank, ps, rest)
  {
    var text := From(orig, index);
    var mod := Strip(text);
    blank := StripLeftSplits(text);
    ps, rest := ScannedArePieces(mod[1..]);
    var tail := StripLeft(text)[|mod|..];
    assert StripLeft(text) == mod + tail && mod == "\"" + mod[1..];
    rest := rest + tail;
  }

  /** Decoding gives a text and a length exactly if, after blanks, there are pieces between
      quotes that say that text and are that long with the quotes; so it fails exactly on what
      is no complex string. Blanks in front are skipped and not counted. */
  lemma DecodesExactly(orig: string, index: nat, meant: string, length: nat)
    ensures Decode(orig, index) == Some((meant, length))
            <==> exists blank, ps, rest ::
                   Composed(From(orig, index), blank, ps, rest) && meant == AllMeant(ps)
                       && length == |AllSpelled(ps)| + 2
  {
    if Decode(orig, index) == Some((meant, length)) {
      var blank, ps, rest := DecodedIsComposed(orig, index);
      ComposedDecodes(orig, index, blank, ps, rest);
    }
    if blank, ps, rest :|
      Composed(From(orig, index), blank, ps, rest) && meant == AllMeant(ps) && length == |AllSpelled(ps)| + 2
    {
      ComposedDecodes(orig, index, blank, ps, rest);
    }
  }

  /** Blanks in front of a complex string do not matter. */
  lemma BlanksAreSkipped(before: string, blank: string, s: string, rest: string)
    requires Blanks(blank)
    ensures Decode(before + (blank + (Encode(s) + rest)), |before|) == Some((s, |Encode(s)|))
  {
    var text := blank + (Encode(s) + rest);
    assert (before + text)[|before|..] == text;
    var after := StripsAround(blank, Body(s), rest);
    ScanEncoded(s, after);
    assert "" + s == s;
  }

  // ------------------------------------------------------------- round trip

  lemma ScanEscape(c: char, tail: string)
    ensures Scan(Escape(c) + tail) == Prepend([c], |Escape(c)|, Scan(tail))
  {
    var m := Escape(c) + tail;
    if |Escape(c)| == 2 {
      assert m[0] == '\\' && m[1] == Escape(c)[1] && m[2..] == tail;
    } else {
      assert m[0] == c && m[1..] == tail;
    }
  }

  lemma PrependTwice(t: string, n: nat, u: string, k: nat, d: Decoded)
    ensures Prepend(t, n, Prepend(u, k, d)) == Prepend(t + u, n + k, d)
  {
    if d.Some? {
      assert t + (u + d.value.0) == (t + u) + d.value.0;
    }
  }

  lemma {:induction false} ScanBody(s: string, rest: string)
    ensures Scan(Body(s) + rest) == Prepend(s, |Body(s)|, Scan(rest))
  {
    if s == "" {
      assert Body(s) + rest == rest;
      if Scan(rest).Some? {
        assert "" + Scan(rest).value.0 == Scan(rest).value.0;
      }
    } else {
      var e := Escape(s[0]);
      var tail := Body(s[1..]) + rest;
      ScanBody(s[1..], rest);
      assert Body(s) + rest == e + tail;
      ScanEscape(s[0], tail);
      PrependTwice([s[0]], |e|, s[1..], |Body(s[1..])|, Scan(rest));
      assert s == [s[0]] + s[1..];
    }
  }

  lemma {:induction false} StripRightStops(s: string, rest: string)
    requires s != "" && !IsSpace(s[|s| - 1])
    ensures s <= StripRight(s + rest)
    decreases |rest|
  {
    if rest == "" {
      assert s + rest == s;
    } else {
      assert (s + rest)[..|s + rest| - 1] == s + rest[..|rest| - 1];
      StripRightStops(s, rest[..|rest| - 1]);
    }
  }

  lemma ScanEncoded(s: string, rest: string)
    ensures Scan(Body(s) + ("\"" + rest)) == Some((s, |Body(s)| + 1))
  {
    ScanBody(s, "\"" + rest);
    assert s + "" == s;
  }

  /** A complex string says itself where it ends: wherever it stands in a text,
      decoding there gives back the string and the length of its encoding. */
  lemma RoundTripWithin(before: string, s: string, rest: string)
    ensures Decode(before + Encode(s) + rest, |before|) == Some((s, |Encode(s)|))
  {
    var code := Encode(s);
    assert before + code + rest == before + ("" + (code + rest));
    BlanksAreSkipped(before, "", s, rest);
  }

  lemma RoundTrip(s: string)
    ensures Decode(Encode(s), 0) == Some((s, |Encode(s)|))
  {
    RoundTripWithin("", s, "");
    assert "" + Encode(s) + "" == Encode(s);
  }

  /** The code is on one line, but for carriage returns, which are left as they are. */
  lemma OneLine(s: string)
    ensures '\n' !in Encode(s) && ('\r' in Encode(s) <==> '\r' in s)
    ensures |Encode(s)| >= 2 && Encode(s)[0] == '\"' && Encode(s)[|Encode(s)| - 1] == '\"'
  {
    NoNewline(s);
  }

  lemma {:induction false} NoNewline(s: string)
    ensures '\n' !in Body(s) && '\t' !in Body(s) && ('\r' in Body(s) <==> '\r' in s)
  {
    if s != "" {
      NoNewline(s[1..]);
      assert '\r' in s <==> s[0] == '\r' || '\r' in s[1..];
    }
  }

  // ---------------------------------------------------------------- methods

  lemma BodySnoc(s: string, c: char)
    ensures Body(s + [c]) == Body(s) + Escape(c)
  {
    if s == "" {
      assert s + [c] == [c];
    } else {
      BodySnoc(s[1..], c);
      assert (s + [c])[1..] == s[1..] + [c];
    }
  }

  method MakeComplexString(orig: string) returns (temp: string)
    ensures temp == Encode(orig)
  {
    temp := "\"";
    var count := 0;
    while count < |orig|
      invariant count <= |orig|
      invariant temp == "\"" + Body(orig[..count])
    {
      BodySnoc(orig[..count], orig[count]);
      assert orig[..count + 1] == orig[..count] + [orig[count]];
      match orig[count] {
        case '\"' => temp := temp + "\\"; temp := temp + "\"";
        case '\n' => temp := temp + "\\"; temp := temp + "n";
        case '\t' => temp := temp + "\\"; temp := temp + "t";
        case '\\' => temp := temp + "\\"; temp := temp + "\\";
        case _ => temp := temp + [orig[count]];
      }
      count := count + 1;
    }
    assert orig[..count] == orig;
    temp := temp + "\"";
  }

  method ParseComplexString(orig: string, index: nat) returns (ok: bool, result: string, noOfChars: nat)
    ensures ok == Decode(orig, index).Some?
    ensures ok ==> (result, noOfChars) == Decode(orig, index).value
  {
    ok, result, noOfChars := false, "", 0;
    var mod := Strip(From(orig, index));
    if |mod| < 2 || mod[0] != '\"' {
      return;
    }
    var first, temp, count := 1, "", 1;
    ghost var all := Decode(orig, index);
    while true
      invariant 1 <= first < |mod| && count == first
      invariant all == Prepend(temp, count, Scan(mod[first..]))
      decreases |mod| - first
    {
      assert |mod[first..]| == |mod| - first;
      if mod[first] == '\\' {
        first := first + 1;
        if first == |mod| {
          return;
        }
        assert mod[first - 1..][2..] == mod[first + 1..];
        var c := Unescape(mod[first]);
        PrependTwice(temp, count, if c.Some? then c.value else "", 2, Scan(mod[first + 1..]));
        match mod[first] {
          case 't' => temp := temp + "\t";
          case 'n' => temp := temp + "\n";
          case '\"' => temp := temp + "\"";
          case 'e' => temp := temp + "\\e";
          case '\\' => temp := temp + "\\";
          case _ => return;
        }
        count := count + 2;
        first := first + 1;
      } else {
        count := count + 1;
        if mod[first] == '\"' {
          assert temp + "" == temp;
          break;
        }
        assert mod[first..][1..] == mod[first + 1..];
        PrependTwice(temp, count - 1, [mod[first]], 1, Scan(mod[first + 1..]));
        temp := temp + [mod[first]];
        first := first + 1;
      }
      if first >= |mod| {
        return;
      }
    }
    ok, result, noOfChars := true, temp, count;
  }
}
