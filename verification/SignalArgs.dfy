/** May a signal be connected to a slot? The server compares the two argument
    strings character by character; what it means is that the arguments of the
    slot are the first arguments of the signal. */
module SignalArgs {
  import opened Texts

  /** The arguments are the text between the first '(' and the next ')'. */
  predicate HasArgs(f: string) {
    var i := IndexOf(f, '(');
    i < |f| && IndexOf(f[i + 1..], ')') < |f[i + 1..]|
  }

  function ArgsOf(f: string): string
    requires HasArgs(f)
  {
    var rest := f[IndexOf(f, '(') + 1..];
    rest[..IndexOf(rest, ')')]
  }

  /** The comparison of `connectSignal`. */
  predicate Accepts(signalArgs: string, slotArgs: string) {
    signalArgs == slotArgs ||
    (&& |signalArgs| > |slotArgs|
     && (|slotArgs| > 0 ==> signalArgs[|slotArgs|] == ',')
     && signalArgs[..|slotArgs|] == slotArgs)
  }

  /** A character in front of pieces: a comma begins a new piece. */
  function InFront(c: char, pieces: seq<string>): (r: seq<string>)
    requires pieces != []
    ensures r != []
  {
    if c == ',' then [""] + pieces else [[c] + pieces[0]] + pieces[1..]
  }

  /** The pieces between commas; there is always at least one. */
  function Pieces(s: string): (r: seq<string>)
    ensures r != []
  {
    if s == "" then [""]
    else InFront(s[0], Pieces(s[1..]))
  }

  function Join(pieces: seq<string>): string
    requires pieces != []
  {
    if |pieces| == 1 then pieces[0] else pieces[0] + "," + Join(pieces[1..])
  }

  /** An argument list; the empty string is the empty list. */
  function Args(s: string): seq<string> {
    if s == "" then [] else Pieces(s)
  }

  lemma {:induction false} JoinPieces(s: string)
    ensures Join(Pieces(s)) == s
  {
    if s != "" {
      JoinPieces(s[1..]);
      var r := Pieces(s[1..]);
      if s[0] == ',' {
        assert ([""] + r)[1..] == r;
      } else if |r| > 1 {
        assert ([[s[0]] + r[0]] + r[1..])[1..] == r[1..];
      }
    }
  }

  lemma InFrontConcat(c: char, r: seq<string>, u: seq<string>)
    requires r != []
    ensures InFront(c, r + u) == InFront(c, r) + u
  {
    assert (r + u)[0] == r[0] && (r + u)[1..] == r[1..] + u;
  }

  lemma {:induction false} PiecesConcat(s: string, t: string)
    ensures Pieces(s + "," + t) == Pieces(s) + Pieces(t)
  {
    if s == "" {
      assert ("," + t)[1..] == t;
      assert s + "," + t == "," + t;
    } else {
      PiecesConcat(s[1..], t);
      var whole := s + "," + t;
      assert whole[0] == s[0] && whole[1..] == s[1..] + "," + t;
      InFrontConcat(s[0], Pieces(s[1..]), Pieces(t));
    }
  }

  lemma {:induction false} JoinConcat(p: seq<string>, q: seq<string>)
    requires p != [] && q != []
    ensures Join(p + q) == Join(p) + "," + Join(q)
  {
    if |p| == 1 {
      assert (p + q)[1..] == q;
    } else {
      assert (p + q)[1..] == p[1..] + q;
      JoinConcat(p[1..], q);
    }
  }

  /** The comparison accepts exactly when the arguments of the slot are a
      prefix of the arguments of the signal. */
  lemma AcceptsIffPrefix(signalArgs: string, slotArgs: string)
    ensures Accepts(signalArgs, slotArgs) <==> Args(slotArgs) <= Args(signalArgs)
  {
    if slotArgs == "" {
    } else if Accepts(signalArgs, slotArgs) && signalArgs != slotArgs {
      var rest := signalArgs[|slotArgs| + 1..];
      assert signalArgs == slotArgs + "," + rest;
      PiecesConcat(slotArgs, rest);
    } else if Args(slotArgs) <= Args(signalArgs) && signalArgs != slotArgs {
      var p, r := Pieces(slotArgs), Pieces(signalArgs);
      JoinPieces(slotArgs);
      JoinPieces(signalArgs);
      var q := r[|p|..];
      assert r == p + q && (q == [] ==> r == p);
      if q != [] {
        JoinConcat(p, q);
      }
    }
  }

  /** A signature has arguments exactly if some ')' comes after some '('. */
  lemma HasArgsExactly(f: string)
    ensures HasArgs(f) <==> exists i, j :: 0 <= i < j < |f| && f[i] == '(' && f[j] == ')'
  {
    var i := IndexOf(f, '(');
    if HasArgs(f) {
      var j := IndexOf(f[i + 1..], ')');
      assert f[i] == '(' && f[i + 1 + j] == ')';
    }
    if i', j' :| 0 <= i' < j' < |f| && f[i'] == '(' && f[j'] == ')' {
      assert forall k :: 0 <= k < i ==> f[k] == f[..i][k];
      assert f[i + 1..][j' - i - 1] == ')';
    }
  }

  /** The arguments are what is between the first '(' and the first ')' after it. */
  lemma ArgsAreBetween(name: string, args: string, after: string)
    requires '(' !in name && ')' !in args
    ensures var f := name + "(" + (args + ")" + after); HasArgs(f) && ArgsOf(f) == args
  {
    IndexOfBehind(name, '(', args + ")" + after);
    IndexOfBehind(args, ')', after);
  }
}
