/** How the server makes an application name unique: `registerAs` appends
    "-2", "-3", ... until the name is free. */
module Registry {

  function Digit(d: nat): char
    requires d < 10
  {
    "0123456789"[d]
  }

  /** TQCString::setNum for a non-negative number. */
  function Decimal(n: nat): string {
    if n < 10 then [Digit(n)] else Decimal(n / 10) + [Digit(n % 10)]
  }

  /** The number that a decimal text stands for. */
  function Value(text: string): nat {
    if text == "" then 0
    else
      var last := text[|text| - 1];
      10 * Value(text[..|text| - 1]) + if '0' <= last <= '9' then last as int - '0' as int else 0
  }

  predicate AllDigits(text: string) {
    text != "" && forall c :: c in text ==> '0' <= c <= '9'
  }

  /** The decimal text of a number has digits only, none too many in front, and its value is
      the number. */
  lemma {:induction false} DecimalReads(n: nat)
    ensures AllDigits(Decimal(n)) && Value(Decimal(n)) == n && (n > 0 ==> Decimal(n)[0] != '0')
    decreases n
  {
    DigitReads(n % 10);
    if n >= 10 {
      DecimalReads(n / 10);
      assert Decimal(n)[..|Decimal(n)| - 1] == Decimal(n / 10);
    } else {
      assert Decimal(n)[..0] == "";
    }
  }

  lemma DigitReads(d: nat)
    requires d < 10
    ensures '0' <= Digit(d) <= '9' && Digit(d) as int - '0' as int == d
  {
  }

  function Suffixed(app: string, n: nat): string {
    app + ("-" + Decimal(n))
  }

  lemma DecimalInjective(m: nat, n: nat)
    requires Decimal(m) == Decimal(n)
    ensures m == n
  {
    DecimalReads(m);
    DecimalReads(n);
  }

  lemma SuffixedInjective(app: string, m: nat, n: nat)
    requires Suffixed(app, m) == Suffixed(app, n)
    ensures m == n
  {
    var k := |app| + 1;
    assert Suffixed(app, m)[k..] == Decimal(m);
    assert Suffixed(app, n)[k..] == Decimal(n);
    DecimalInjective(m, n);
  }

  /** Pigeonhole: the numbers 2 .. n-1 can all be taken only if there are that
      many names. */
  lemma {:induction false} TakenSuffixes(names: set<string>, app: string, n: nat)
    requires 2 <= n
    requires forall m | 2 <= m < n :: Suffixed(app, m) in names
    ensures n <= |names| + 2
    decreases n
  {
    if n > 2 {
      var last := Suffixed(app, n - 1);
      assert last in names;
      forall m | 2 <= m < n - 1 ensures Suffixed(app, m) in names - {last} {
        if Suffixed(app, m) == last {
          SuffixedInjective(app, m, n - 1);
        }
      }
      TakenSuffixes(names - {last}, app, n - 1);
    }
  }

  /** The least number from `n` on whose suffixed name is free. */
  function FreeSuffix(names: set<string>, app: string, n: nat): (r: nat)
    requires 2 <= n
    requires forall m | 2 <= m < n :: Suffixed(app, m) in names
    ensures n <= r <= |names| + 2
    ensures Suffixed(app, r) !in names
    ensures forall m | 2 <= m < r :: Suffixed(app, m) in names
    decreases |names| + 2 - n
  {
    TakenSuffixes(names, app, n);
    if Suffixed(app, n) !in names then n
    else
      TakenSuffixes(names, app, n + 1);
      FreeSuffix(names, app, n + 1)
  }

  /** The name a client gets when it asks to be called `app`. */
  function UniqueName(names: set<string>, app: string): (r: string)
    ensures r !in names
    ensures app !in names ==> r == app
  {
    if app !in names then app else Suffixed(app, FreeSuffix(names, app, 2))
  }

  /** The search loop of `registerAs`. */
  method ChooseName(names: set<string>, app: string) returns (appId: string)
    ensures appId !in names
    ensures app !in names ==> appId == app
    ensures app in names ==>
              exists n | 2 <= n <= |names| + 2 ::
                appId == Suffixed(app, n) && forall m | 2 <= m < n :: Suffixed(app, m) in names
    ensures appId == UniqueName(names, app)
  {
    appId := app;
    if app in names {
      var n := 2;
      appId := Suffixed(app, n);
      while appId in names
        invariant 2 <= n && appId == Suffixed(app, n)
        invariant forall m | 2 <= m < n :: Suffixed(app, m) in names
        decreases |names| + 2 - n
      {
        TakenSuffixes(names, app, n + 1);
        n := n + 1;
        appId := Suffixed(app, n);
      }
      TakenSuffixes(names, app, n);
      assert FreeSuffix(names, app, 2) == n;
    }
  }
}
