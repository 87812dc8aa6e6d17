/** The operations of TQPtrList that the DCOP server relies on. */
module PtrLists {
  import opened Options
  import opened Texts

  /** removeRef: drops the first occurrence of `x`, if there is one. */
  function RemoveRef<T(==)>(s: seq<T>, x: T): seq<T> {
    if s == [] then []
    else if s[0] == x then s[1..]
    else [s[0]] + RemoveRef(s[1..], x)
  }

  /** The list without any of the elements of `gone`, order kept. */
  function Without<T(==)>(s: seq<T>, gone: set<T>): seq<T> {
    if s == [] then []
    else if s[0] in gone then Without(s[1..], gone)
    else [s[0]] + Without(s[1..], gone)
  }

  function Count<T(==)>(s: seq<T>, x: T): nat {
    multiset(s)[x]
  }

  ghost predicate NoDuplicates<T>(s: seq<T>) {
    forall i, j | 0 <= i < j < |s| :: s[i] != s[j]
  }

  lemma {:induction false} RemoveRefCounts<T>(s: seq<T>, x: T)
    ensures multiset(RemoveRef(s, x)) == multiset(s) - multiset{x}
  {
    if s != [] {
      assert s == [s[0]] + s[1..];
      RemoveRefCounts(s[1..], x);
    }
  }

  lemma {:induction false} WithoutCounts<T>(s: seq<T>, gone: set<T>, y: T)
    ensures Count(Without(s, gone), y) == if y in gone then 0 else Count(s, y)
  {
    if s != [] {
      assert s == [s[0]] + s[1..];
      WithoutCounts(s[1..], gone, y);
    }
  }

  /** Removing one occurrence of an element does not show once all are gone. */
  lemma {:induction false} WithoutAbsorbs<T>(s: seq<T>, x: T, gone: set<T>)
    requires x in gone
    ensures Without(RemoveRef(s, x), gone) == Without(s, gone)
  {
    if s != [] && s[0] != x {
      assert RemoveRef(s, x)[1..] == RemoveRef(s[1..], x);
      WithoutAbsorbs(s[1..], x, gone);
    }
  }

  lemma {:induction false} WithoutNothing<T>(s: seq<T>, gone: set<T>)
    requires forall x | x in s :: x !in gone
    ensures Without(s, gone) == s
  {
    if s != [] {
      WithoutNothing(s[1..], gone);
    }
  }

  // ------------------------------------------------- a list with its cursor

  /** TQPtrList keeps a cursor; `at` is its position, or -1 for none. */
  datatype PtrList<T(==)> = PtrList(items: seq<T>, at: int)
  {
    ghost predicate Valid() { -1 <= at < |items| }

    function ToFirst(): PtrList<T> { PtrList(items, if items == [] then -1 else 0) }

    /** next(): past the last item there is no current item any more. */
    function ToNext(): PtrList<T> {
      PtrList(items, if 0 <= at && at + 1 < |items| then at + 1 else -1)
    }

    function Current(): Option<T> { if 0 <= at < |items| then Some(items[at]) else None }

    function Append(x: T): PtrList<T> { PtrList(items + [x], |items|) }

    /** removeRef(x): the cursor is left on the item after the one removed, or
        on the new last item if that was the last. */
    function Remove(x: T): PtrList<T> {
      var i := IndexOf(items, x);
      if i == |items| then PtrList(items, -1)
      else
        var rest := items[..i] + items[i + 1..];
        PtrList(rest, if i < |rest| then i else |rest| - 1)
    }
  }

  function Empty<T>(): PtrList<T> { PtrList([], -1) }

  /** Removal is by the position findRef finds. */
  lemma {:induction false} RemoveRefAtIndex<T>(s: seq<T>, x: T)
    ensures var i := IndexOf(s, x);
            RemoveRef(s, x) == if i == |s| then s else s[..i] + s[i + 1..]
  {
    if s != [] && s[0] != x {
      RemoveRefAtIndex(s[1..], x);
      var i := IndexOf(s, x);
      assert IndexOf(s[1..], x) == i - 1;
      if i < |s| {
        assert s[..i] + s[i + 1..] == [s[0]] + (s[1..][..i - 1] + s[1..][i..]);
      }
    }
  }

  lemma {:induction false} WithoutConcat<T>(s: seq<T>, t: seq<T>, gone: set<T>)
    ensures Without(s + t, gone) == Without(s, gone) + Without(t, gone)
  {
    if s == [] {
      assert s + t == t;
    } else {
      assert (s + t)[1..] == s[1..] + t;
      WithoutConcat(s[1..], t, gone);
    }
  }

  lemma WithoutMembers<T>(s: seq<T>, gone: set<T>, x: T)
    ensures x in Without(s, gone) <==> x in s && x !in gone
  {
    WithoutCounts(s, gone, x);
    assert x in s <==> x in multiset(s);
    assert x in Without(s, gone) <==> x in multiset(Without(s, gone));
  }

  lemma {:induction false} WithoutKeepsDistinct<T>(s: seq<T>, gone: set<T>)
    requires NoDuplicates(s)
    ensures NoDuplicates(Without(s, gone))
  {
    if s != [] {
      WithoutKeepsDistinct(s[1..], gone);
      WithoutMembers(s[1..], gone, s[0]);
    }
  }

  /** Removing one more element from a list without duplicates. */
  lemma {:induction false} WithoutOneMore<T>(s: seq<T>, gone: set<T>, x: T)
    requires NoDuplicates(s)
    ensures RemoveRef(Without(s, gone), x) == Without(s, gone + {x})
  {
    if s != [] {
      WithoutOneMore(s[1..], gone, x);
      if s[0] == x {
        WithoutSame(s[1..], gone, x);
        if x in gone {
          WithoutMembers(s[1..], gone, x);
        }
      }
    }
  }

  lemma {:induction false} WithoutSame<T>(s: seq<T>, gone: set<T>, x: T)
    requires x !in s
    ensures Without(s, gone + {x}) == Without(s, gone)
  {
    if s != [] {
      WithoutSame(s[1..], gone, x);
    }
  }
}
