/** The sorted maps of the configuration database: entries in the order of their
    keys, one per key, as iterating over them visits them. */
module ConfigMaps {
  datatype Entry<T> = Entry(key: string, value: T)

  /** Strings in the order of their characters. */
  predicate Less(a: string, b: string) {
    b != "" && (a == "" || a[0] < b[0] || (a[0] == b[0] && Less(a[1..], b[1..])))
  }

  lemma {:induction false} LessTotal(a: string, b: string)
    ensures a == b || Less(a, b) || Less(b, a)
    ensures Less(a, b) ==> a != b && !Less(b, a)
    decreases |a|
  {
    if a != "" && b != "" {
      LessTotal(a[1..], b[1..]);
      if a[0] == b[0] && a[1..] == b[1..] {
        assert a == [a[0]] + a[1..] && b == [b[0]] + b[1..];
      }
    }
  }

  lemma {:induction false} LessTransitive(a: string, b: string, c: string)
    requires Less(a, b) && Less(b, c)
    ensures Less(a, c)
    decreases |a|
  {
    if a != "" && a[0] == b[0] && b[0] == c[0] {
      LessTransitive(a[1..], b[1..], c[1..]);
    }
  }

  predicate Sorted<T>(m: seq<Entry<T>>) {
    forall i, j :: 0 <= i < j < |m| ==> Less(m[i].key, m[j].key)
  }

  predicate HasKey<T>(m: seq<Entry<T>>, key: string) {
    exists i :: 0 <= i < |m| && m[i].key == key
  }

  /** std::map::insert: an entry that is already there stays as it is. */
  function Insert<T>(m: seq<Entry<T>>, key: string, value: T): seq<Entry<T>> {
    if m == [] then [Entry(key, value)]
    else if m[0].key == key then m
    else if Less(key, m[0].key) then [Entry(key, value)] + m
    else [m[0]] + Insert(m[1..], key, value)
  }

  /** std::map::find: the position of the key, or the end. */
  function Position<T>(m: seq<Entry<T>>, key: string): (i: nat)
    ensures i <= |m|
    ensures i < |m| ==> m[i].key == key
    ensures i == |m| ==> !HasKey(m, key)
  {
    if m == [] || m[0].key == key then 0 else
      var i := 1 + Position(m[1..], key);
      assert forall k :: 1 <= k < |m| ==> m[k] == m[1..][k - 1];
      i
  }

  lemma {:induction false} InsertAppends<T>(m: seq<Entry<T>>, key: string, value: T)
    requires forall e :: e in m ==> Less(e.key, key)
    ensures Insert(m, key, value) == m + [Entry(key, value)]
    decreases |m|
  {
    if m != [] {
      assert m[0] in m;
      LessTotal(m[0].key, key);
      InsertAppends(m[1..], key, value);
      assert [m[0]] + (m[1..] + [Entry(key, value)]) == m + [Entry(key, value)];
    }
  }

  lemma {:induction false} InsertMembers<T>(m: seq<Entry<T>>, key: string, value: T)
    ensures forall e :: e in m ==> e in Insert(m, key, value)
    ensures forall e :: e in Insert(m, key, value) ==> e in m || e == Entry(key, value)
    ensures exists e :: e in Insert(m, key, value) && e.key == key
    decreases |m|
  {
    var r := Insert(m, key, value);
    if m == [] || (m[0].key != key && Less(key, m[0].key)) {
      assert r[0] in r && r[0].key == key;
    } else if m[0].key == key {
      assert m[0] in r;
    } else {
      InsertMembers(m[1..], key, value);
      var e :| e in Insert(m[1..], key, value) && e.key == key;
      assert e in r;
      assert m == [m[0]] + m[1..];
    }
  }

  lemma ConsSorted<T>(e: Entry<T>, m: seq<Entry<T>>)
    requires Sorted(m) && forall x :: x in m ==> Less(e.key, x.key)
    ensures Sorted([e] + m)
  {
    var r := [e] + m;
    forall i, j | 0 <= i < j < |r| ensures Less(r[i].key, r[j].key) {
      assert r[j] == m[j - 1];
      if i == 0 {
        assert m[j - 1] in m;
      } else {
        assert r[i] == m[i - 1];
      }
    }
  }

  /** Inserting keeps the order, loses nothing and overwrites nothing. */
  lemma {:induction false} InsertKeepsOrder<T>(m: seq<Entry<T>>, key: string, value: T)
    requires Sorted(m)
    ensures Sorted(Insert(m, key, value))
    decreases |m|
  {
    if m != [] && m[0].key != key {
      if Less(key, m[0].key) {
        forall x | x in m ensures Less(key, x.key) {
          var j :| 0 <= j < |m| && m[j] == x;
          if j > 0 {
            LessTransitive(key, m[0].key, x.key);
          }
        }
        ConsSorted(Entry(key, value), m);
      } else {
        var rest := m[1..];
        assert forall i :: 0 <= i < |rest| ==> rest[i] == m[i + 1];
        InsertKeepsOrder(rest, key, value);
        InsertMembers(rest, key, value);
        LessTotal(m[0].key, key);
        forall x | x in Insert(rest, key, value) ensures Less(m[0].key, x.key) {
          if x in rest {
            var j :| 0 <= j < |rest| && rest[j] == x;
            assert m[j + 1] == x;
          }
        }
        ConsSorted(m[0], Insert(rest, key, value));
      }
    }
  }

  /** Where a key is or would go. */
  function Place<T>(m: seq<Entry<T>>, key: string): (k: nat)
    ensures k <= |m|
  {
    if m == [] || m[0].key == key || Less(key, m[0].key) then 0 else 1 + Place(m[1..], key)
  }

  lemma {:induction false} InsertIs<T>(m: seq<Entry<T>>, key: string, value: T)
    ensures var k := Place(m, key);
            Insert(m, key, value) == if k < |m| && m[k].key == key then m else m[..k] + [Entry(key, value)] + m[k..]
    decreases |m|
  {
    var k := Place(m, key);
    if k == 0 {
      assert m[..0] + [Entry(key, value)] + m[0..] == [Entry(key, value)] + m;
    } else {
      InsertIs(m[1..], key, value);
      ConsPut(m, k, Entry(key, value));
    }
  }

  lemma ConsPut<T>(m: seq<T>, k: nat, e: T)
    requires 0 < k <= |m|
    ensures [m[0]] + (m[1..][..k - 1] + [e] + m[1..][k - 1..]) == m[..k] + [e] + m[k..]
    ensures [m[0]] + m[1..] == m
  {
  }

  /** An entry is found after an insertion if it was found before. */
  lemma {:induction false} InsertKeepsFound<T>(m: seq<Entry<T>>, key: string, value: T, k: string)
    requires Sorted(m) && Position(m, k) < |m|
    ensures var r := Insert(m, key, value); Position(r, k) < |r| && r[Position(r, k)] == m[Position(m, k)]
    decreases |m|
  {
    if m[0].key != key {
      if Less(key, m[0].key) {
        assert ([Entry(key, value)] + m)[1..] == m;
        var i := Position(m, k);
        if i > 0 {
          LessTransitive(key, m[0].key, m[i].key);
        }
        LessTotal(key, m[i].key);
      } else if m[0].key != k {
        InsertKeepsFound(m[1..], key, value, k);
      }
    }
  }
}
