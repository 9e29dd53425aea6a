/** Sorting by a pair of keys, as Python's `sorted` and `list.sort` do it here. */
module Sorting {

  type Key = (int, int)

  predicate Less(a: Key, b: Key) { a.0 < b.0 || (a.0 == b.0 && a.1 < b.1) }

  predicate Ascending<T>(s: seq<T>, key: T -> Key) {
    forall i, j | 0 <= i < j < |s| :: Less(key(s[i]), key(s[j]))
  }

  predicate KeysDiffer<T>(s: seq<T>, key: T -> Key) {
    forall i, j | 0 <= i < j < |s| :: key(s[i]) != key(s[j])
  }

  function Inserted<T>(x: T, s: seq<T>, key: T -> Key): seq<T> {
    if s == [] || Less(key(x), key(s[0])) then [x] + s else [s[0]] + Inserted(x, s[1..], key)
  }

  function Sorted<T>(s: seq<T>, key: T -> Key): seq<T> {
    if s == [] then [] else Inserted(s[|s| - 1], Sorted(s[..|s| - 1], key), key)
  }

  lemma {:induction false} InsertedIs<T(!new)>(x: T, s: seq<T>, key: T -> Key)
    ensures multiset(Inserted(x, s, key)) == multiset(s) + multiset{x}
    ensures forall y :: y in Inserted(x, s, key) <==> y == x || y in s
  {
    if s != [] && !Less(key(x), key(s[0])) {
      InsertedIs(x, s[1..], key);
      assert s == [s[0]] + s[1..];
    }
  }

  lemma {:induction false} InsertedAscends<T(!new)>(x: T, s: seq<T>, key: T -> Key)
    requires Ascending(s, key) && forall y | y in s :: key(y) != key(x)
    ensures Ascending(Inserted(x, s, key), key)
  {
    if s != [] && !Less(key(x), key(s[0])) {
      assert forall y | y in s[1..] :: y in s;
      InsertedAscends(x, s[1..], key);
      InsertedIs(x, s[1..], key);
      var rest := Inserted(x, s[1..], key);
      forall j | 0 <= j < |rest| ensures Less(key(s[0]), key(rest[j])) {
        assert rest[j] in rest && s[0] in s;
        if rest[j] in s[1..] {
          var k :| 0 <= k < |s[1..]| && s[1..][k] == rest[j];
          assert Less(key(s[0]), key(s[k + 1]));
        }
      }
    }
  }

  /** Sorting keeps the elements and puts them in strictly ascending order, if no two keys are equal. */
  lemma {:induction false} SortedIs<T(!new)>(s: seq<T>, key: T -> Key)
    requires KeysDiffer(s, key)
    ensures Ascending(Sorted(s, key), key) && multiset(Sorted(s, key)) == multiset(s)
    ensures forall y :: y in Sorted(s, key) <==> y in s
  {
    if s != [] {
      var n := |s| - 1;
      SortedIs(s[..n], key);
      assert s == s[..n] + [s[n]];
      InsertedIs(s[n], Sorted(s[..n], key), key);
      forall y | y in Sorted(s[..n], key) ensures key(y) != key(s[n]) {
        assert y in s[..n];
      }
      InsertedAscends(s[n], Sorted(s[..n], key), key);
    }
  }

  /** An ascending list is determined by its members. */
  lemma {:induction false} AscendingUnique<T(!new)>(a: seq<T>, b: seq<T>, key: T -> Key)
    requires Ascending(a, key) && Ascending(b, key) && forall x :: x in a <==> x in b
    ensures a == b
  {
    assert b == [] || b[0] in b;
    if a != [] {
      assert a[0] in b && b[0] in a;
      assert a[0] == b[0] by {
        var i :| 0 <= i < |b| && b[i] == a[0];
        var j :| 0 <= j < |a| && a[j] == b[0];
        assert i > 0 ==> Less(key(b[0]), key(b[i]));
        assert j > 0 ==> Less(key(a[0]), key(a[j]));
      }
      forall x ensures x in a[1..] <==> x in b[1..] {
        assert x in a <==> x == a[0] || x in a[1..] by { assert a == [a[0]] + a[1..]; }
        assert x in b <==> x == b[0] || x in b[1..] by { assert b == [b[0]] + b[1..]; }
        assert a[0] !in a[1..] && b[0] !in b[1..];
      }
      AscendingUnique(a[1..], b[1..], key);
    }
  }
}
