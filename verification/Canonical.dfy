/** Sorting with de-duplication: a sequence that depends only on which elements are present. */
module Canonical {

  /** `key` stands for the total order the sort uses. */
  ghost predicate Injective<T(!new)>(key: T -> int) {
    forall x, y :: key(x) == key(y) ==> x == y
  }

  predicate Strict<T>(key: T -> int, s: seq<T>) {
    forall i, j :: 0 <= i < j < |s| ==> key(s[i]) < key(s[j])
  }

  function Insert<T(==, !new)>(key: T -> int, x: T, s: seq<T>): (r: seq<T>)
    ensures forall y :: y in r <==> y == x || y in s
  {
    if s == [] then [x]
    else if key(x) < key(s[0]) then [x] + s
    else if key(x) == key(s[0]) then (if x == s[0] then s else [x] + s)
    else [s[0]] + Insert(key, x, s[1..])
  }

  /** Sort and drop repeats. */
  function SortDedup<T(==, !new)>(key: T -> int, s: seq<T>): (r: seq<T>)
    ensures forall y :: y in r <==> y in s
    ensures |r| <= |s|
  {
    if s == [] then [] else
      InsertLength(key, s[0], SortDedup(key, s[1..]));
      Insert(key, s[0], SortDedup(key, s[1..]))
  }

  lemma {:induction false} InsertLength<T(!new)>(key: T -> int, x: T, s: seq<T>)
    ensures |Insert(key, x, s)| <= |s| + 1
  {
    if s != [] && key(x) > key(s[0]) {
      InsertLength(key, x, s[1..]);
    }
  }

  lemma {:induction false} InsertStrict<T(!new)>(key: T -> int, x: T, s: seq<T>)
    requires Injective(key) && Strict(key, s)
    ensures Strict(key, Insert(key, x, s))
  {
    if s != [] && key(x) > key(s[0]) {
      InsertStrict(key, x, s[1..]);
      var rest := Insert(key, x, s[1..]);
      forall j | 0 <= j < |rest|
        ensures key(s[0]) < key(rest[j])
      {
        assert rest[j] in rest;
        assert rest[j] == x || rest[j] in s[1..];
      }
    }
  }

  lemma {:induction false} SortDedupStrict<T(!new)>(key: T -> int, s: seq<T>)
    requires Injective(key)
    ensures Strict(key, SortDedup(key, s))
  {
    if s != [] {
      SortDedupStrict(key, s[1..]);
      InsertStrict(key, s[0], SortDedup(key, s[1..]));
    }
  }

  /** Two strictly ordered sequences with the same elements are equal. */
  lemma {:induction false} StrictUnique<T(!new)>(key: T -> int, a: seq<T>, b: seq<T>)
    requires Strict(key, a) && Strict(key, b)
    requires forall y :: y in a <==> y in b
    ensures a == b
  {
    assert a != [] ==> a[0] in a;
    assert b != [] ==> b[0] in b;
    if a != [] && b != [] {
      assert a[0] in b && b[0] in a;
      assert a[0] == b[0];
      forall y
        ensures y in a[1..] <==> y in b[1..]
      {
        TailMember(key, a, y);
        TailMember(key, b, y);
      }
      StrictUnique(key, a[1..], b[1..]);
      assert a == [a[0]] + a[1..] && b == [b[0]] + b[1..];
    }
  }

  lemma TailMember<T>(key: T -> int, a: seq<T>, y: T)
    requires a != [] && Strict(key, a)
    ensures y in a[1..] <==> y in a && y != a[0]
  {
    if y in a && y != a[0] {
      var i :| 0 <= i < |a| && a[i] == y;
      assert a[1..][i - 1] == y;
    }
  }

  /** Order and repetition never matter. */
  lemma SortDedupCanonical<T(!new)>(key: T -> int, a: seq<T>, b: seq<T>)
    requires Injective(key)
    requires forall y :: y in a <==> y in b
    ensures SortDedup(key, a) == SortDedup(key, b)
  {
    SortDedupStrict(key, a);
    SortDedupStrict(key, b);
    StrictUnique(key, SortDedup(key, a), SortDedup(key, b));
  }
}
