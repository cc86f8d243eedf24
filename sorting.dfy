/** Python's `list.sort(key=...)` and `sorted(..., key=...)`: a stable sort.
    The model sorts by insertion; a stable sort's result is determined by
    the keys, so the algorithm behind the library call does not matter. */
module Sorting {
  import opened Common

  /** Keys never decrease along `s`. */
  predicate SortedBy<T>(s: seq<T>, key: T -> real) {
    forall i, j :: 0 <= i < j < |s| ==> key(s[i]) <= key(s[j])
  }

  /** The elements whose key is `v`. */
  function KeyIs<T>(key: T -> real, v: real): T -> bool {
    (x: T) => key(x) == v
  }

  /** Puts `x`, which preceded every element of `s` in the input, before the
      first element whose key is not smaller than its own. */
  function InsertFirst<T>(x: T, s: seq<T>, key: T -> real): seq<T> {
    if s == [] || key(x) <= key(s[0]) then [x] + s
    else [s[0]] + InsertFirst(x, s[1..], key)
  }

  /** `sorted(s, key=key)`. */
  function SortBy<T>(s: seq<T>, key: T -> real): seq<T> {
    if s == [] then [] else InsertFirst(s[0], SortBy(s[1..], key), key)
  }

  lemma {:induction false} InsertFirstPermutes<T>(x: T, s: seq<T>, key: T -> real)
    ensures multiset(InsertFirst(x, s, key)) == multiset([x] + s)
    decreases |s|
  {
    if s != [] && key(x) > key(s[0]) {
      InsertFirstPermutes(x, s[1..], key);
      assert s == [s[0]] + s[1..];
    }
  }

  /** The result is a rearrangement of the input. */
  lemma {:induction false} SortByPermutes<T>(s: seq<T>, key: T -> real)
    ensures multiset(SortBy(s, key)) == multiset(s)
    decreases |s|
  {
    if s != [] {
      SortByPermutes(s[1..], key);
      InsertFirstPermutes(s[0], SortBy(s[1..], key), key);
      assert s == [s[0]] + s[1..];
    }
  }

  lemma {:induction false} InsertFirstMembers<T>(x: T, s: seq<T>, key: T -> real)
    ensures forall y :: y in InsertFirst(x, s, key) ==> y == x || y in s
    decreases |s|
  {
    if s != [] && key(x) > key(s[0]) {
      InsertFirstMembers(x, s[1..], key);
    }
  }

  lemma {:induction false} InsertFirstSorted<T>(x: T, s: seq<T>, key: T -> real)
    requires SortedBy(s, key)
    ensures SortedBy(InsertFirst(x, s, key), key)
    decreases |s|
  {
    if s != [] && key(x) > key(s[0]) {
      var rest := InsertFirst(x, s[1..], key);
      InsertFirstSorted(x, s[1..], key);
      InsertFirstMembers(x, s[1..], key);
      forall y | y in s[1..] ensures key(s[0]) <= key(y) {
        var i :| 0 <= i < |s[1..]| && s[1..][i] == y;
        assert y == s[i + 1];
      }
      var r := [s[0]] + rest;
      forall i, j | 0 <= i < j < |r| ensures key(r[i]) <= key(r[j]) {
        if i == 0 {
          assert r[j] in rest;
        } else {
          assert r[i] == rest[i - 1] && r[j] == rest[j - 1];
        }
      }
    }
  }

  /** The result is sorted. */
  lemma {:induction false} SortBySorted<T>(s: seq<T>, key: T -> real)
    ensures SortedBy(SortBy(s, key), key)
    decreases |s|
  {
    if s != [] {
      SortBySorted(s[1..], key);
      InsertFirstSorted(s[0], SortBy(s[1..], key), key);
    }
  }

  lemma {:induction false} InsertFirstStable<T>(x: T, s: seq<T>, key: T -> real, v: real)
    ensures Filter(InsertFirst(x, s, key), KeyIs(key, v)) == Filter([x] + s, KeyIs(key, v))
    decreases |s|
  {
    var p := KeyIs(key, v);
    if s != [] && key(x) > key(s[0]) {
      var head, tail := s[0], s[1..];
      var moved := InsertFirst(x, tail, key);
      assert InsertFirst(x, s, key) == [head] + moved;
      assert s == [head] + tail;
      InsertFirstStable(x, tail, key, v);
      FilterCons(head, moved, p);
      FilterCons(x, tail, p);
      FilterCons(x, s, p);
      FilterCons(head, tail, p);
      if p(x) {
        assert !p(head);
        assert Filter([head] + moved, p) == Filter(moved, p);
        assert Filter(s, p) == Filter(tail, p);
      } else {
        assert Filter([x] + tail, p) == Filter(tail, p);
        assert Filter([x] + s, p) == Filter(s, p);
      }
    }
  }

  /** Stability: the elements that share a key keep their input order. */
  lemma {:induction false} SortByStable<T>(s: seq<T>, key: T -> real, v: real)
    ensures Filter(SortBy(s, key), KeyIs(key, v)) == Filter(s, KeyIs(key, v))
    decreases |s|
  {
    if s != [] {
      var p := KeyIs(key, v);
      SortByStable(s[1..], key, v);
      InsertFirstStable(s[0], SortBy(s[1..], key), key, v);
      FilterCons(s[0], SortBy(s[1..], key), p);
      FilterCons(s[0], s[1..], p);
      assert s == [s[0]] + s[1..];
    }
  }

  /** Sorting a list that is already sorted leaves it as it is. */
  lemma {:induction false} SortBySortedIsIdentity<T>(s: seq<T>, key: T -> real)
    requires SortedBy(s, key)
    ensures SortBy(s, key) == s
    decreases |s|
  {
    if s != [] {
      assert SortedBy(s[1..], key) by {
        forall i, j | 0 <= i < j < |s| - 1 ensures key(s[1..][i]) <= key(s[1..][j]) {
          assert s[1..][i] == s[i + 1] && s[1..][j] == s[j + 1];
        }
      }
      SortBySortedIsIdentity(s[1..], key);
      assert s == [s[0]] + s[1..];
    }
  }
}
