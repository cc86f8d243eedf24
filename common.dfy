/** Shared vocabulary: optional values, duplicate-free sequences, filters,
    first-occurrence de-duplication and insertion-ordered counters (the
    Python `dict[str, int]` the statistics code increments in place). */
module Common {

  datatype Option<T> = None | Some(value: T)

  /** No value occurs twice. */
  predicate Distinct<T(==)>(s: seq<T>) {
    forall i, j :: 0 <= i < j < |s| ==> s[i] != s[j]
  }

  lemma DistinctCons<T>(x: T, s: seq<T>)
    ensures Distinct([x] + s) <==> x !in s && Distinct(s)
  {
    var t := [x] + s;
    assert forall i :: 0 <= i < |s| ==> t[i + 1] == s[i];
    if x !in s && Distinct(s) {
      forall i, j | 0 <= i < j < |t| ensures t[i] != t[j] {
        if i > 0 { assert t[i] == s[i - 1] && t[j] == s[j - 1]; }
      }
    }
    if Distinct(t) {
      forall i, j | 0 <= i < j < |s| ensures s[i] != s[j] {
        assert t[i + 1] == s[i] && t[j + 1] == s[j];
      }
      forall k | 0 <= k < |s| ensures s[k] != x {
        assert t[0] != t[k + 1];
      }
    }
  }

  /** A value held once by a duplicate-free sequence occurs once. */
  lemma {:induction false} DistinctCount<T>(s: seq<T>, k: nat)
    requires Distinct(s) && k < |s|
    ensures multiset(s)[s[k]] == 1
    decreases |s|
  {
    assert s == s[..k] + [s[k]] + s[k + 1..];
    assert s[k] !in s[..k] by {
      forall i | 0 <= i < k ensures s[..k][i] != s[k] { assert s[..k][i] == s[i]; }
    }
    var tail := s[k + 1..];
    assert s[k] !in tail by {
      forall i | 0 <= i < |tail| ensures tail[i] != s[k] { assert tail[i] == s[k + 1 + i]; }
    }
    assert multiset(s) == multiset(s[..k]) + multiset{s[k]} + multiset(tail);
  }

  /** Two equal entries make a value occur at least twice. */
  lemma TwiceCounted<T>(r: seq<T>, i: nat, j: nat)
    requires i < j < |r|
    ensures r[i] == r[j] ==> multiset(r)[r[j]] >= 2
  {
    assert r == r[..j] + [r[j]] + r[j + 1..];
    assert r[i] == r[..j][i];
    assert multiset(r) == multiset(r[..j]) + multiset{r[j]} + multiset(r[j + 1..]);
  }

  /** A rearrangement of a duplicate-free sequence is duplicate-free. */
  lemma DistinctPermutation<T>(s: seq<T>, r: seq<T>)
    requires Distinct(s) && multiset(r) == multiset(s)
    ensures Distinct(r)
  {
    forall x ensures multiset(r)[x] <= 1 {
      if x in s {
        var k :| 0 <= k < |s| && s[k] == x;
        DistinctCount(s, k);
      }
    }
    forall i, j | 0 <= i < j < |r| ensures r[i] != r[j] {
      TwiceCounted(r, i, j);
    }
  }

  /** The elements of `s` that satisfy `p`, in order (a list comprehension with an `if`). */
  function Filter<T>(s: seq<T>, p: T -> bool): (r: seq<T>)
    ensures |r| <= |s|
  {
    if s == [] then [] else (if p(s[0]) then [s[0]] else []) + Filter(s[1..], p)
  }

  /** The filter keeps exactly the elements that satisfy `p`. */
  lemma {:induction false} FilterMember<T>(s: seq<T>, p: T -> bool, x: T)
    ensures x in Filter(s, p) <==> x in s && p(x)
  {
    if s != [] {
      FilterMember(s[1..], p, x);
      assert s == [s[0]] + s[1..];
    }
  }

  lemma FilterCons<T>(x: T, s: seq<T>, p: T -> bool)
    ensures Filter([x] + s, p) == (if p(x) then [x] else []) + Filter(s, p)
  {
    assert ([x] + s)[1..] == s;
  }

  lemma {:induction false} FilterAppend<T>(a: seq<T>, b: seq<T>, p: T -> bool)
    ensures Filter(a + b, p) == Filter(a, p) + Filter(b, p)
    decreases |a|
  {
    if a == [] {
      assert a + b == b;
    } else {
      var head := if p(a[0]) then [a[0]] else [];
      assert a + b == [a[0]] + (a[1..] + b);
      FilterCons(a[0], a[1..] + b, p);
      FilterAppend(a[1..], b, p);
      assert a == [a[0]] + a[1..];
      FilterCons(a[0], a[1..], p);
      AppendAssoc(head, Filter(a[1..], p), Filter(b, p));
    }
  }

  /** A filter every element passes keeps the whole sequence. */
  lemma {:induction false} FilterAll<T>(s: seq<T>, p: T -> bool)
    requires forall x :: x in s ==> p(x)
    ensures Filter(s, p) == s
  {
    if s != [] {
      assert forall x :: x in s[1..] ==> x in s;
      FilterAll(s[1..], p);
    }
  }

  /** What a filter keeps and what it drops add up to the whole. */
  lemma {:induction false} FilterSplit<T>(s: seq<T>, p: T -> bool, q: T -> bool)
    requires forall x :: q(x) == !p(x)
    ensures |Filter(s, p)| + |Filter(s, q)| == |s|
  {
    if s != [] {
      FilterSplit(s[1..], p, q);
    }
  }

  /** A filter of a duplicate-free sequence is duplicate-free. */
  lemma {:induction false} FilterDistinct<T>(s: seq<T>, p: T -> bool)
    requires Distinct(s)
    ensures Distinct(Filter(s, p))
  {
    if s != [] {
      assert s == [s[0]] + s[1..];
      DistinctCons(s[0], s[1..]);
      FilterDistinct(s[1..], p);
      FilterMember(s[1..], p, s[0]);
      DistinctCons(s[0], Filter(s[1..], p));
    }
  }

  lemma DistinctSnoc<T>(s: seq<T>, x: T)
    requires Distinct(s) && x !in s
    ensures Distinct(s + [x])
  {
  }

  /** Dropping the last element of a duplicate-free sequence leaves one
      that does not hold it. */
  lemma DistinctLast<T>(s: seq<T>)
    requires Distinct(s) && s != []
    ensures Distinct(s[..|s| - 1]) && s[|s| - 1] !in s[..|s| - 1]
  {
    var init := s[..|s| - 1];
    forall i | 0 <= i < |init| ensures init[i] == s[i] {
    }
  }

  /** Two duplicate-free sequences with nothing in common concatenate to one. */
  lemma DistinctConcat<T>(a: seq<T>, b: seq<T>)
    requires Distinct(a) && Distinct(b)
    requires forall x :: x in a ==> x !in b
    ensures Distinct(a + b)
  {
    var c := a + b;
    forall i, j | 0 <= i < j < |c| ensures c[i] != c[j] {
      if j < |a| {
        assert c[i] == a[i] && c[j] == a[j];
      } else if i >= |a| {
        assert c[i] == b[i - |a|] && c[j] == b[j - |a|];
      } else {
        assert c[i] == a[i] && c[j] == b[j - |a|];
        assert a[i] in a;
      }
    }
  }

  /** In a duplicate-free sequence every element occurs exactly once. */
  lemma DistinctOnce<T>(s: seq<T>, x: T)
    requires Distinct(s)
    ensures multiset(s)[x] == if x in s then 1 else 0
  {
    if x in s {
      var k :| 0 <= k < |s| && s[k] == x;
      DistinctCount(s, k);
    }
  }

  /** Duplicate-free sequences with the same elements have the same length. */
  lemma DistinctSameLength<T>(a: seq<T>, b: seq<T>)
    requires Distinct(a) && Distinct(b)
    requires forall x :: x in a <==> x in b
    ensures |a| == |b|
  {
    forall x ensures multiset(a)[x] == multiset(b)[x] {
      DistinctOnce(a, x);
      DistinctOnce(b, x);
    }
    assert multiset(a) == multiset(b);
    assert |a| == |multiset(a)| == |multiset(b)| == |b|;
  }

  /** Part of a duplicate-free sequence by multiplicity is duplicate-free. */
  lemma DistinctSubMultiset<T>(a: seq<T>, b: seq<T>)
    requires Distinct(b) && multiset(a) <= multiset(b)
    ensures Distinct(a)
  {
    forall i, j | 0 <= i < j < |a| ensures a[i] != a[j] {
      TwiceCounted(a, i, j);
      DistinctOnce(b, a[j]);
    }
  }

  /** Number of occurrences of `x` in `s`. */
  function Count<T(==)>(s: seq<T>, x: T): (n: nat)
    ensures n <= |s|
    ensures n == 0 <==> x !in s
  {
    if s == [] then 0 else (if s[0] == x then 1 else 0) + Count(s[1..], x)
  }

  lemma CountAppend<T>(a: seq<T>, b: seq<T>, x: T)
    ensures Count(a + b, x) == Count(a, x) + Count(b, x)
  {
    if a == [] {
      assert a + b == b;
    } else {
      assert (a + b)[1..] == a[1..] + b;
      CountAppend(a[1..], b, x);
    }
  }

  /** Distinct values in order of first occurrence (pandas `Series.unique()`). */
  function Unique<T(==,!new)>(s: seq<T>): (r: seq<T>)
    ensures Distinct(r)
    ensures forall x :: x in r <==> x in s
    ensures |r| <= |s|
  {
    var r := UniqueAfter(s, []);
    assert [] + r == r;
    r
  }

  /** Helper for `Unique`: the values of `s` not in `seen`, first occurrences only. */
  function UniqueAfter<T(==,!new)>(s: seq<T>, seen: seq<T>): (r: seq<T>)
    requires Distinct(seen)
    ensures Distinct(seen + r)
    ensures forall x :: x in r <==> x in s && x !in seen
    ensures |r| <= |s|
    decreases |s|
  {
    if s == [] then []
    else if s[0] in seen then UniqueAfter(s[1..], seen)
    else
      var rest := UniqueAfter(s[1..], seen + [s[0]]);
      assert seen + ([s[0]] + rest) == (seen + [s[0]]) + rest;
      [s[0]] + rest
  }

  /** Two sequences whose items match position by position (the `q`-th
      pair satisfies `P` with number `q + 1`) keep matching when each is
      extended by at most one matching item. */
  lemma ExtendMatching<R, X>(P: (R, nat, X) -> bool, prev: seq<R>, kept: seq<X>, v: seq<R>, k: seq<X>)
    requires |prev| == |kept| && |v| == |k| <= 1
    requires forall q :: 0 <= q < |prev| ==> P(prev[q], q + 1, kept[q])
    requires v != [] ==> P(v[0], |prev| + 1, k[0])
    ensures |prev + v| == |kept + k|
    ensures forall q :: 0 <= q < |prev + v| ==> P((prev + v)[q], q + 1, (kept + k)[q])
  {
    forall q | 0 <= q < |prev + v| ensures P((prev + v)[q], q + 1, (kept + k)[q]) {
      if q < |prev| {
        assert (prev + v)[q] == prev[q] && (kept + k)[q] == kept[q];
      } else {
        assert (prev + v)[q] == v[0] && (kept + k)[q] == k[0];
      }
    }
  }

  lemma AppendAssoc<T>(a: seq<T>, b: seq<T>, c: seq<T>)
    ensures a + (b + c) == a + b + c
  {
  }

  /** The list a loop builds by appending `step(len(out), x)` to `out` for
      each `x` in turn, the step seeing how many items came before. */
  function Scan<X, R>(step: (nat, X) -> seq<R>, xs: seq<X>): seq<R>
    decreases |xs|
  {
    if xs == [] then []
    else
      var prev := Scan(step, xs[..|xs| - 1]);
      prev + step(|prev|, xs[|xs| - 1])
  }

  /** One more loop round appends one more step. */
  lemma ScanSnoc<X, R>(step: (nat, X) -> seq<R>, xs: seq<X>, x: X)
    ensures Scan(step, xs + [x]) == Scan(step, xs) + step(|Scan(step, xs)|, x)
  {
    assert (xs + [x])[..|xs|] == xs;
  }

  /** One more element of `xs` adds its step's output. */
  lemma ScanNext<X, R>(step: (nat, X) -> seq<R>, xs: seq<X>, p: nat)
    requires p < |xs|
    ensures Scan(step, xs[..p + 1]) == Scan(step, xs[..p]) + step(|Scan(step, xs[..p])|, xs[p])
  {
    assert xs[..p + 1][..p] == xs[..p];
  }

  /** Steps that agree on the inputs build the same list. */
  lemma {:induction false} ScanAgrees<X, R>(step: (nat, X) -> seq<R>, other: (nat, X) -> seq<R>, xs: seq<X>)
    requires forall e: nat, x :: x in xs ==> step(e, x) == other(e, x)
    ensures Scan(step, xs) == Scan(other, xs)
    decreases |xs|
  {
    if xs != [] {
      var init := xs[..|xs| - 1];
      assert forall x :: x in init ==> x in xs;
      ScanAgrees(step, other, init);
    }
  }

  /** A property every step's items have holds of every item of the list. */
  lemma {:induction false} ScanAll<X, R>(step: (nat, X) -> seq<R>, P: R -> bool, xs: seq<X>)
    requires forall e: nat, x, r :: x in xs && r in step(e, x) ==> P(r)
    ensures forall r :: r in Scan(step, xs) ==> P(r)
    decreases |xs|
  {
    if xs != [] {
      var init := xs[..|xs| - 1];
      assert forall x :: x in init ==> x in xs;
      ScanAll(step, P, init);
    }
  }

  /** When each step appends one item exactly for the inputs `keep` accepts,
      the items line up with `Filter(xs, keep)`; whatever each step
      promises about its item (`P`, with the item's 1-based number) holds
      position by position. */
  lemma {:induction false} ScanMatches<X(!new), R>(step: (nat, X) -> seq<R>, keep: X -> bool, P: (R, nat, X) -> bool, xs: seq<X>)
    requires forall e: nat, x :: x in xs ==> |step(e, x)| <= 1 && (step(e, x) != [] <==> keep(x))
    requires forall e: nat, x :: x in xs && step(e, x) != [] ==> P(step(e, x)[0], e + 1, x)
    ensures |Scan(step, xs)| == |Filter(xs, keep)|
    ensures forall q :: 0 <= q < |Scan(step, xs)| ==> P(Scan(step, xs)[q], q + 1, Filter(xs, keep)[q])
    decreases |xs|
  {
    if xs != [] {
      var init, last := xs[..|xs| - 1], xs[|xs| - 1];
      assert xs == init + [last];
      ScanMatches(step, keep, P, init);
      FilterAppend(init, [last], keep);
      assert Filter([last], keep) == if keep(last) then [last] else [];
      var prev := Scan(step, init);
      ExtendMatching(P, prev, Filter(init, keep), step(|prev|, last), Filter([last], keep));
    }
  }

  /** Sum of a sequence of naturals. */
  function Sum(s: seq<nat>): nat {
    if s == [] then 0 else s[0] + Sum(s[1..])
  }

  lemma SumAppend(a: seq<nat>, b: seq<nat>)
    ensures Sum(a + b) == Sum(a) + Sum(b)
  {
    if a == [] {
      assert a + b == b;
    } else {
      assert (a + b)[1..] == a[1..] + b;
      SumAppend(a[1..], b);
    }
  }

  /** The dict a loop fills with `d[key(x)] = val(x)` for each `x` in turn. */
  function Fill<X, K(==), V>(xs: seq<X>, key: X -> K, val: X -> V): map<K, V>
    decreases |xs|
  {
    if xs == [] then map[]
    else Fill(xs[..|xs| - 1], key, val)[key(xs[|xs| - 1]) := val(xs[|xs| - 1])]
  }

  /** Every key of the items is present and holds the value of the last
      item with that key: later writes overwrite earlier ones. */
  lemma {:induction false} FillLast<X, K, V>(xs: seq<X>, key: X -> K, val: X -> V, k: K)
    ensures k in Fill(xs, key, val) <==> exists i :: 0 <= i < |xs| && key(xs[i]) == k
    ensures k in Fill(xs, key, val) ==>
      exists i :: (0 <= i < |xs| && key(xs[i]) == k && Fill(xs, key, val)[k] == val(xs[i]) &&
        forall j :: i < j < |xs| ==> key(xs[j]) != k)
    decreases |xs|
  {
    if xs != [] {
      var n := |xs| - 1;
      var init := xs[..n];
      FillLast(init, key, val, k);
      assert forall i :: 0 <= i < n ==> init[i] == xs[i];
      if key(xs[n]) != k && k in Fill(init, key, val) {
        var i :| 0 <= i < n && key(init[i]) == k && Fill(init, key, val)[k] == val(init[i]) &&
          forall j :: i < j < n ==> key(init[j]) != k;
        assert key(xs[i]) == k && Fill(xs, key, val)[k] == val(xs[i]);
      }
    }
  }

  // ---------------------------------------------------------------------
  // Counters: a Python dict from keys to counts, kept in insertion order.
  // ---------------------------------------------------------------------

  datatype Entry = Entry(key: string, count: nat)
  type Counter = seq<Entry>

  function Keys(c: Counter): seq<string> {
    seq(|c|, i requires 0 <= i < |c| => c[i].key)
  }

  predicate WellFormed(c: Counter) {
    Distinct(Keys(c))
  }

  /** `d.get(k, 0)`. */
  function Get(c: Counter, k: string): nat {
    if c == [] then 0 else if c[0].key == k then c[0].count else Get(c[1..], k)
  }

  function Total(c: Counter): nat {
    if c == [] then 0 else c[0].count + Total(c[1..])
  }

  /** `d[k] = d.get(k, 0) + n`: adds `n` to the count of `k`, appending a new
      key at the end when it is absent. */
  function AddTo(c: Counter, k: string, n: nat): (r: Counter)
    requires WellFormed(c)
    ensures WellFormed(r)
    ensures Total(r) == Total(c) + n
    ensures Get(r, k) == Get(c, k) + n
    ensures forall j :: j != k ==> Get(r, j) == Get(c, j)
    ensures forall j :: j in Keys(r) <==> j in Keys(c) || j == k
  {
    if c == [] then
      KeysCons(Entry(k, n), []);
      assert [Entry(k, n)] + [] == [Entry(k, n)];
      assert Keys(c) == [];
      [Entry(k, n)]
    else
      KeysCons(c[0], c[1..]);
      assert c == [c[0]] + c[1..];
      DistinctCons(c[0].key, Keys(c[1..]));
      if c[0].key == k then
        GetAbsent(c[1..], k);
        var r := [Entry(k, c[0].count + n)] + c[1..];
        KeysCons(r[0], c[1..]);
        r
      else
        var rest := AddTo(c[1..], k, n);
        KeysCons(c[0], rest);
        DistinctCons(c[0].key, Keys(rest));
        [c[0]] + rest
  }

  /** Each value with its number of occurrences, in order of first
      occurrence. */
  function Tally(names: seq<string>): (c: Counter)
    ensures WellFormed(c)
    decreases |names|
  {
    if names == [] then []
    else AddTo(Tally(names[..|names| - 1]), names[|names| - 1], 1)
  }

  /** Every value gets one entry, holding its number of occurrences, and
      the counts add up to the number of values. */
  lemma {:induction false} TallyFacts(names: seq<string>)
    ensures Total(Tally(names)) == |names|
    ensures forall k :: Get(Tally(names), k) == Count(names, k)
    ensures forall k :: k in Keys(Tally(names)) <==> k in names
    decreases |names|
  {
    if names != [] {
      var init, last := names[..|names| - 1], names[|names| - 1];
      TallyFacts(init);
      assert names == init + [last];
      forall k ensures Count(names, k) == Count(init, k) + (if last == k then 1 else 0) {
        CountAppend(init, [last], k);
      }
    }
  }

  /** Counting one more value adds it to the counter. */
  lemma TallySnoc(names: seq<string>, x: string)
    ensures Tally(names + [x]) == AddTo(Tally(names), x, 1)
  {
    assert (names + [x])[..|names|] == names;
  }

  /** `for k, n in d.items(): total[k] = total.get(k, 0) + n`: adds every
      count of `d` into `c`. */
  function AddAll(c: Counter, d: Counter): (r: Counter)
    requires WellFormed(c)
    ensures WellFormed(r)
    ensures Total(r) == Total(c) + Total(d)
    decreases |d|
  {
    if d == [] then c else AddAll(AddTo(c, d[0].key, d[0].count), d[1..])
  }

  /** Adding a counter with distinct keys adds its count to each key. */
  lemma {:induction false} AddAllGet(c: Counter, d: Counter, k: string)
    requires WellFormed(c) && WellFormed(d)
    ensures Get(AddAll(c, d), k) == Get(c, k) + Get(d, k)
    decreases |d|
  {
    if d != [] {
      KeysCons(d[0], d[1..]);
      assert d == [d[0]] + d[1..];
      DistinctCons(d[0].key, Keys(d[1..]));
      AddAllGet(AddTo(c, d[0].key, d[0].count), d[1..], k);
      if d[0].key == k {
        GetAbsent(d[1..], k);
      }
    }
  }

  /** A step that appends at most `k` items per input builds at most `k`
      items per input. */
  lemma {:induction false} ScanLength<X, R>(step: (nat, X) -> seq<R>, xs: seq<X>, k: nat)
    requires forall e: nat, x :: x in xs ==> |step(e, x)| <= k
    ensures |Scan(step, xs)| <= k * |xs|
    decreases |xs|
  {
    if xs != [] {
      var init := xs[..|xs| - 1];
      assert forall x :: x in init ==> x in xs;
      ScanLength(step, init, k);
      assert k * |xs| == k * |init| + k;
    }
  }

  lemma KeysCons(e: Entry, c: Counter)
    ensures Keys([e] + c) == [e.key] + Keys(c)
  {
  }

  lemma GetAbsent(c: Counter, k: string)
    requires k !in Keys(c)
    ensures Get(c, k) == 0
  {
    if c != [] {
      assert Keys(c) == [c[0].key] + Keys(c[1..]);
      GetAbsent(c[1..], k);
    }
  }
}
