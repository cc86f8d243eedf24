/** The orders in which the generators visit actor tuples: ordered triples of
    positions (three nested `for` loops over the actor list, which is also
    the order of `itertools.permutations(actors, 3)`), and k-subsets of
    positions in `itertools.combinations` order, and full orderings in
    `itertools.permutations` order. */
module Enumerate {

  datatype Triple = Triple(i: nat, j: nat, k: nat)

  /** Lexicographic order on triples, the order the nested loops visit them. */
  predicate Before(a: Triple, b: Triple) {
    a.i < b.i || (a.i == b.i && (a.j < b.j || (a.j == b.j && a.k < b.k)))
  }

  predicate Ascending(ts: seq<Triple>) {
    forall p, q :: 0 <= p < q < |ts| ==> Before(ts[p], ts[q])
  }

  /** The output of a loop over `l < i` whose round `l` emits `layer(l)`. */
  function Layers(i: nat, layer: nat -> seq<Triple>): seq<Triple> {
    if i == 0 then [] else Layers(i - 1, layer) + layer(i - 1)
  }

  /** When `t` can only come from round `home`, it is emitted exactly when
      that round ran and emitted it. */
  lemma {:induction false} LayersMember(t: Triple, i: nat, layer: nat -> seq<Triple>, home: nat)
    requires forall l :: t in layer(l) ==> l == home
    ensures t in Layers(i, layer) <==> home < i && t in layer(home)
  {
    if i > 0 {
      LayersMember(t, i - 1, layer, home);
    }
  }

  /** Rounds that are each ascending, and whose triples come in the order of
      their rounds, emit an ascending run. */
  lemma {:induction false} LayersAscending(i: nat, layer: nat -> seq<Triple>, home: Triple -> nat)
    requires forall l :: Ascending(layer(l))
    requires forall l, t :: t in layer(l) ==> home(t) == l
    requires forall a, b :: a in layer(home(a)) && b in layer(home(b)) && home(a) < home(b) ==> Before(a, b)
    ensures Ascending(Layers(i, layer))
    ensures forall t :: t in Layers(i, layer) ==> home(t) < i && t in layer(home(t))
  {
    if i > 0 {
      LayersAscending(i - 1, layer, home);
      var before, last := Layers(i - 1, layer), layer(i - 1);
      forall p, q | 0 <= p < |before| && 0 <= q < |last| ensures Before(before[p], last[q]) {
        assert before[p] in before && last[q] in last;
      }
      AscendingAppend(before, last);
      forall t | t in before + last ensures home(t) < i && t in layer(home(t)) {
        assert t in before || t in last;
      }
    }
  }

  /** Round `k` of the innermost loop: the triple `(i, j, k)` if kept. */
  function RowLayer(i: nat, j: nat, keep: Triple -> bool): nat -> seq<Triple> {
    (k: nat) => if keep(Triple(i, j, k)) then [Triple(i, j, k)] else []
  }

  /** The kept triples `(i, j, k')` with `k' < k`, in loop order. */
  function Row(i: nat, j: nat, k: nat, keep: Triple -> bool): seq<Triple> {
    Layers(k, RowLayer(i, j, keep))
  }

  /** Round `j` of the middle loop: a whole row, unless `pair` rejects `(i, j)`. */
  function PlaneLayer(i: nat, n: nat, pair: (nat, nat) -> bool, keep: Triple -> bool): nat -> seq<Triple> {
    (j: nat) => if pair(i, j) then Row(i, j, n, keep) else []
  }

  /** The kept triples `(i, j', k)` with `j' < j`, `k < n`, skipping the
      pairs `(i, j')` that `pair` rejects, in loop order. */
  function Plane(i: nat, j: nat, n: nat, pair: (nat, nat) -> bool, keep: Triple -> bool): seq<Triple> {
    Layers(j, PlaneLayer(i, n, pair, keep))
  }

  /** Round `i` of the outer loop: a whole plane. */
  function CubeLayer(n: nat, pair: (nat, nat) -> bool, keep: Triple -> bool): nat -> seq<Triple> {
    (i: nat) => Plane(i, n, n, pair, keep)
  }

  /** The kept triples `(i', j, k)` with `i' < i` and `j, k < n`, in loop order. */
  function Cube(i: nat, n: nat, pair: (nat, nat) -> bool, keep: Triple -> bool): seq<Triple> {
    Layers(i, CubeLayer(n, pair, keep))
  }

  /** Every kept triple over `n` positions, each once, in loop order. */
  function Triples(n: nat, pair: (nat, nat) -> bool, keep: Triple -> bool): (r: seq<Triple>)
    ensures forall t :: t in r <==> t.i < n && t.j < n && t.k < n && pair(t.i, t.j) && keep(t)
    ensures Ascending(r)
  {
    forall t ensures t in Cube(n, n, pair, keep) <==> t.i < n && t.j < n && t.k < n && pair(t.i, t.j) && keep(t) {
      CubeMember(t, n, n, pair, keep);
    }
    CubeAscending(n, n, pair, keep);
    Cube(n, n, pair, keep)
  }

  /** The guards of a 3-permutation: the second position differs from the
      first, the third from both. */
  predicate PairApart(i: nat, j: nat) { i != j }
  predicate ThirdApart(t: Triple) { t.k != t.i && t.k != t.j }

  /** `itertools.permutations(range(n), 3)`, and the nested loops that skip
      repeated positions: every triple of distinct positions below `n`,
      each once, in lexicographic order. */
  function Permutations3(n: nat): (r: seq<Triple>)
    ensures forall t :: t in r <==> t.i < n && t.j < n && t.k < n && t.i != t.j && t.k != t.i && t.k != t.j
    ensures Ascending(r)
  {
    Triples(n, PairApart, ThirdApart)
  }

  /** Whether a triple is in a row: exactly when it is kept and its last
      position is below `k`. */
  lemma RowMember(t: Triple, i: nat, j: nat, k: nat, keep: Triple -> bool)
    ensures t in Row(i, j, k, keep) <==> t.i == i && t.j == j && t.k < k && keep(t)
  {
    LayersMember(t, k, RowLayer(i, j, keep), t.k);
  }

  lemma PlaneMember(t: Triple, i: nat, j: nat, n: nat, pair: (nat, nat) -> bool, keep: Triple -> bool)
    ensures t in Plane(i, j, n, pair, keep) <==> t.i == i && t.j < j && t.k < n && pair(t.i, t.j) && keep(t)
  {
    forall l: nat ensures t in PlaneLayer(i, n, pair, keep)(l) ==> l == t.j {
      RowMember(t, i, l, n, keep);
    }
    LayersMember(t, j, PlaneLayer(i, n, pair, keep), t.j);
    RowMember(t, i, t.j, n, keep);
  }

  lemma CubeMember(t: Triple, i: nat, n: nat, pair: (nat, nat) -> bool, keep: Triple -> bool)
    ensures t in Cube(i, n, pair, keep) <==> t.i < i && t.j < n && t.k < n && pair(t.i, t.j) && keep(t)
  {
    forall l: nat ensures t in CubeLayer(n, pair, keep)(l) ==> l == t.i {
      PlaneMember(t, l, n, n, pair, keep);
    }
    LayersMember(t, i, CubeLayer(n, pair, keep), t.i);
    PlaneMember(t, t.i, n, n, pair, keep);
  }

  /** Two ascending runs, every triple of the first before every triple of
      the second, make an ascending run. */
  lemma AscendingAppend(a: seq<Triple>, b: seq<Triple>)
    requires Ascending(a) && Ascending(b)
    requires forall p, q :: 0 <= p < |a| && 0 <= q < |b| ==> Before(a[p], b[q])
    ensures Ascending(a + b)
  {
    forall p, q | 0 <= p < q < |a + b| ensures Before((a + b)[p], (a + b)[q]) {
      if q < |a| {
        assert (a + b)[p] == a[p] && (a + b)[q] == a[q];
      } else if p < |a| {
        assert (a + b)[p] == a[p] && (a + b)[q] == b[q - |a|];
      } else {
        assert (a + b)[p] == b[p - |a|] && (a + b)[q] == b[q - |a|];
      }
    }
  }

  /** The loops visit triples in lexicographic order. */
  lemma RowAscending(i: nat, j: nat, k: nat, keep: Triple -> bool)
    ensures Ascending(Row(i, j, k, keep))
  {
    LayersAscending(k, RowLayer(i, j, keep), (t: Triple) => t.k);
  }

  lemma PlaneAscending(i: nat, j: nat, n: nat, pair: (nat, nat) -> bool, keep: Triple -> bool)
    ensures Ascending(Plane(i, j, n, pair, keep))
  {
    var layer := PlaneLayer(i, n, pair, keep);
    forall l: nat ensures Ascending(layer(l)) && forall t :: t in layer(l) ==> t.i == i && t.j == l {
      RowAscending(i, l, n, keep);
      forall t ensures t in layer(l) ==> t.i == i && t.j == l {
        RowMember(t, i, l, n, keep);
      }
    }
    LayersAscending(j, layer, (t: Triple) => t.j);
  }

  lemma CubeAscending(i: nat, n: nat, pair: (nat, nat) -> bool, keep: Triple -> bool)
    ensures Ascending(Cube(i, n, pair, keep))
  {
    var layer := CubeLayer(n, pair, keep);
    forall l: nat ensures Ascending(layer(l)) && forall t :: t in layer(l) ==> t.i == l {
      PlaneAscending(l, n, n, pair, keep);
      forall t ensures t in layer(l) ==> t.i == l {
        PlaneMember(t, l, n, n, pair, keep);
      }
    }
    LayersAscending(i, layer, (t: Triple) => t.i);
  }

  // One more round of each loop appends to the triples visited so far.

  lemma RowStep(i: nat, j: nat, k: nat, keep: Triple -> bool)
    ensures Row(i, j, k + 1, keep) == Row(i, j, k, keep) + (if keep(Triple(i, j, k)) then [Triple(i, j, k)] else [])
  {
  }

  lemma PlaneStep(i: nat, j: nat, n: nat, pair: (nat, nat) -> bool, keep: Triple -> bool)
    ensures Plane(i, j + 1, n, pair, keep) == Plane(i, j, n, pair, keep) + (if pair(i, j) then Row(i, j, n, keep) else [])
  {
  }

  lemma CubeStep(i: nat, n: nat, pair: (nat, nat) -> bool, keep: Triple -> bool)
    ensures Cube(i + 1, n, pair, keep) == Cube(i, n, pair, keep) + Plane(i, n, n, pair, keep)
  {
  }

  /** An ascending sequence holds no triple twice. */
  lemma AscendingDistinct(ts: seq<Triple>)
    requires Ascending(ts)
    ensures forall p, q :: 0 <= p < q < |ts| ==> ts[p] != ts[q]
  {
  }

  // ---------------------------------------------------------------------
  // k-subsets of positions, `itertools.combinations(range(n), k)` order.
  // ---------------------------------------------------------------------

  predicate Increasing(c: seq<nat>) {
    forall p, q :: 0 <= p < q < |c| ==> c[p] < c[q]
  }

  /** `[[x] + t for t in tails]`. */
  function Prefixed<T>(x: T, tails: seq<seq<T>>): (r: seq<seq<T>>)
    ensures |r| == |tails|
    ensures forall p :: 0 <= p < |r| ==> r[p] == [x] + tails[p]
  {
    seq(|tails|, p requires 0 <= p < |tails| => [x] + tails[p])
  }

  /** `c` lists `k` positions of `[start, n)` in increasing order. */
  predicate IsCombination(c: seq<nat>, k: nat, start: nat, n: nat) {
    |c| == k && Increasing(c) && forall p :: 0 <= p < |c| ==> start <= c[p] < n
  }

  lemma ConsCombination(t: seq<nat>, k: nat, start: nat, n: nat)
    requires start < n && IsCombination(t, k, start + 1, n)
    ensures IsCombination([start] + t, k + 1, start, n)
  {
    var c := [start] + t;
    forall p, q | 0 <= p < q < |c| ensures c[p] < c[q] {
      if p > 0 { assert c[p] == t[p - 1] && c[q] == t[q - 1]; } else { assert c[q] == t[q - 1]; }
    }
  }

  /** The `k`-subsets of `[start, n)` as increasing position lists. */
  function Combinations(k: nat, start: nat, n: nat): (r: seq<seq<nat>>)
    ensures forall c :: c in r ==> IsCombination(c, k, start, n)
    decreases k, n - start
  {
    if k == 0 then [[]]
    else if start >= n then []
    else
      var tails := Combinations(k - 1, start + 1, n);
      var heads := Prefixed(start, tails);
      var rest := Combinations(k, start + 1, n);
      assert forall c :: c in heads ==> IsCombination(c, k, start, n) by {
        forall c | c in heads ensures IsCombination(c, k, start, n) {
          var p :| 0 <= p < |heads| && heads[p] == c;
          ConsCombination(tails[p], k - 1, start, n);
        }
      }
      heads + rest
  }

  /** Every increasing list of `k` positions in `[start, n)` is visited. */
  lemma {:induction false} CombinationsComplete(c: seq<nat>, k: nat, start: nat, n: nat)
    requires IsCombination(c, k, start, n)
    ensures c in Combinations(k, start, n)
    decreases k, n - start
  {
    if k == 0 {
      assert c == [];
    } else {
      assert start <= c[0] < n;
      CombinationsSplit(k, start, n);
      if c[0] == start {
        DropFirst(c, k, start, n);
        CombinationsComplete(c[1..], k - 1, start + 1, n);
        InPrefixed(start, Combinations(k - 1, start + 1, n), c[1..]);
        assert c == [start] + c[1..];
      } else {
        RaiseStart(c, k, start, n);
        CombinationsComplete(c, k, start + 1, n);
      }
    }
  }

  lemma CombinationsSplit(k: nat, start: nat, n: nat)
    requires k > 0 && start < n
    ensures Combinations(k, start, n) == Prefixed(start, Combinations(k - 1, start + 1, n)) + Combinations(k, start + 1, n)
  {
  }

  lemma DropFirst(c: seq<nat>, k: nat, start: nat, n: nat)
    requires IsCombination(c, k, start, n) && k > 0
    ensures IsCombination(c[1..], k - 1, c[0] + 1, n)
  {
    forall p | 0 <= p < |c[1..]| ensures c[0] + 1 <= c[1..][p] {
      assert c[0] < c[p + 1];
    }
  }

  lemma RaiseStart(c: seq<nat>, k: nat, start: nat, n: nat)
    requires IsCombination(c, k, start, n) && k > 0 && c[0] != start
    ensures IsCombination(c, k, start + 1, n)
  {
    forall p | 0 <= p < |c| ensures start + 1 <= c[p] {
      assert c[0] <= c[p];
    }
  }

  lemma InPrefixed<T>(x: T, tails: seq<seq<T>>, t: seq<T>)
    requires t in tails
    ensures [x] + t in Prefixed(x, tails)
  {
    var p :| 0 <= p < |tails| && tails[p] == t;
    assert Prefixed(x, tails)[p] == [x] + t;
  }

  // ---------------------------------------------------------------------
  // `itertools.permutations(s)`: every ordering of the items of `s`, first
  // by the position of the first item, then recursively.
  // ---------------------------------------------------------------------

  /** `s` without its item at position `i`. */
  function Without<T>(s: seq<T>, i: nat): (r: seq<T>)
    requires i < |s|
    ensures |r| == |s| - 1
  {
    s[..i] + s[i + 1..]
  }

  lemma WithoutMultiset<T>(s: seq<T>, i: nat)
    requires i < |s|
    ensures multiset(s) == multiset(Without(s, i)) + multiset{s[i]}
  {
    assert s == s[..i] + [s[i]] + s[i + 1..];
  }

  /** `[f(x) for x in s]`. */
  function Map<A, B>(f: A -> B, s: seq<A>): (r: seq<B>)
    ensures |r| == |s|
    ensures forall i :: 0 <= i < |s| ==> r[i] == f(s[i])
  {
    seq(|s|, i requires 0 <= i < |s| => f(s[i]))
  }

  lemma MapWithout<A, B>(f: A -> B, b: seq<A>, i: nat)
    requires i < |b|
    ensures Map(f, Without(b, i)) == Without(Map(f, b), i)
  {
  }

  lemma MapCons<A, B>(f: A -> B, a: seq<A>)
    requires a != []
    ensures multiset(Map(f, a)) == multiset{f(a[0])} + multiset(Map(f, a[1..]))
  {
    assert Map(f, a) == [f(a[0])] + Map(f, a[1..]);
  }

  /** Mapping two rearrangements of a list gives two rearrangements. */
  lemma {:induction false} MapPermutes<A, B>(f: A -> B, a: seq<A>, b: seq<A>)
    requires multiset(a) == multiset(b)
    ensures multiset(Map(f, a)) == multiset(Map(f, b))
    decreases |a|
  {
    if a != [] {
      assert a[0] in multiset(b);
      var i :| 0 <= i < |b| && b[i] == a[0];
      var rest, others := a[1..], Without(b, i);
      WithoutMultiset(b, i);
      assert a == [a[0]] + rest;
      assert multiset(a) == multiset{a[0]} + multiset(rest);
      assert multiset(rest) == multiset(a) - multiset{a[0]};
      assert multiset(others) == multiset(b) - multiset{b[i]};
      MapPermutes(f, rest, others);
      MapCons(f, a);
      MapWithout(f, b, i);
      WithoutMultiset(Map(f, b), i);
    }
  }

  function Permutations<T>(s: seq<T>): seq<seq<T>>
    decreases |s|, 1, 0
  {
    if s == [] then [[]] else PermutationsFrom(s, 0)
  }

  /** The orderings whose first item comes from position `i` or later. */
  function PermutationsFrom<T>(s: seq<T>, i: nat): seq<seq<T>>
    requires i <= |s|
    decreases |s|, 0, |s| - i
  {
    if i == |s| then []
    else Prefixed(s[i], Permutations(Without(s, i))) + PermutationsFrom(s, i + 1)
  }

  /** Every ordering listed is a rearrangement of `s`. */
  lemma {:induction false} PermutationsSound<T>(s: seq<T>, p: seq<T>)
    requires p in Permutations(s)
    ensures multiset(p) == multiset(s)
    decreases |s|, 1, 0
  {
    if s != [] {
      PermutationsFromSound(s, 0, p);
    }
  }

  lemma {:induction false} PermutationsFromSound<T>(s: seq<T>, i: nat, p: seq<T>)
    requires i <= |s| && p in PermutationsFrom(s, i)
    ensures multiset(p) == multiset(s)
    decreases |s|, 0, |s| - i
  {
    if i < |s| {
      var rest := Permutations(Without(s, i));
      var heads := Prefixed(s[i], rest);
      if p in heads {
        var q :| 0 <= q < |heads| && heads[q] == p;
        PermutationsSound(Without(s, i), rest[q]);
        WithoutMultiset(s, i);
        assert p == [s[i]] + rest[q];
      } else {
        PermutationsFromSound(s, i + 1, p);
      }
    }
  }

  /** Every rearrangement of `s` is listed. */
  lemma {:induction false} PermutationsComplete<T>(s: seq<T>, p: seq<T>)
    requires multiset(p) == multiset(s)
    ensures p in Permutations(s)
    decreases |s|
  {
    assert |p| == |multiset(p)| == |multiset(s)| == |s|;
    if s != [] {
      assert p[0] in multiset(s);
      var i :| 0 <= i < |s| && s[i] == p[0];
      WithoutMultiset(s, i);
      assert p == [p[0]] + p[1..];
      assert multiset(p) == multiset{p[0]} + multiset(p[1..]);
      assert multiset(p[1..]) == multiset(p) - multiset{p[0]};
      assert multiset(Without(s, i)) == multiset(s) - multiset{s[i]};
      PermutationsComplete(Without(s, i), p[1..]);
      InPrefixed(s[i], Permutations(Without(s, i)), p[1..]);
      PermutationsFromEarlier(s, 0, i, p);
    }
  }

  lemma {:induction false} PermutationsFromEarlier<T>(s: seq<T>, j: nat, i: nat, p: seq<T>)
    requires j <= i < |s| && p in Prefixed(s[i], Permutations(Without(s, i)))
    ensures p in PermutationsFrom(s, j)
    decreases i - j
  {
    if j < i {
      PermutationsFromEarlier(s, j + 1, i, p);
    }
  }
}
