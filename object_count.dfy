/** The object-count generator (`object_count_all.py`): for every short
    actor name, ask how many objects of that kind the room holds. */
module ObjectCount {
  import opened Common
  import Sorting
  import Enumerate

  /** The values `value_counts` counts: the `ShortActorName` column
      without its missing (NaN) cells. */
  function Present(column: seq<Option<string>>): (r: seq<string>)
    ensures forall x :: x in r <==> Some(x) in column
  {
    if column == [] then []
    else
      assert forall c :: c in column <==> c == column[0] || c in column[1..];
      (if column[0].Some? then [column[0].value] else []) + Present(column[1..])
  }

  /** Sort key of `value_counts`: larger counts first. */
  function Descending(e: Entry): real {
    -(e.count as real)
  }

  /** `df['ShortActorName'].value_counts()`. */
  function ValueCounts(column: seq<Option<string>>): Counter {
    Sorting.SortBy(Tally(Present(column)), Descending)
  }

  /** An entry of a well-formed counter holds the count of its key. */
  lemma {:induction false} EntryGet(c: Counter, e: Entry)
    requires WellFormed(c) && e in c
    ensures Get(c, e.key) == e.count
  {
    if c[0] != e {
      KeysCons(c[0], c[1..]);
      assert c == [c[0]] + c[1..];
      DistinctCons(c[0].key, Keys(c[1..]));
      assert e in c[1..];
      var i :| 0 <= i < |c[1..]| && c[1..][i] == e;
      assert Keys(c[1..])[i] == e.key;
      EntryGet(c[1..], e);
    }
  }

  lemma {:induction false} TotalInsertFirst(x: Entry, s: Counter, key: Entry -> real)
    ensures Total(Sorting.InsertFirst(x, s, key)) == x.count + Total(s)
    decreases |s|
  {
    if s != [] && key(x) > key(s[0]) {
      TotalInsertFirst(x, s[1..], key);
      assert (Sorting.InsertFirst(x, s, key))[1..] == Sorting.InsertFirst(x, s[1..], key);
    }
  }

  lemma {:induction false} TotalSortBy(s: Counter, key: Entry -> real)
    ensures Total(Sorting.SortBy(s, key)) == Total(s)
    decreases |s|
  {
    if s != [] {
      TotalSortBy(s[1..], key);
      TotalInsertFirst(s[0], Sorting.SortBy(s[1..], key), key);
    }
  }

  function KeyOf(e: Entry): string {
    e.key
  }

  /** The sorted counts: one entry per present value, holding its number of
      occurrences, largest first, adding up to the number of present
      values. */
  lemma ValueCountsFacts(column: seq<Option<string>>)
    ensures Distinct(Keys(ValueCounts(column)))
    ensures forall k :: k in Keys(ValueCounts(column)) <==> Some(k) in column
    ensures forall e :: e in ValueCounts(column) ==> e.count == Count(Present(column), e.key)
    ensures Total(ValueCounts(column)) == |Present(column)|
    ensures Sorting.SortedBy(ValueCounts(column), Descending)
  {
    var names := Present(column);
    var t := Tally(names);
    var v := ValueCounts(column);
    TallyFacts(names);
    Sorting.SortByPermutes(t, Descending);
    Sorting.SortBySorted(t, Descending);
    TotalSortBy(t, Descending);
    assert Keys(t) == Enumerate.Map(KeyOf, t);
    assert Keys(v) == Enumerate.Map(KeyOf, v);
    Enumerate.MapPermutes(KeyOf, t, v);
    DistinctPermutation(Keys(t), Keys(v));
    forall k ensures k in Keys(v) <==> k in Keys(t) {
      assert k in Keys(v) <==> k in multiset(Keys(v));
    }
    forall e | e in v ensures e.count == Count(names, e.key) {
      assert e in multiset(v);
      EntryGet(t, e);
    }
  }

  /** One output row; `Answer` equals `Count` in both branches of the
      source, and the question text is not kept. */
  datatype CountRecord = CountRecord(possibility: nat, shortName: string, count: nat, answer: nat)

  /** The rows for the counts, numbered 1, 2, 3, ... */
  function CountRecords(es: Counter): (r: seq<CountRecord>)
    ensures |r| == |es|
  {
    if es == [] then []
    else
      var n := |es|;
      CountRecords(es[..n - 1]) + [CountRecord(n, es[n - 1].key, es[n - 1].count, es[n - 1].count)]
  }

  /** Row `i` is entry `i`, numbered `i + 1`, with its count as the answer. */
  lemma {:induction false} CountRecordsAt(es: Counter)
    ensures forall i :: 0 <= i < |es| ==> CountRecords(es)[i] == CountRecord(i + 1, es[i].key, es[i].count, es[i].count)
    decreases |es|
  {
    if es != [] {
      var init := es[..|es| - 1];
      CountRecordsAt(init);
      forall i | 0 <= i < |es| - 1 ensures CountRecords(es)[i] == CountRecords(init)[i] && init[i] == es[i] {
      }
    }
  }

  /** The counts of a list of rows, added up. */
  function Tallied(rs: seq<CountRecord>): nat {
    if rs == [] then 0 else rs[0].count + Tallied(rs[1..])
  }

  lemma {:induction false} TalliedSnoc(rs: seq<CountRecord>, r: CountRecord)
    ensures Tallied(rs + [r]) == Tallied(rs) + r.count
    decreases |rs|
  {
    if rs != [] {
      assert (rs + [r])[1..] == rs[1..] + [r];
      TalliedSnoc(rs[1..], r);
    }
  }

  lemma {:induction false} TotalSnoc(c: Counter, e: Entry)
    ensures Total(c + [e]) == Total(c) + e.count
    decreases |c|
  {
    if c != [] {
      assert (c + [e])[1..] == c[1..] + [e];
      TotalSnoc(c[1..], e);
    }
  }

  lemma {:induction false} TalliedRecords(es: Counter)
    ensures Tallied(CountRecords(es)) == Total(es)
    decreases |es|
  {
    if es != [] {
      var n := |es|;
      TalliedRecords(es[..n - 1]);
      TalliedSnoc(CountRecords(es[..n - 1]), CountRecord(n, es[n - 1].key, es[n - 1].count, es[n - 1].count));
      assert es == es[..n - 1] + [es[n - 1]];
      TotalSnoc(es[..n - 1], es[n - 1]);
    }
  }

  /** `main` without the file handling: no rows when the column is
      missing, otherwise one row per count. */
  function ObjectCounts(column: Option<seq<Option<string>>>): seq<CountRecord> {
    match column
    case None => []
    case Some(cells) => CountRecords(ValueCounts(cells))
  }

  /** The short names of a list of rows. */
  function Names(rs: seq<CountRecord>): seq<string> {
    seq(|rs|, i requires 0 <= i < |rs| => rs[i].shortName)
  }

  lemma RecordNames(es: Counter)
    ensures Names(CountRecords(es)) == Keys(es)
  {
    CountRecordsAt(es);
  }

  /** One row per distinct short name present, and none when the column
      is missing. */
  lemma ObjectCountsNames(cells: seq<Option<string>>)
    ensures Distinct(Names(ObjectCounts(Some(cells))))
    ensures forall k :: k in Names(ObjectCounts(Some(cells))) <==> Some(k) in cells
    ensures ObjectCounts(None) == []
  {
    ValueCountsFacts(cells);
    RecordNames(ValueCounts(cells));
  }

  /** The rows are numbered from 1; each row's count and answer are the
      number of rows with that short name, largest counts first, and the
      counts add up to the number of rows that have a short name. */
  lemma ObjectCountsCounts(cells: seq<Option<string>>)
    ensures var r := ObjectCounts(Some(cells));
      (forall i :: 0 <= i < |r| ==> r[i].possibility == i + 1 && r[i].answer == r[i].count == Count(Present(cells), r[i].shortName)) &&
      (forall i, j :: 0 <= i < j < |r| ==> r[i].count >= r[j].count) &&
      Tallied(r) == |Present(cells)|
  {
    var v := ValueCounts(cells);
    ValueCountsFacts(cells);
    CountRecordsAt(v);
    TalliedRecords(v);
    forall i | 0 <= i < |v| ensures v[i].count == Count(Present(cells), v[i].key) {
      assert v[i] in v;
    }
    forall i, j | 0 <= i < j < |v| ensures v[i].count >= v[j].count {
      assert Descending(v[i]) <= Descending(v[j]);
    }
  }

  /** The loop over `actor_counts.items()`. */
  method GenerateCounts(column: Option<seq<Option<string>>>) returns (records: seq<CountRecord>)
    ensures records == ObjectCounts(column)
  {
    if column.None? {
      return [];
    }
    var counts := ValueCounts(column.value);
    records := [];
    var possibility := 1;
    for i := 0 to |counts|
      invariant records == CountRecords(counts[..i]) && possibility == i + 1
    {
      var e := counts[i];
      records := records + [CountRecord(possibility, e.key, e.count, e.count)];
      possibility := possibility + 1;
      assert counts[..i + 1][..i] == counts[..i];
    }
    assert counts[..|counts|] == counts;
  }
}
