/** The object-size generator (`object_size_all.py`): for every actor, ask
    for the length of its longest side in centimetres. */
module ObjectSize {
  import opened Common
  import opened Actors

  /** The keys of the `dimensions` dict, in insertion order. */
  datatype Dimension = Length | Width | Height

  /** The dict key, as written to the `LongestDimension` column. */
  function DimensionName(d: Dimension): string {
    match d
    case Length => "length (X)"
    case Width => "width (Y)"
    case Height => "height (Z)"
  }

  /** Position of the key in the dict. */
  function Rank(d: Dimension): nat {
    match d
    case Length => 0
    case Width => 1
    case Height => 2
  }

  /** `dimensions[d]`: the size along that axis, in metres. */
  function Size(a: Actor, d: Dimension): real {
    match d
    case Length => a.sizeX
    case Width => a.sizeY
    case Height => a.sizeZ
  }

  /** `max(dimensions, key=dimensions.get)`: `max` walks the keys in order
      and replaces its choice only by a strictly larger value. */
  function Longest(a: Actor): Dimension {
    var first := if Size(a, Width) > Size(a, Length) then Width else Length;
    if Size(a, Height) > Size(a, first) then Height else first
  }

  /** The longest side is at least every side, and every side before it in
      the dict is strictly shorter: ties go to the earliest key. */
  lemma LongestIsMax(a: Actor)
    ensures forall d :: Size(a, Longest(a)) >= Size(a, d)
    ensures forall d :: Rank(d) < Rank(Longest(a)) ==> Size(a, d) < Size(a, Longest(a))
  {
    forall d ensures Size(a, Longest(a)) >= Size(a, d) {
      match d
      case Length =>
      case Width =>
      case Height =>
    }
  }

  /** The names are the three distinct dict keys. */
  lemma DimensionNamesDistinct(d: Dimension, e: Dimension)
    ensures DimensionName(d) == DimensionName(e) <==> d == e
  {
    if d != e {
      assert DimensionName(d)[0] != DimensionName(e)[0];
    }
  }

  /** `find_longest_dimension`'s three results. */
  datatype Longest3 = Longest3(name: string, metres: real, centimetres: real)

  function FindLongestDimension(a: Actor): Longest3 {
    var d := Longest(a);
    Longest3(DimensionName(d), Size(a, d), Size(a, d) * 100.0)
  }

  /** The returned name designates the returned value, which is the
      longest side; the centimetre value is the metre value times 100. */
  lemma FindLongestDimensionSound(a: Actor)
    ensures exists d :: FindLongestDimension(a).name == DimensionName(d) && FindLongestDimension(a).metres == Size(a, d)
    ensures FindLongestDimension(a).metres >= a.sizeX
    ensures FindLongestDimension(a).metres >= a.sizeY
    ensures FindLongestDimension(a).metres >= a.sizeZ
    ensures FindLongestDimension(a).centimetres / 100.0 == FindLongestDimension(a).metres
  {
    LongestIsMax(a);
    assert Size(a, Length) == a.sizeX && Size(a, Width) == a.sizeY && Size(a, Height) == a.sizeZ;
  }

  /** One output row. `subject` is the name the question asks about; the
      question text and the answer rounded to one decimal are not kept. */
  datatype SizeRecord = SizeRecord(
    possibility: nat, actorName: string, subject: string,
    longestDimension: string, metres: real, centimetres: real)

  /** The row for the actor's first row, numbered `possibility`. */
  function RecordOf(possibility: nat, a: Actor): SizeRecord {
    var l := FindLongestDimension(a);
    SizeRecord(possibility, a.name, Display(a), l.name, l.metres, l.centimetres)
  }

  /** The rows for the first `n` unique actor names. */
  function SizeRecords(rows: seq<Actor>, n: nat): (r: seq<SizeRecord>)
    requires n <= |ActorNames(rows)|
    ensures |r| == n
  {
    if n == 0 then []
    else
      var name := ActorNames(rows)[n - 1];
      SizeRecords(rows, n - 1) + [RecordOf(n, Lookup(rows, name))]
  }

  /** The `i`-th row comes from the `i`-th unique name's first row. */
  lemma {:induction false} SizeRecordsAt(rows: seq<Actor>, n: nat)
    requires n <= |ActorNames(rows)|
    ensures forall i :: 0 <= i < n ==> SizeRecords(rows, n)[i] == RecordOf(i + 1, Lookup(rows, ActorNames(rows)[i]))
  {
    if n > 0 {
      SizeRecordsAt(rows, n - 1);
      var prev := SizeRecords(rows, n - 1);
      var last := RecordOf(n, Lookup(rows, ActorNames(rows)[n - 1]));
      assert SizeRecords(rows, n) == prev + [last];
      forall i | 0 <= i < n ensures SizeRecords(rows, n)[i] == RecordOf(i + 1, Lookup(rows, ActorNames(rows)[i])) {
        if i < n - 1 {
          assert SizeRecords(rows, n)[i] == prev[i];
        }
      }
    }
  }

  /** One row per unique actor name, in order of first appearance,
      numbered 1, 2, 3, ..., each with the actor's longest side. */
  lemma SizeRecordsShape(rows: seq<Actor>)
    ensures var r := SizeRecords(rows, |ActorNames(rows)|);
      |r| == |ActorNames(rows)| &&
      forall i :: 0 <= i < |r| ==> (r[i].possibility == i + 1 && r[i].actorName == ActorNames(rows)[i] &&
        r[i].metres >= Lookup(rows, r[i].actorName).sizeX &&
        r[i].metres >= Lookup(rows, r[i].actorName).sizeY &&
        r[i].metres >= Lookup(rows, r[i].actorName).sizeZ)
  {
    var names := ActorNames(rows);
    SizeRecordsAt(rows, |names|);
    forall i | 0 <= i < |names| ensures Lookup(rows, names[i]).name == names[i] {
    }
    forall a | a in rows ensures FindLongestDimension(a).metres >= a.sizeX && FindLongestDimension(a).metres >= a.sizeY && FindLongestDimension(a).metres >= a.sizeZ {
      FindLongestDimensionSound(a);
    }
  }

  /** `main` with the file reading and writing taken out. No row can make
      the loop body raise here, so every actor gets its row. */
  method GenerateSizes(rows: seq<Actor>) returns (records: seq<SizeRecord>)
    ensures records == SizeRecords(rows, |ActorNames(rows)|)
  {
    var names := ActorNames(rows);
    records := [];
    var possibility := 1;
    for i := 0 to |names|
      invariant records == SizeRecords(rows, i) && possibility == i + 1
    {
      var row := Lookup(rows, names[i]);
      records := records + [RecordOf(possibility, row)];
      possibility := possibility + 1;
    }
  }
}
