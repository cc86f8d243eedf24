/** The relative distance generator (`relative_distance_all.py`): for every
    actor whose short name is unique in the scene, ask which of four other
    object types is closest to it. The options are the nearest instance of
    each type, the four nearest types are offered, and the question is
    dropped when the two nearest are closer to each other than the
    ambiguity threshold. */
module RelativeDistance {
  import opened Common
  import opened Choice
  import opened Sorting
  import opened Actors
  import opened Geometry
  import opened Pairs

  // ---------------------------------------------------------------------
  // The distance dictionary (`create_distance_dict`).
  // ---------------------------------------------------------------------

  type DistanceDict = map<(string, string), real>

  /** The dictionary after the rows `rows`: each row stores its distance
      under both orders of its pair, later rows overwriting earlier ones. */
  function Distances(rows: seq<PairDistance>): DistanceDict
    decreases |rows|
  {
    if rows == [] then map[]
    else
      var r := rows[|rows| - 1];
      Distances(rows[..|rows| - 1])[(r.actor1, r.actor2) := r.answer][(r.actor2, r.actor1) := r.answer]
  }

  /** `create_distance_dict`. */
  method CreateDistanceDict(rows: seq<PairDistance>) returns (d: DistanceDict)
    ensures d == Distances(rows)
  {
    d := map[];
    for i := 0 to |rows|
      invariant d == Distances(rows[..i])
    {
      assert rows[..i + 1][..i] == rows[..i];
      var r := rows[i];
      d := d[(r.actor1, r.actor2) := r.answer];
      d := d[(r.actor2, r.actor1) := r.answer];
    }
    assert rows[..|rows|] == rows;
  }

  predicate Symmetric(d: DistanceDict) {
    forall p :: p in d ==> (p.1, p.0) in d && d[(p.1, p.0)] == d[p]
  }

  /** The dictionary answers both orders of a pair alike. */
  lemma {:induction false} DistancesSymmetric(rows: seq<PairDistance>)
    ensures Symmetric(Distances(rows))
    decreases |rows|
  {
    if rows != [] {
      var prev := rows[..|rows| - 1];
      DistancesSymmetric(prev);
      var r, old_d := rows[|rows| - 1], Distances(prev);
      var d := Distances(rows);
      forall p | p in d ensures (p.1, p.0) in d && d[(p.1, p.0)] == d[p] {
        if p != (r.actor1, r.actor2) && p != (r.actor2, r.actor1) {
          assert p in old_d;
        }
      }
    }
  }

  /** A pair has a distance exactly when some row mentions it. */
  lemma {:induction false} DistancesKeys(rows: seq<PairDistance>, a: string, b: string)
    ensures (a, b) in Distances(rows) <==> exists i :: 0 <= i < |rows| && Mentions(rows[i], a, b)
    decreases |rows|
  {
    if rows != [] {
      var prev := rows[..|rows| - 1];
      DistancesKeys(prev, a, b);
      if (a, b) in Distances(prev) {
        var i :| 0 <= i < |prev| && Mentions(prev[i], a, b);
        assert rows[i] == prev[i];
      }
      if i :| 0 <= i < |rows| && Mentions(rows[i], a, b) {
        if i < |prev| {
          assert prev[i] == rows[i];
        }
      }
    }
  }

  /** The distance stored for a pair is the one of the last row mentioning it. */
  lemma {:induction false} DistancesLast(rows: seq<PairDistance>, a: string, b: string, i: nat)
    requires i < |rows| && Mentions(rows[i], a, b)
    requires forall j :: i < j < |rows| ==> !Mentions(rows[j], a, b)
    ensures (a, b) in Distances(rows) && Distances(rows)[(a, b)] == rows[i].answer
    decreases |rows|
  {
    if i < |rows| - 1 {
      var prev := rows[..|rows| - 1];
      DistancesLast(prev, a, b, i);
      assert !Mentions(rows[|rows| - 1], a, b);
    }
  }

  // ---------------------------------------------------------------------
  // Primaries and their candidates.
  // ---------------------------------------------------------------------

  /** The `ShortActorName` column. */
  function ShortNames(rows: seq<Actor>): (r: seq<string>)
    ensures |r| == |rows|
    ensures forall i :: 0 <= i < |rows| ==> r[i] == rows[i].shortName
  {
    seq(|rows|, i requires 0 <= i < |rows| => rows[i].shortName)
  }

  /** Rows whose short name occurs once in the table. */
  function UniqueType(rows: seq<Actor>): Actor -> bool {
    (a: Actor) => Count(ShortNames(rows), a.shortName) == 1
  }

  /** The primary objects: the names of the rows whose short name is unique,
      in row order. */
  function Primaries(rows: seq<Actor>): seq<string> {
    Names(Filter(rows, UniqueType(rows)))
  }

  /** A row is used as a primary exactly when its short name occurs once. */
  lemma PrimaryRows(rows: seq<Actor>, a: Actor)
    ensures a in Filter(rows, UniqueType(rows)) <==> a in rows && Count(ShortNames(rows), a.shortName) == 1
  {
    FilterMember(rows, UniqueType(rows), a);
  }

  /** An option candidate: an actor's name, its short name and its distance
      from the primary. */
  datatype Candidate = Candidate(name: string, shortName: string, distance: real)

  function Dist(c: Candidate): real {
    c.distance
  }

  /** What the candidate loop appends for row `k`: nothing for the primary
      itself or for a pair without a distance. */
  function CandidateAt(rows: seq<Actor>, d: DistanceDict, primary: string, k: nat): seq<Candidate>
    requires k < |rows|
  {
    var other := rows[k].name;
    if other != primary && (primary, other) in d then
      assert other == Names(rows)[k];
      [Candidate(other, Lookup(rows, other).shortName, d[(primary, other)])]
    else []
  }

  /** The candidates collected from the first `n` rows. */
  function Candidates(rows: seq<Actor>, d: DistanceDict, primary: string, n: nat): seq<Candidate>
    requires n <= |rows|
  {
    if n == 0 then [] else Candidates(rows, d, primary, n - 1) + CandidateAt(rows, d, primary, n - 1)
  }

  /** The candidates are the other actors with a known distance, each with
      its short name and its distance from the primary. */
  lemma {:induction false} CandidatesMember(rows: seq<Actor>, d: DistanceDict, primary: string, n: nat, c: Candidate)
    requires n <= |rows|
    ensures c in Candidates(rows, d, primary, n) <==>
      && (exists k :: 0 <= k < n && rows[k].name == c.name)
      && c.name != primary
      && (primary, c.name) in d
      && c.distance == d[(primary, c.name)]
      && c.name in Names(rows)
      && c.shortName == Lookup(rows, c.name).shortName
  {
    if n > 0 {
      CandidatesMember(rows, d, primary, n - 1, c);
      var other := rows[n - 1].name;
      assert other == Names(rows)[n - 1];
      if c in CandidateAt(rows, d, primary, n - 1) {
        assert c.name == other;
      }
    }
  }

  /** The loop over the `ActorName` column collecting candidates. */
  method CollectCandidates(rows: seq<Actor>, d: DistanceDict, primary: string) returns (cands: seq<Candidate>)
    ensures cands == Candidates(rows, d, primary, |rows|)
  {
    cands := [];
    for k := 0 to |rows|
      invariant cands == Candidates(rows, d, primary, k)
    {
      var other := rows[k].name;
      if other != primary && (primary, other) in d {
        assert other == Names(rows)[k];
        var row := Lookup(rows, other);
        cands := cands + [Candidate(other, row.shortName, d[(primary, other)])];
      }
    }
  }

  // ---------------------------------------------------------------------
  // One representative per object type.
  // ---------------------------------------------------------------------

  /** The short names of a candidate list. */
  function Types(cs: seq<Candidate>): (r: seq<string>)
    ensures |r| == |cs|
    ensures forall i :: 0 <= i < |cs| ==> r[i] == cs[i].shortName
  {
    seq(|cs|, i requires 0 <= i < |cs| => cs[i].shortName)
  }

  /** The values of the dictionary keyed by short name that the loop fills
      only when the key is absent: the first candidate of each type, in
      order of first appearance. */
  function Representatives(s: seq<Candidate>): seq<Candidate>
    decreases |s|
  {
    if s == [] then []
    else
      var reps := Representatives(s[..|s| - 1]);
      var c := s[|s| - 1];
      if c.shortName in Types(reps) then reps else reps + [c]
  }

  /** The loop filling the dictionary of representatives. */
  method ClosestPerType(sorted: seq<Candidate>) returns (reps: seq<Candidate>)
    ensures reps == Representatives(sorted)
  {
    reps := [];
    for i := 0 to |sorted|
      invariant reps == Representatives(sorted[..i])
    {
      assert sorted[..i + 1][..i] == sorted[..i];
      var c := sorted[i];
      if c.shortName !in Types(reps) {
        reps := reps + [c];
      }
    }
    assert sorted[..|sorted|] == sorted;
  }

  /** Every representative is a candidate. */
  lemma {:induction false} RepresentativeIsCandidate(s: seq<Candidate>, c: Candidate)
    requires c in Representatives(s)
    ensures c in s
    decreases |s|
  {
    if s != [] {
      var prev := s[..|s| - 1];
      if c in Representatives(prev) {
        RepresentativeIsCandidate(prev, c);
        var k :| 0 <= k < |prev| && prev[k] == c;
        assert s[k] == c;
      } else {
        assert c == s[|s| - 1];
      }
    }
  }

  /** The representatives have pairwise distinct types, and every
      candidate's type is represented. */
  lemma {:induction false} RepresentativeTypes(s: seq<Candidate>)
    ensures Distinct(Types(Representatives(s)))
    ensures forall n :: n in Types(Representatives(s)) <==> n in Types(s)
    decreases |s|
  {
    if s != [] {
      var prev := s[..|s| - 1];
      var c := s[|s| - 1];
      var reps := Representatives(prev);
      RepresentativeTypes(prev);
      assert Types(s) == Types(prev) + [c.shortName];
      if c.shortName !in Types(reps) {
        var r := Representatives(s);
        assert Types(r) == Types(reps) + [c.shortName];
        forall x, y | 0 <= x < y < |Types(r)| ensures Types(r)[x] != Types(r)[y] {
          if y == |reps| {
            assert Types(r)[x] == Types(reps)[x];
          } else {
            assert Types(r)[x] == Types(reps)[x] && Types(r)[y] == Types(reps)[y];
          }
        }
      }
    }
  }

  /** Each representative comes no later than any candidate of its type:
      it is the first of its type. */
  lemma {:induction false} RepresentativeFirst(s: seq<Candidate>, q: nat, i: nat)
    requires q < |Representatives(s)| && i < |s|
    requires s[i].shortName == Representatives(s)[q].shortName
    ensures exists j :: 0 <= j <= i && s[j] == Representatives(s)[q]
    decreases |s|
  {
    var prev := s[..|s| - 1];
    var c := s[|s| - 1];
    var reps := Representatives(prev);
    if i < |prev| {
      RepresentativeTypes(prev);
      assert Types(prev)[i] == s[i].shortName;
      assert q < |reps|;
      assert Representatives(s)[q] == reps[q];
      RepresentativeFirst(prev, q, i);
      var j :| 0 <= j <= i && prev[j] == reps[q];
      assert s[j] == reps[q];
    } else if q < |reps| {
      assert Representatives(s)[q] == reps[q];
      RepresentativeIsCandidate(prev, reps[q]);
      var j :| 0 <= j < |prev| && prev[j] == reps[q];
      assert s[j] == reps[q];
    } else {
      assert s[i] == Representatives(s)[q];
    }
  }

  /** Representatives taken from a list sorted by distance are sorted too. */
  lemma {:induction false} RepresentativesSorted(s: seq<Candidate>)
    requires SortedBy(s, Dist)
    ensures SortedBy(Representatives(s), Dist)
    decreases |s|
  {
    if s != [] {
      var prev := s[..|s| - 1];
      assert SortedBy(prev, Dist) by {
        forall i, j | 0 <= i < j < |prev| ensures Dist(prev[i]) <= Dist(prev[j]) {
          assert prev[i] == s[i] && prev[j] == s[j];
        }
      }
      RepresentativesSorted(prev);
      var reps := Representatives(prev);
      var c := s[|s| - 1];
      if c.shortName !in Types(reps) {
        var r := reps + [c];
        forall i, j | 0 <= i < j < |r| ensures Dist(r[i]) <= Dist(r[j]) {
          if j == |reps| {
            RepresentativeIsCandidate(prev, r[i]);
            var k :| 0 <= k < |prev| && prev[k] == r[i];
            assert s[k] == r[i];
          } else {
            assert r[i] == reps[i] && r[j] == reps[j];
          }
        }
      }
    }
  }

  /** In a list sorted by distance, a type's representative is its nearest
      instance. */
  lemma RepresentativeNearest(s: seq<Candidate>, q: nat, c: Candidate)
    requires SortedBy(s, Dist)
    requires q < |Representatives(s)| && c in s && c.shortName == Representatives(s)[q].shortName
    ensures Representatives(s)[q].distance <= c.distance
  {
    var i :| 0 <= i < |s| && s[i] == c;
    RepresentativeFirst(s, q, i);
    var j :| 0 <= j <= i && s[j] == Representatives(s)[q];
    assert Dist(s[j]) <= Dist(s[i]);
  }

  /** In a list sorted by distance, a candidate whose type is not among the
      first four representatives is at least as far as the fourth. */
  lemma RepresentativesBeyondFour(s: seq<Candidate>, c: Candidate)
    requires SortedBy(s, Dist)
    requires |Representatives(s)| >= 4 && c in s
    requires c.shortName !in Types(Representatives(s)[..4])
    ensures Representatives(s)[3].distance <= c.distance
  {
    var reps := Representatives(s);
    RepresentativeTypes(s);
    RepresentativesSorted(s);
    var i :| 0 <= i < |s| && s[i] == c;
    assert Types(s)[i] == c.shortName;
    assert c.shortName in Types(reps);
    var q :| 0 <= q < |reps| && Types(reps)[q] == c.shortName;
    assert forall k :: 0 <= k < 4 ==> Types(reps[..4])[k] == Types(reps)[k];
    assert Dist(reps[3]) <= Dist(reps[q]);
    RepresentativeNearest(s, q, c);
  }

  // ---------------------------------------------------------------------
  // The options of one primary.
  // ---------------------------------------------------------------------

  /** The representatives of the sorted candidates of `primary`. */
  function RepresentativesOf(rows: seq<Actor>, d: DistanceDict, primary: string): seq<Candidate> {
    Representatives(SortBy(Candidates(rows, d, primary, |rows|), Dist))
  }

  /** The four options chosen for `primary`, nearest first, or `None` when
      it is skipped: fewer than four types are in reach, or the two nearest
      differ by less than the threshold `t`. */
  function Choose(rows: seq<Actor>, d: DistanceDict, t: real, primary: string): Option<seq<Candidate>> {
    var available := SortBy(RepresentativesOf(rows, d, primary), Dist);
    if |available| < 4 then None
    else
      var options := available[..4];
      if Abs(options[0].distance - options[1].distance) < t then None else Some(options)
  }

  /** Sorting the representatives again changes nothing. */
  lemma ResortIsIdentity(rows: seq<Actor>, d: DistanceDict, primary: string)
    ensures SortBy(RepresentativesOf(rows, d, primary), Dist) == RepresentativesOf(rows, d, primary)
  {
    var sorted := SortBy(Candidates(rows, d, primary, |rows|), Dist);
    SortBySorted(Candidates(rows, d, primary, |rows|), Dist);
    RepresentativesSorted(sorted);
    SortBySortedIsIdentity(Representatives(sorted), Dist);
  }

  /** A primary is skipped exactly when fewer than four types are in reach
      or the two nearest are within the threshold. */
  lemma ChooseSkips(rows: seq<Actor>, d: DistanceDict, t: real, primary: string)
    ensures var reps := RepresentativesOf(rows, d, primary);
      Choose(rows, d, t, primary).None? <==> |reps| < 4 || Abs(reps[0].distance - reps[1].distance) < t
    ensures Choose(rows, d, t, primary).Some? ==> Choose(rows, d, t, primary).value == RepresentativesOf(rows, d, primary)[..4]
  {
    ResortIsIdentity(rows, d, primary);
  }

  /** The first four representatives of sorted candidates: nearest first,
      of four distinct types, each the nearest candidate of its type, and
      every candidate of another type at least as far as the fourth. */
  lemma TopFour(cands: seq<Candidate>)
    requires |Representatives(SortBy(cands, Dist))| >= 4
    ensures var options := Representatives(SortBy(cands, Dist))[..4];
      && SortedBy(options, Dist)
      && Distinct(Types(options))
      && (forall o :: o in options ==> o in cands)
      && (forall q, c :: 0 <= q < 4 && c in cands && c.shortName == options[q].shortName ==> options[q].distance <= c.distance)
      && (forall c :: c in cands && c.shortName !in Types(options) ==> options[3].distance <= c.distance)
  {
    var sorted := SortBy(cands, Dist);
    var reps := Representatives(sorted);
    SortBySorted(cands, Dist);
    SortByPermutes(cands, Dist);
    RepresentativesSorted(sorted);
    RepresentativeTypes(sorted);
    var options := reps[..4];
    assert Types(options) == Types(reps)[..4];
    forall o | o in options ensures o in cands {
      RepresentativeIsCandidate(sorted, o);
      assert o in multiset(sorted);
    }
    forall q, c | 0 <= q < 4 && c in cands && c.shortName == options[q].shortName
      ensures options[q].distance <= c.distance
    {
      assert c in multiset(cands);
      RepresentativeNearest(sorted, q, c);
    }
    forall c | c in cands && c.shortName !in Types(options)
      ensures options[3].distance <= c.distance
    {
      assert c in multiset(cands);
      RepresentativesBeyondFour(sorted, c);
    }
  }

  /** The options of a chosen primary are the four nearest representatives
      of its candidates (see `TopFour`), and the two nearest are at least
      the threshold apart. */
  lemma ChooseOptions(rows: seq<Actor>, d: DistanceDict, t: real, primary: string)
    requires Choose(rows, d, t, primary).Some?
    ensures var options, cands := Choose(rows, d, t, primary).value, Candidates(rows, d, primary, |rows|);
      && |options| == 4
      && SortedBy(options, Dist)
      && Distinct(Types(options))
      && (forall o :: o in options ==> o in cands)
      && (forall q, c :: 0 <= q < 4 && c in cands && c.shortName == options[q].shortName ==> options[q].distance <= c.distance)
      && (forall c :: c in cands && c.shortName !in Types(options) ==> options[3].distance <= c.distance)
      && Abs(options[0].distance - options[1].distance) >= t
  {
    ChooseSkips(rows, d, t, primary);
    TopFour(Candidates(rows, d, primary, |rows|));
  }

  // ---------------------------------------------------------------------
  // Records.
  // ---------------------------------------------------------------------

  /** One row of `relative_distance_all.csv`; the question sentence is not
      modelled. */
  datatype DistanceRecord = DistanceRecord(
    possibility: nat,
    primary: string,
    optionObjects: seq<string>,
    distances: seq<real>,
    question: Question)

  /** The names a question shows for the chosen options, nearest first. */
  function DisplayNames(rows: seq<Actor>, options: seq<Candidate>): (r: seq<string>)
    requires forall o :: o in options ==> o.name in Names(rows)
    ensures |r| == |options|
  {
    seq(|options|, i requires 0 <= i < |options| => Display(Lookup(rows, options[i].name)))
  }

  /** The options of a chosen primary name rows of the table. */
  lemma ChosenNamed(rows: seq<Actor>, d: DistanceDict, t: real, primary: string)
    requires Choose(rows, d, t, primary).Some?
    ensures |Choose(rows, d, t, primary).value| == 4
    ensures forall o :: o in Choose(rows, d, t, primary).value ==> o.name in Names(rows)
  {
    ChooseOptions(rows, d, t, primary);
    forall o | o in Choose(rows, d, t, primary).value ensures o.name in Names(rows) {
      CandidatesMember(rows, d, primary, |rows|, o);
    }
  }

  /** The record written for `primary` when it is the `emitted`-th record
      so far (the `emitted`-th call to `random.sample` draws its order). */
  function Emit(rows: seq<Actor>, d: DistanceDict, t: real, sh: Shuffler<string>, emitted: nat, primary: string): seq<DistanceRecord>
    requires IsShuffler(sh)
  {
    match Choose(rows, d, t, primary)
    case None => []
    case Some(options) =>
      ChosenNamed(rows, d, t, primary);
      var displays := DisplayNames(rows, options);
      var shuffled := Sample(sh, emitted, displays, 4);
      match Build(shuffled, displays[0])
      case None => []
      case Some(q) =>
        [DistanceRecord(emitted + 1, primary,
                        [options[0].name, options[1].name, options[2].name, options[3].name],
                        [options[0].distance, options[1].distance, options[2].distance, options[3].distance],
                        q)]
  }

  function EmitStep(rows: seq<Actor>, d: DistanceDict, t: real, sh: Shuffler<string>): (nat, string) -> seq<DistanceRecord>
    requires IsShuffler(sh)
  {
    (e: nat, primary: string) => Emit(rows, d, t, sh, e, primary)
  }

  /** What the source promises about the record of a chosen primary. */
  ghost predicate RecordOf(rows: seq<Actor>, d: DistanceDict, t: real, r: DistanceRecord, possibility: nat, primary: string) {
    && r.possibility == possibility
    && r.primary == primary
    && Choose(rows, d, t, primary).Some?
    && var options := Choose(rows, d, t, primary).value;
    && |options| == 4
    && (forall o :: o in options ==> o.name in Names(rows))
    && r.optionObjects == [options[0].name, options[1].name, options[2].name, options[3].name]
    && r.distances == [options[0].distance, options[1].distance, options[2].distance, options[3].distance]
    && var displays := DisplayNames(rows, options);
    && multiset(Texts(r.question.options)) == multiset(displays)
    && Answers(r.question, displays[0])
  }

  /** A chosen primary always yields its record: the shuffled names are a
      rearrangement of the four display names and the answer letter
      designates the nearest option's name. A skipped one yields nothing. */
  lemma EmitSpec(rows: seq<Actor>, d: DistanceDict, t: real, sh: Shuffler<string>, emitted: nat, primary: string)
    requires IsShuffler(sh)
    ensures |Emit(rows, d, t, sh, emitted, primary)| <= 1
    ensures Emit(rows, d, t, sh, emitted, primary) != [] <==> Choose(rows, d, t, primary).Some?
    ensures Emit(rows, d, t, sh, emitted, primary) != [] ==>
      RecordOf(rows, d, t, Emit(rows, d, t, sh, emitted, primary)[0], emitted + 1, primary)
  {
    if Choose(rows, d, t, primary).Some? {
      var options := Choose(rows, d, t, primary).value;
      ChosenNamed(rows, d, t, primary);
      var displays := DisplayNames(rows, options);
      var shuffled := Sample(sh, emitted, displays, 4);
      BuildFromShuffle(displays, shuffled, displays[0]);
      var q := Build(shuffled, displays[0]).value;
      TextsOfFormatAll(shuffled);
      assert Texts(q.options) == shuffled;
    }
  }

  /** The primaries that yield a record. */
  function Chosen(rows: seq<Actor>, d: DistanceDict, t: real): string -> bool {
    (primary: string) => Choose(rows, d, t, primary).Some?
  }

  ghost function RecordOfStep(rows: seq<Actor>, d: DistanceDict, t: real): (DistanceRecord, nat, string) -> bool {
    (r: DistanceRecord, p: nat, primary: string) => RecordOf(rows, d, t, r, p, primary)
  }

  /** `generate_relative_distance_combinations`: one record per chosen
      primary, in primary order, numbered from 1. */
  lemma GeneratedDistances(rows: seq<Actor>, d: DistanceDict, t: real, sh: Shuffler<string>)
    requires IsShuffler(sh)
    ensures var records, chosen := Scan(EmitStep(rows, d, t, sh), Primaries(rows)), Filter(Primaries(rows), Chosen(rows, d, t));
      && |records| == |chosen|
      && forall q :: 0 <= q < |records| ==> RecordOf(rows, d, t, records[q], q + 1, chosen[q])
  {
    var step, keep, P := EmitStep(rows, d, t, sh), Chosen(rows, d, t), RecordOfStep(rows, d, t);
    forall e: nat, primary | primary in Primaries(rows)
      ensures |step(e, primary)| <= 1 && (step(e, primary) != [] <==> keep(primary))
      ensures step(e, primary) != [] ==> P(step(e, primary)[0], e + 1, primary)
    {
      EmitSpec(rows, d, t, sh, e, primary);
    }
    ScanMatches(step, keep, P, Primaries(rows));
  }

  // ---------------------------------------------------------------------
  // The generator's loops.
  // ---------------------------------------------------------------------

  /** Sorting the candidates, keeping one per type, sorting again, and the
      two checks that skip a primary. */
  method SelectOptions(rows: seq<Actor>, d: DistanceDict, t: real, primary: string)
    returns (chosen: Option<seq<Candidate>>)
    ensures chosen == Choose(rows, d, t, primary)
  {
    var cands := CollectCandidates(rows, d, primary);
    var sorted := SortBy(cands, Dist);
    var reps := ClosestPerType(sorted);
    var available := SortBy(reps, Dist);
    if |available| < 4 {
      return None;
    }
    var options := available[..4];
    if Abs(options[0].distance - options[1].distance) < t {
      return None;
    }
    return Some(options);
  }

  /** The display names of the four options, looked up one by one. */
  method CollectDisplays(rows: seq<Actor>, options: seq<Candidate>) returns (displays: seq<string>)
    requires forall o :: o in options ==> o.name in Names(rows)
    ensures displays == DisplayNames(rows, options)
  {
    displays := [];
    for i := 0 to |options|
      invariant displays == DisplayNames(rows, options)[..i]
    {
      var row := Lookup(rows, options[i].name);
      displays := displays + [Display(row)];
    }
  }

  /** The body of the loop over primaries. */
  method ProcessPrimary(rows: seq<Actor>, d: DistanceDict, t: real, sh: Shuffler<string>, emitted: nat, primary: string)
    returns (found: seq<DistanceRecord>)
    requires IsShuffler(sh)
    ensures found == Emit(rows, d, t, sh, emitted, primary)
  {
    var chosen := SelectOptions(rows, d, t, primary);
    if chosen.None? {
      return [];
    }
    var options := chosen.value;
    ChosenNamed(rows, d, t, primary);
    var displays := CollectDisplays(rows, options);
    var shuffled := Sample(sh, emitted, displays, 4);
    var q := Build(shuffled, displays[0]);
    if q.None? {
      return [];
    }
    found := [DistanceRecord(emitted + 1, primary,
                             [options[0].name, options[1].name, options[2].name, options[3].name],
                             [options[0].distance, options[1].distance, options[2].distance, options[3].distance],
                             q.value)];
  }

  /** `step` does what `Emit` does; the loop knows the body only through
      this, so that the solver unfolds `Emit` only in `ProcessPrimary`. */
  ghost predicate RunsEmit(step: (nat, string) -> seq<DistanceRecord>, rows: seq<Actor>, d: DistanceDict, t: real, sh: Shuffler<string>)
    requires IsShuffler(sh)
  {
    forall e: nat, primary {:trigger Emit(rows, d, t, sh, e, primary)} :: step(e, primary) == Emit(rows, d, t, sh, e, primary)
  }

  /** The loop body, handed to the loop as a function value. */
  method LoopBody(rows: seq<Actor>, d: DistanceDict, t: real, sh: Shuffler<string>)
    returns (step: (nat, string) -> seq<DistanceRecord>)
    requires IsShuffler(sh)
    ensures RunsEmit(step, rows, d, t, sh)
    ensures forall e: nat, primary :: |step(e, primary)| <= 1
  {
    step := EmitStep(rows, d, t, sh);
    forall e: nat, primary ensures |step(e, primary)| <= 1 {
      EmitSpec(rows, d, t, sh, e, primary);
    }
  }

  /** One turn of the loop over primaries: append what the body yields and
      advance the counter when it yields a record. */
  method EmitNext(rows: seq<Actor>, d: DistanceDict, t: real, sh: Shuffler<string>, step: (nat, string) -> seq<DistanceRecord>,
                  records: seq<DistanceRecord>, counter: nat, primary: string)
    returns (extended: seq<DistanceRecord>, next: nat)
    requires IsShuffler(sh) && RunsEmit(step, rows, d, t, sh)
    requires forall e: nat, p :: |step(e, p)| <= 1
    requires counter == |records| + 1
    ensures extended == records + step(|records|, primary)
    ensures next == |extended| + 1
  {
    var found := ProcessPrimary(rows, d, t, sh, counter - 1, primary);
    assert found == step(|records|, primary);
    extended := records + found;
    next := counter;
    if found != [] {
      next := counter + 1;
    }
  }

  /** `generate_relative_distance_combinations`. */
  method GenerateDistances(rows: seq<Actor>, d: DistanceDict, t: real, sh: Shuffler<string>)
    returns (records: seq<DistanceRecord>)
    requires IsShuffler(sh)
    ensures records == Scan(EmitStep(rows, d, t, sh), Primaries(rows))
  {
    var primaries := Primaries(rows);
    var step := LoopBody(rows, d, t, sh);
    records := [];
    var counter := 1;
    for i := 0 to |primaries|
      invariant records == Scan(step, primaries[..i])
      invariant counter == |records| + 1
    {
      ScanSnoc(step, primaries[..i], primaries[i]);
      assert primaries[..i + 1] == primaries[..i] + [primaries[i]];
      records, counter := EmitNext(rows, d, t, sh, step, records, counter, primaries[i]);
    }
    assert primaries[..|primaries|] == primaries;
    forall e: nat, primary | primary in primaries
      ensures step(e, primary) == EmitStep(rows, d, t, sh)(e, primary)
    {
      assert step(e, primary) == Emit(rows, d, t, sh, e, primary);
    }
    ScanAgrees(step, EmitStep(rows, d, t, sh), primaries);
  }
}
