/** The relative direction generator: for every ordered triple of distinct
    actors (standing, facing, locate) it places the located actor in the
    frame of an observer standing at the first and facing the second, labels
    the direction at three granularities and emits a record with one
    multiple-choice question per granularity, unless the located actor is
    too close to the observer to tell. */
module RelativeDirection {
  import opened Common
  import opened Geometry
  import opened Choice
  import opened Enumerate
  import opened Actors
  import opened Threshold

  const HardPool: seq<string> := ["front-left", "front-right", "back-left", "back-right"]
  const MediumPool: seq<string> := ["left", "right", "back"]
  const EasyPool: seq<string> := ["left", "right"]

  /** The located actor in the observer's frame: `x` to the right, `y`
      ahead. `Undefined` stands for the NaN coordinates numpy produces when
      standing and facing share their XY position. */
  datatype Frame = Local(x: real, y: real) | Undefined

  datatype Labels = Labels(hard: string, num: string, medium: string, easy: string)

  /** The quadrant number that goes with a hard label. */
  function QuadrantNumber(hard: string): string {
    if hard == "front-right" then "quadrant I"
    else if hard == "front-left" then "quadrant II"
    else if hard == "back-left" then "quadrant III"
    else "quadrant IV"
  }

  /** `atan2(x, y)` in degrees is above 135 or below -135. */
  predicate BackSector(x: real, y: real) {
    y < 0.0 && Abs(x) < -y
  }

  /** The labels of `determine_quadrant`. The hard label and quadrant
      number go by the signs of the coordinates, the medium label puts the
      135-degree sector behind the observer apart and otherwise goes by the
      side, the easy label goes by the side. NaN coordinates fail every
      comparison and so fall through to the last branch of each chain. */
  function Classify(c: Frame): (l: Labels)
    ensures l.hard in HardPool && l.medium in MediumPool && l.easy in EasyPool
    ensures l.num == QuadrantNumber(l.hard)
    ensures l.easy == "right" <==> l.hard == "front-right" || l.hard == "back-right"
    ensures l.medium == "back" ==> l.hard == "back-left" || l.hard == "back-right"
    ensures l.medium != "back" ==> l.medium == l.easy
  {
    match c
    case Undefined => Labels("back-right", "quadrant IV", "right", "right")
    case Local(x, y) =>
      var medium := if BackSector(x, y) then "back" else if x < 0.0 then "left" else "right";
      if x >= 0.0 && y >= 0.0 then Labels("front-right", "quadrant I", medium, "right")
      else if x < 0.0 && y >= 0.0 then Labels("front-left", "quadrant II", medium, "left")
      else if x < 0.0 && y < 0.0 then Labels("back-left", "quadrant III", medium, "left")
      else Labels("back-right", "quadrant IV", medium, "right")
  }

  /** The back sector read as an angle: the cosine of the angle between the
      located actor and the facing direction is below `-1/√2`. */
  lemma BackSectorByCosine(x: real, y: real)
    ensures BackSector(x, y) <==> y < 0.0 && 2.0 * (y * y) > x * x + y * y
  {
    if y < 0.0 {
      AbsBelow(x, -y);
      assert (-y) * (-y) == y * y;
    }
  }

  /** `determine_quadrant` on the XY positions of the three actors. The
      forward axis `f - s` is divided by its length; `k` is the reciprocal
      of that length, which the model takes as given. */
  function DetermineQuadrant(s: Vec2, f: Vec2, l: Vec2, k: real): (c: Frame)
    requires s != f ==> k > 0.0 && k * k * NormSq(Sub(f, s)) == 1.0
    ensures c.Undefined? <==> s == f
  {
    if s == f then Undefined
    else
      var yAxis := Scale(Sub(f, s), k);
      var xAxis := RightAxis(yAxis);
      var rel := Sub(l, s);
      Local(Dot(rel, xAxis), Dot(rel, yAxis))
  }

  /** The same projections without normalising the forward axis. */
  function Unnormalised(s: Vec2, f: Vec2, l: Vec2): (c: Frame)
    ensures c.Undefined? <==> s == f
  {
    if s == f then Undefined
    else
      var forward := Sub(f, s);
      var rel := Sub(l, s);
      Local(Dot(rel, RightAxis(forward)), Dot(rel, forward))
  }

  /** Normalising rescales both coordinates by a positive factor, which no
      label can see. */
  lemma {:induction false} QuadrantSigns(s: Vec2, f: Vec2, l: Vec2, k: real)
    requires s != f ==> k > 0.0 && k * k * NormSq(Sub(f, s)) == 1.0
    ensures Classify(DetermineQuadrant(s, f, l, k)) == Classify(Unnormalised(s, f, l))
  {
    if s != f {
      var forward, rel := Sub(f, s), Sub(l, s);
      var x, y := Dot(rel, RightAxis(forward)), Dot(rel, forward);
      DotScaleRight(rel, forward, k);
      DotScale(rel, forward, k);
      assert DetermineQuadrant(s, f, l, k) == Local(x * k, y * k);
      ScaledLabels(x, y, k);
    }
  }

  lemma ScaledLabels(x: real, y: real, k: real)
    requires k > 0.0
    ensures Classify(Local(x * k, y * k)) == Classify(Local(x, y))
  {
    PositiveFactor(x, k);
    PositiveFactor(y, k);
    ScaledBackSector(x, y, k);
  }

  lemma ScaledBackSector(x: real, y: real, k: real)
    requires k > 0.0
    ensures BackSector(x * k, y * k) <==> BackSector(x, y)
  {
    PositiveFactor(y, k);
    NegateFactor(y, k);
    AbsFactor(x, k);
    PositiveFactorOrder(Abs(x), -y, k);
  }

  /** The squared distance `|new_coords|²` the ambiguity test measures. */
  function Radius2(c: Frame): real
    requires c.Local?
  {
    c.x * c.x + c.y * c.y
  }

  /** Projecting onto the orthonormal frame keeps distances: the ambiguity
      distance is the plain XY distance from standing to locate. */
  lemma {:induction false} DistancePreserved(s: Vec2, f: Vec2, l: Vec2, k: real)
    requires s != f && k > 0.0 && k * k * NormSq(Sub(f, s)) == 1.0
    ensures Radius2(DetermineQuadrant(s, f, l, k)) == NormSq(Sub(l, s))
  {
    var forward, rel := Sub(f, s), Sub(l, s);
    var c := DetermineQuadrant(s, f, l, k);
    DotScaleRight(rel, forward, k);
    DotScale(rel, forward, k);
    ProjectionLength(rel, forward);
    ScaledRadius(c.x, c.y, Dot(rel, RightAxis(forward)), Dot(rel, forward), k, NormSq(rel), NormSq(forward));
  }

  /** `norm(new_coords) < threshold`. NaN coordinates compare false, so an
      undefined frame is never ambiguous. The norm is compared through its
      square; `AmbiguousByNorm` shows this is the same test. */
  predicate Ambiguous(c: Frame, t: real) {
    c.Local? && Radius2(c) < t * t
  }

  lemma AmbiguousByNorm(c: Frame, t: real, d: real)
    requires c.Local? && t >= 0.0
    requires d >= 0.0 && d * d == Radius2(c)
    ensures Ambiguous(c, t) <==> d < t
  {
    SquareMonotone(d, t);
  }

  /** The test the generator applies: standing and facing are apart and the
      located actor lies within the threshold of the standing one. */
  predicate TooClose(s: Vec2, f: Vec2, l: Vec2, t: real) {
    s != f && NormSq(Sub(l, s)) < t * t
  }

  /** The ambiguity test on the normalised frame is `TooClose`. */
  lemma {:induction false} AmbiguityIsDistance(s: Vec2, f: Vec2, l: Vec2, k: real, t: real)
    requires s != f ==> k > 0.0 && k * k * NormSq(Sub(f, s)) == 1.0
    ensures Ambiguous(DetermineQuadrant(s, f, l, k), t) <==> TooClose(s, f, l, t)
  {
    if s != f {
      DistancePreserved(s, f, l, k);
    }
  }

  // ---------------------------------------------------------------------
  // The generator (`main`).
  // ---------------------------------------------------------------------

  /** One row of `relative_direction_all.csv`. A question the source leaves
      empty (an empty question, answer and option list) is `None`. */
  datatype DirectionRecord = DirectionRecord(
    possibility: nat,
    standing: string, facing: string, locate: string,
    standingAt: Vec2, facingAt: Vec2, locateAt: Vec2,
    quadrantNum: string,
    hard: Option<Question>, medium: Option<Question>, easy: Option<Question>)

  predicate Admissible(t: Triple, n: nat) {
    t.i < n && t.j < n && t.k < n && PairApart(t.i, t.j) && ThirdApart(t)
  }

  /** The triples of actor positions the nested loops visit, in order. */
  function Visited(n: nat): (r: seq<Triple>)
    ensures forall t :: t in r <==> Admissible(t, n)
  {
    Triples(n, PairApart, ThirdApart)
  }

  /** XY position of the first row with that name. */
  function At(rows: seq<Actor>, name: string): Vec2
    requires name in Names(rows)
  {
    Pos(Lookup(rows, name))
  }

  /** One granularity's question: shuffle the pool with draw `draw`, format
      it and look up the letter of the correct label. */
  function Ask(sh: Shuffler<string>, draw: nat, pool: seq<string>, correct: string): (q: Option<Question>)
    requires IsShuffler(sh)
    requires |pool| <= 26
    ensures correct in pool ==> Asked(q, pool, correct)
  {
    var shuffled := Sample(sh, draw, pool, |pool|);
    if correct in pool then
      BuildFromShuffle(pool, shuffled, correct);
      TextsOfFormatAll(shuffled);
      Build(shuffled, correct)
    else
      Build(shuffled, correct)
  }

  /** A question is present, its letter designates `correct`, and its
      options list the pool in some order. */
  predicate Asked(q: Option<Question>, pool: seq<string>, correct: string) {
    q.Some? && Answers(q.value, correct) && multiset(Texts(q.value.options)) == multiset(pool)
  }

  /** The located actor is far enough from the observer (the names index
      the unique actor names). */
  predicate Clear(rows: seq<Actor>, t: real, tr: Triple) {
    var names := ActorNames(rows);
    && Admissible(tr, |names|)
    && !TooClose(At(rows, names[tr.i]), At(rows, names[tr.j]), At(rows, names[tr.k]), t)
  }

  /** What every emitted record satisfies. */
  predicate Sound(rows: seq<Actor>, t: real, r: DirectionRecord) {
    && r.standing in Names(rows) && r.facing in Names(rows) && r.locate in Names(rows)
    && r.facing != r.standing && r.locate != r.standing && r.locate != r.facing
    && r.standingAt == At(rows, r.standing)
    && r.facingAt == At(rows, r.facing)
    && r.locateAt == At(rows, r.locate)
    && !TooClose(r.standingAt, r.facingAt, r.locateAt, t)
    && var labels := Classify(Unnormalised(r.standingAt, r.facingAt, r.locateAt));
    && r.quadrantNum == labels.num
    && Asked(r.hard, HardPool, labels.hard)
    && Asked(r.medium, MediumPool, labels.medium)
    && Asked(r.easy, EasyPool, labels.easy)
  }

  /** `r` is the sound record numbered `possibility` for the triple `tr`. */
  predicate RecordOf(rows: seq<Actor>, t: real, r: DirectionRecord, possibility: nat, tr: Triple) {
    var names := ActorNames(rows);
    && Admissible(tr, |names|)
    && r.possibility == possibility && Sound(rows, t, r)
    && r.standing == names[tr.i] && r.facing == names[tr.j] && r.locate == names[tr.k]
  }

  /** The body of the innermost loop for one triple, `emitted` records
      having been appended before it: nothing, or one record. */
  function Visit(rows: seq<Actor>, t: real, sh: Shuffler<string>, emitted: nat, tr: Triple): (r: seq<DirectionRecord>)
    requires IsShuffler(sh)
    requires Admissible(tr, |ActorNames(rows)|)
    ensures |r| <= 1
    ensures r != [] <==> Clear(rows, t, tr)
    ensures r != [] ==> RecordOf(rows, t, r[0], emitted + 1, tr)
  {
    var names := ActorNames(rows);
    assert names[tr.i] != names[tr.j] && names[tr.k] != names[tr.i] && names[tr.k] != names[tr.j];
    var s, f, l := At(rows, names[tr.i]), At(rows, names[tr.j]), At(rows, names[tr.k]);
    var labels := Classify(Unnormalised(s, f, l));
    var close := TooClose(s, f, l, t);
    var hard := if close then None else Ask(sh, 3 * emitted, HardPool, labels.hard);
    var medium := if close then None else Ask(sh, 3 * emitted + 1, MediumPool, labels.medium);
    var easy := if close then None else Ask(sh, 3 * emitted + 2, EasyPool, labels.easy);
    if hard.None? && medium.None? && easy.None? then []
    else [DirectionRecord(emitted + 1, names[tr.i], names[tr.j], names[tr.k], s, f, l, labels.num, hard, medium, easy)]
  }

  /** The innermost loop body as a step of the loop that appends records;
      only triples the loops admit ever reach it. */
  function Step(rows: seq<Actor>, t: real, sh: Shuffler<string>): (nat, Triple) -> seq<DirectionRecord>
    requires IsShuffler(sh)
  {
    (e: nat, tr: Triple) => if Admissible(tr, |ActorNames(rows)|) then Visit(rows, t, sh, e, tr) else []
  }

  /** The records the loops have appended after visiting `ts`. */
  function Records(rows: seq<Actor>, t: real, sh: Shuffler<string>, ts: seq<Triple>): seq<DirectionRecord>
    requires IsShuffler(sh)
  {
    Scan(Step(rows, t, sh), ts)
  }

  function KeepClear(rows: seq<Actor>, t: real): Triple -> bool {
    (tr: Triple) => Clear(rows, t, tr)
  }

  /** The visited triples that are not too close, in visiting order. */
  function Kept(rows: seq<Actor>, t: real, ts: seq<Triple>): (r: seq<Triple>)
    ensures forall tr :: tr in r <==> tr in ts && Clear(rows, t, tr)
  {
    forall tr ensures tr in Filter(ts, KeepClear(rows, t)) <==> tr in ts && Clear(rows, t, tr) {
      FilterMember(ts, KeepClear(rows, t), tr);
    }
    Filter(ts, KeepClear(rows, t))
  }

  function RecordOfStep(rows: seq<Actor>, t: real): (DirectionRecord, nat, Triple) -> bool {
    (r: DirectionRecord, p: nat, tr: Triple) => RecordOf(rows, t, r, p, tr)
  }

  /** Emitted records correspond one to one, in order, to the visited
      triples that are not too close; each is sound and numbered by its
      position. */
  lemma {:induction false} RecordsMatchKept(rows: seq<Actor>, t: real, sh: Shuffler<string>, ts: seq<Triple>)
    requires IsShuffler(sh)
    requires forall tr :: tr in ts ==> Admissible(tr, |ActorNames(rows)|)
    ensures |Records(rows, t, sh, ts)| == |Kept(rows, t, ts)|
    ensures forall q :: 0 <= q < |Records(rows, t, sh, ts)| ==>
      RecordOf(rows, t, Records(rows, t, sh, ts)[q], q + 1, Kept(rows, t, ts)[q])
  {
    var step, keep, P := Step(rows, t, sh), KeepClear(rows, t), RecordOfStep(rows, t);
    forall e: nat, tr | tr in ts
      ensures |step(e, tr)| <= 1 && (step(e, tr) != [] <==> keep(tr))
      ensures step(e, tr) != [] ==> P(step(e, tr)[0], e + 1, tr)
    {
      var v := Visit(rows, t, sh, e, tr);
      assert step(e, tr) == v;
    }
    ScanMatches(step, keep, P, ts);
  }

  /** The file the generator writes: nothing when the room-size file
      cannot be read, otherwise the records of every visited triple. */
  function DirectionRecords(rows: seq<Actor>, csv: RoomSizeCsv, sh: Shuffler<string>): seq<DirectionRecord>
    requires IsShuffler(sh)
  {
    match DirectionThreshold(csv)
    case None => []
    case Some(t) => Records(rows, t, sh, Visited(|ActorNames(rows)|))
  }

  /** What the generator writes, in terms of the visited triples: nothing
      when the room-size file cannot be read; otherwise one record per
      admissible triple whose located actor is not too close, in visiting
      order, numbered from 1, each sound for its triple. */
  lemma GeneratedRecords(rows: seq<Actor>, csv: RoomSizeCsv, sh: Shuffler<string>)
    requires IsShuffler(sh)
    ensures csv.Unreadable? ==> DirectionRecords(rows, csv, sh) == []
    ensures !csv.Unreadable? ==>
      var t, n := DirectionThreshold(csv).value, |ActorNames(rows)|;
      var kept := Kept(rows, t, Visited(n));
      && |DirectionRecords(rows, csv, sh)| == |kept|
      && (forall tr :: tr in kept <==> Admissible(tr, n) && Clear(rows, t, tr))
      && forall q :: 0 <= q < |kept| ==> RecordOf(rows, t, DirectionRecords(rows, csv, sh)[q], q + 1, kept[q])
  {
    if !csv.Unreadable? {
      var t, n := DirectionThreshold(csv).value, |ActorNames(rows)|;
      RecordsMatchKept(rows, t, sh, Visited(n));
    }
  }

  /** The loops compare actor names; the names being unique, that is
      comparing positions. */
  method SameName(names: seq<string>, a: nat, b: nat) returns (same: bool)
    requires Distinct(names) && a < |names| && b < |names|
    ensures same <==> a == b
  {
    same := names[a] == names[b];
  }

  /** `step` does what `Visit` does on every triple the loops admit. The
      loop methods below know the body only through this, so that the
      solver unfolds `Visit` only where a method calls it. */
  ghost predicate RunsVisit(step: (nat, Triple) -> seq<DirectionRecord>, rows: seq<Actor>, t: real, sh: Shuffler<string>)
    requires IsShuffler(sh)
  {
    forall e: nat, tr {:trigger Visit(rows, t, sh, e, tr)} ::
      Admissible(tr, |ActorNames(rows)|) ==> step(e, tr) == Visit(rows, t, sh, e, tr)
  }

  /** The loop body, handed to the loops as a function value. */
  method LoopBody(rows: seq<Actor>, t: real, sh: Shuffler<string>) returns (step: (nat, Triple) -> seq<DirectionRecord>)
    requires IsShuffler(sh)
    ensures RunsVisit(step, rows, t, sh)
    ensures forall e: nat, tr :: |step(e, tr)| <= 1
  {
    step := Step(rows, t, sh);
  }

  /** The loops over all actor positions with a body that runs `Visit`
      write the generator's file. */
  lemma LoopsWriteRecords(rows: seq<Actor>, csv: RoomSizeCsv, sh: Shuffler<string>, t: real, step: (nat, Triple) -> seq<DirectionRecord>)
    requires IsShuffler(sh) && DirectionThreshold(csv) == Some(t) && RunsVisit(step, rows, t, sh)
    ensures Scan(step, Cube(|ActorNames(rows)|, |ActorNames(rows)|, PairApart, ThirdApart)) == DirectionRecords(rows, csv, sh)
  {
    RecordsByStep(rows, t, sh, step, Visited(|ActorNames(rows)|));
  }

  /** Any step that runs `Visit` builds the records `Records` describes. */
  lemma RecordsByStep(rows: seq<Actor>, t: real, sh: Shuffler<string>, step: (nat, Triple) -> seq<DirectionRecord>, ts: seq<Triple>)
    requires IsShuffler(sh) && RunsVisit(step, rows, t, sh)
    requires forall tr :: tr in ts ==> Admissible(tr, |ActorNames(rows)|)
    ensures Scan(step, ts) == Records(rows, t, sh, ts)
  {
    forall e: nat, tr | tr in ts
      ensures step(e, tr) == Step(rows, t, sh)(e, tr)
    {
      assert step(e, tr) == Visit(rows, t, sh, e, tr);
    }
    ScanAgrees(step, Step(rows, t, sh), ts);
  }

  /** `main`: three nested loops over the unique actor names, skipping
      repeated actors; `possibility` numbers the next record. The outer loop
      runs here, the middle one is `VisitFacings`, the innermost one
      `VisitLocations`. */
  method GenerateDirections(rows: seq<Actor>, csv: RoomSizeCsv, sh: Shuffler<string>) returns (records: seq<DirectionRecord>)
    requires IsShuffler(sh)
    ensures records == DirectionRecords(rows, csv, sh)
  {
    records := [];
    var threshold := DirectionThreshold(csv);
    if threshold.None? {
      return;
    }
    var t := threshold.value;
    var names := ActorNames(rows);
    var possibility := 1;
    var step := LoopBody(rows, t, sh);
    var i := 0;
    while i < |names|
      invariant i <= |names|
      invariant records == Scan(step, Cube(i, |names|, PairApart, ThirdApart)) && possibility == |records| + 1
    {
      records, possibility := VisitFacings(names, i, records, possibility, step, Cube(i, |names|, PairApart, ThirdApart));
      CubeStep(i, |names|, PairApart, ThirdApart);
      i := i + 1;
    }
    LoopsWriteRecords(rows, csv, sh, t, step);
  }

  /** The middle loop of `main` for standing actor `i`: every other actor
      is faced in turn. */
  method VisitFacings(names: seq<string>, i: nat, records: seq<DirectionRecord>, possibility: nat,
                      step: (nat, Triple) -> seq<DirectionRecord>, ghost done: seq<Triple>)
    returns (extended: seq<DirectionRecord>, counter: nat)
    requires Distinct(names) && i < |names|
    requires forall e: nat, tr :: |step(e, tr)| <= 1
    requires records == Scan(step, done) && possibility == |records| + 1
    ensures extended == Scan(step, done + Plane(i, |names|, |names|, PairApart, ThirdApart))
    ensures counter == |extended| + 1
  {
    extended, counter := records, possibility;
    assert done + Plane(i, 0, |names|, PairApart, ThirdApart) == done;
    var j := 0;
    while j < |names|
      invariant j <= |names|
      invariant extended == Scan(step, done + Plane(i, j, |names|, PairApart, ThirdApart))
      invariant counter == |extended| + 1
    {
      extended, counter := FaceOne(names, i, j, extended, counter, step, done);
      j := j + 1;
    }
  }

  /** The body of the middle loop for the actors at `i` and `j`: skip a
      repeated actor, otherwise run the innermost loop. */
  method FaceOne(names: seq<string>, i: nat, j: nat, records: seq<DirectionRecord>, possibility: nat,
                 step: (nat, Triple) -> seq<DirectionRecord>, ghost done: seq<Triple>)
    returns (extended: seq<DirectionRecord>, counter: nat)
    requires Distinct(names) && i < |names| && j < |names|
    requires forall e: nat, tr :: |step(e, tr)| <= 1
    requires records == Scan(step, done + Plane(i, j, |names|, PairApart, ThirdApart))
    requires possibility == |records| + 1
    ensures extended == Scan(step, done + Plane(i, j + 1, |names|, PairApart, ThirdApart))
    ensures counter == |extended| + 1
  {
    ghost var visited := done + Plane(i, j, |names|, PairApart, ThirdApart);
    PlaneStep(i, j, |names|, PairApart, ThirdApart);
    var sameFacing := SameName(names, j, i);
    if !sameFacing {
      extended, counter := VisitLocations(names, i, j, records, possibility, step, visited);
      AppendAssoc(done, Plane(i, j, |names|, PairApart, ThirdApart), Row(i, j, |names|, ThirdApart));
    } else {
      extended, counter := records, possibility;
      assert Plane(i, j + 1, |names|, PairApart, ThirdApart) == Plane(i, j, |names|, PairApart, ThirdApart);
    }
  }

  /** The innermost loop of `main` for standing actor `i` and facing actor
      `j`: every actor is located in turn. */
  method VisitLocations(names: seq<string>, i: nat, j: nat,
                        records: seq<DirectionRecord>, possibility: nat,
                        step: (nat, Triple) -> seq<DirectionRecord>, ghost done: seq<Triple>)
    returns (extended: seq<DirectionRecord>, counter: nat)
    requires Distinct(names) && i < |names| && j < |names| && i != j
    requires forall e: nat, tr :: |step(e, tr)| <= 1
    requires records == Scan(step, done) && possibility == |records| + 1
    ensures extended == Scan(step, done + Row(i, j, |names|, ThirdApart))
    ensures counter == |extended| + 1
  {
    extended, counter := records, possibility;
    assert done + Row(i, j, 0, ThirdApart) == done;
    var k := 0;
    while k < |names|
      invariant k <= |names|
      invariant extended == Scan(step, done + Row(i, j, k, ThirdApart))
      invariant counter == |extended| + 1
    {
      extended, counter := LocateOne(names, i, j, k, extended, counter, step, done);
      k := k + 1;
    }
  }

  /** The body of the innermost loop for the actors at `i`, `j`, `k`: skip
      a repeated actor, otherwise append what `Visit` yields and bump the
      counter when that is a record. */
  method LocateOne(names: seq<string>, i: nat, j: nat, k: nat,
                   records: seq<DirectionRecord>, possibility: nat,
                   step: (nat, Triple) -> seq<DirectionRecord>, ghost done: seq<Triple>)
    returns (extended: seq<DirectionRecord>, counter: nat)
    requires Distinct(names) && i < |names| && j < |names| && k < |names| && i != j
    requires forall e: nat, tr :: |step(e, tr)| <= 1
    requires records == Scan(step, done + Row(i, j, k, ThirdApart))
    requires possibility == |records| + 1
    ensures extended == Scan(step, done + Row(i, j, k + 1, ThirdApart))
    ensures counter == |extended| + 1
  {
    var tr := Triple(i, j, k);
    ghost var visited := done + Row(i, j, k, ThirdApart);
    RowStep(i, j, k, ThirdApart);
    AppendAssoc(done, Row(i, j, k, ThirdApart), if ThirdApart(tr) then [tr] else []);
    extended, counter := records, possibility;
    var sameStanding := SameName(names, k, i);
    var sameFacing := SameName(names, k, j);
    if !sameStanding && !sameFacing {
      ScanSnoc(step, visited, tr);
      var found := step(possibility - 1, tr);
      extended := extended + found;
      if found != [] {
        counter := counter + 1;
      }
    } else {
      assert visited + [] == visited;
    }
  }
}
