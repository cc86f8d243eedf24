/** The route plan generator (`route_plan_all.py`): for a robot standing at
    one actor and facing another, enumerate routes to a third actor, with at
    most one intermediate stop, and ask for the turns along the way.

    As written, `process_single_route` never records a turn: the lines that
    would do so follow the `break` of the 'Turn Back' branch. Its answer
    list therefore stays empty and no question is ever appended; the model
    keeps this, and proves the option-building block separately. */
module RoutePlan {
  import opened Common
  import opened Text
  import opened Choice
  import opened Geometry
  import opened Actors
  import opened Pairs
  import opened Enumerate

  // ---------------------------------------------------------------------
  // Look-ups and geometric tests.
  // ---------------------------------------------------------------------

  /** `MIN_END_DISTANCE` and `NEIGHBOR_DISTANCE`, in metres. */
  const MinEndDistance: real := 1.0
  const NeighborDistance: real := 2.0

  /** `get_distance`: the distance of the first row mentioning the pair in
      either order, `None` when no row does. */
  function GetDistance(pairs: seq<PairDistance>, a: string, b: string): Option<real>
    decreases |pairs|
  {
    if pairs == [] then None
    else if Mentions(pairs[0], a, b) then Some(pairs[0].answer)
    else GetDistance(pairs[1..], a, b)
  }

  /** The look-up does not depend on the order of the two names. */
  lemma {:induction false} GetDistanceSymmetric(pairs: seq<PairDistance>, a: string, b: string)
    ensures GetDistance(pairs, a, b) == GetDistance(pairs, b, a)
    decreases |pairs|
  {
    if pairs != [] {
      GetDistanceSymmetric(pairs[1..], a, b);
    }
  }

  /** `None` exactly when no row mentions the pair; otherwise the answer of
      the first row that does. */
  lemma {:induction false} GetDistanceFirst(pairs: seq<PairDistance>, a: string, b: string)
    ensures GetDistance(pairs, a, b).None? <==> forall i :: 0 <= i < |pairs| ==> !Mentions(pairs[i], a, b)
    ensures GetDistance(pairs, a, b).Some? ==>
      exists i :: 0 <= i < |pairs| && Mentions(pairs[i], a, b) && GetDistance(pairs, a, b).value == pairs[i].answer
        && forall j :: 0 <= j < i ==> !Mentions(pairs[j], a, b)
    decreases |pairs|
  {
    if pairs != [] && !Mentions(pairs[0], a, b) {
      var rest := pairs[1..];
      GetDistanceFirst(rest, a, b);
      if GetDistance(rest, a, b).Some? {
        var i :| 0 <= i < |rest| && Mentions(rest[i], a, b) && GetDistance(rest, a, b).value == rest[i].answer
          && forall j :: 0 <= j < i ==> !Mentions(rest[j], a, b);
        assert pairs[i + 1] == rest[i];
        forall j | 0 <= j < i + 1 ensures !Mentions(pairs[j], a, b) {
          if j > 0 {
            assert pairs[j] == rest[j - 1];
          }
        }
      } else {
        forall i | 0 <= i < |pairs| ensures !Mentions(pairs[i], a, b) {
          if i > 0 {
            assert pairs[i] == rest[i - 1];
          }
        }
      }
    }
  }

  /** `check_xy_overlap`: the XY projections of the two bounding boxes meet,
      that is, on each axis the centres lie at most half the summed sizes
      apart. The intervals are closed, so boxes that only touch overlap. */
  function CheckXyOverlap(a: Actor, b: Actor): (r: bool)
    ensures r <==> Abs(a.x - b.x) <= (a.sizeX + b.sizeX) / 2.0 && Abs(a.y - b.y) <= (a.sizeY + b.sizeY) / 2.0
  {
    var aMinX, aMaxX := a.x - a.sizeX / 2.0, a.x + a.sizeX / 2.0;
    var aMinY, aMaxY := a.y - a.sizeY / 2.0, a.y + a.sizeY / 2.0;
    var bMinX, bMaxX := b.x - b.sizeX / 2.0, b.x + b.sizeX / 2.0;
    var bMinY, bMaxY := b.y - b.sizeY / 2.0, b.y + b.sizeY / 2.0;
    (aMinX <= bMaxX && aMaxX >= bMinX) && (aMinY <= bMaxY && aMaxY >= bMinY)
  }

  /** Overlap does not depend on the order of the two actors. */
  lemma CheckXyOverlapSymmetric(a: Actor, b: Actor)
    ensures CheckXyOverlap(a, b) == CheckXyOverlap(b, a)
  {
    assert Abs(a.x - b.x) == Abs(b.x - a.x) && Abs(a.y - b.y) == Abs(b.y - a.y);
  }

  // ---------------------------------------------------------------------
  // The nearest neighbour (`find_nearest_actor`).
  // ---------------------------------------------------------------------

  /** A candidate the search may pick: not the current actor, with a known
      distance within `maxDistance`. */
  predicate Eligible(pairs: seq<PairDistance>, current: string, c: string, maxDistance: real) {
    c != current && GetDistance(pairs, current, c).Some? && GetDistance(pairs, current, c).value <= maxDistance
  }

  /** Candidate `k` is eligible, strictly nearer than every eligible one
      before it, and no farther than every eligible one after it, among the
      first `n` candidates. */
  predicate NearestUpTo(pairs: seq<PairDistance>, current: string, cands: seq<string>, maxDistance: real, n: nat, k: nat)
    requires n <= |cands|
  {
    && k < n
    && Eligible(pairs, current, cands[k], maxDistance)
    && (forall j :: 0 <= j < k && Eligible(pairs, current, cands[j], maxDistance) ==>
          GetDistance(pairs, current, cands[j]).value > GetDistance(pairs, current, cands[k]).value)
    && (forall j :: k < j < n && Eligible(pairs, current, cands[j], maxDistance) ==>
          GetDistance(pairs, current, cands[j]).value >= GetDistance(pairs, current, cands[k]).value)
  }

  /** `find_nearest_actor`: the first candidate at the smallest distance
      within `maxDistance`, never the current actor, or `None`. */
  method FindNearest(actors: seq<Actor>, pairs: seq<PairDistance>, current: string, cands: seq<string>, maxDistance: real)
    returns (nearest: Option<Actor>)
    requires forall c :: c in cands ==> c in Names(actors)
    ensures nearest.None? <==> forall k :: 0 <= k < |cands| ==> !Eligible(pairs, current, cands[k], maxDistance)
    ensures nearest.Some? ==> nearest.value.name != current
    ensures nearest.Some? ==> exists k: nat :: NearestUpTo(pairs, current, cands, maxDistance, |cands|, k) && nearest.value == Lookup(actors, cands[k])
  {
    nearest := None;
    var minDistance: Option<real> := None;
    ghost var best: nat := 0;
    for i := 0 to |cands|
      invariant minDistance.None? <==> nearest.None?
      invariant nearest.None? <==> forall k :: 0 <= k < i ==> !Eligible(pairs, current, cands[k], maxDistance)
      invariant nearest.Some? ==>
        && NearestUpTo(pairs, current, cands, maxDistance, i, best)
        && minDistance.value == GetDistance(pairs, current, cands[best]).value
        && nearest.value == Lookup(actors, cands[best])
    {
      if cands[i] == current {
        continue;
      }
      var distance := GetDistance(pairs, current, cands[i]);
      if distance.Some? && distance.value <= maxDistance && (minDistance.None? || distance.value < minDistance.value) {
        minDistance := distance;
        nearest := Some(Lookup(actors, cands[i]));
        best := i;
      }
    }
    if nearest.Some? {
      assert cands[best] != current;
    }
  }

  // ---------------------------------------------------------------------
  // Turns (`calculate_turn_direction`).
  // ---------------------------------------------------------------------

  const TurnLeft: string := "Turn Left"
  const TurnRight: string := "Turn Right"
  const TurnBack: string := "Turn Back"

  /** `possible_turns`. */
  const PossibleTurns: seq<string> := [TurnLeft, TurnRight, TurnBack]

  /** The turn from facing direction `f` towards `g`, on the vectors
      normalised by `kf = 1/|f|` and `kg = 1/|g|`: nearly perpendicular
      targets go left or right by the cross product, targets more than 120
      degrees away are behind, the rest go left or right again. */
  function CalculateTurn(f: Vec2, g: Vec2, kf: real, kg: real): string
    requires kf > 0.0 && kf * kf * NormSq(f) == 1.0
    requires kg > 0.0 && kg * kg * NormSq(g) == 1.0
  {
    var fn, gn := Scale(f, kf), Scale(g, kg);
    var cross, dot := Cross(fn, gn), Dot(fn, gn);
    if Abs(dot) < 0.1 then (if cross > 0.0 then TurnLeft else TurnRight)
    else if dot < -0.5 then TurnBack
    else if cross > 0.0 then TurnLeft
    else TurnRight
  }

  /** The same classification on the unnormalised vectors: behind exactly
      when the dot product is negative and `4·dot² > |f|²·|g|²`, otherwise
      left exactly when the cross product is positive. */
  function TurnBySigns(f: Vec2, g: Vec2): (r: string)
    ensures r in PossibleTurns
  {
    var dot := Dot(f, g);
    if dot < 0.0 && 4.0 * (dot * dot) > NormSq(f) * NormSq(g) then TurnBack
    else if Cross(f, g) > 0.0 then TurnLeft
    else TurnRight
  }

  lemma ScaledProducts(f: Vec2, g: Vec2, kf: real, kg: real)
    ensures Dot(Scale(f, kf), Scale(g, kg)) == Dot(f, g) * (kf * kg)
    ensures Cross(Scale(f, kf), Scale(g, kg)) == Cross(f, g) * (kf * kg)
  {
    assert (f.x * kf) * (g.x * kg) == (f.x * g.x) * (kf * kg);
    assert (f.y * kf) * (g.y * kg) == (f.y * g.y) * (kf * kg);
    assert (f.x * kf) * (g.y * kg) == (f.x * g.y) * (kf * kg);
    assert (f.y * kf) * (g.x * kg) == (f.y * g.x) * (kf * kg);
  }

  /** The product of two normalising factors normalises the product of
      the two squared norms. */
  lemma UnitProduct(a: real, b: real, c: real, d: real)
    requires a * a * c == 1.0 && b * b * d == 1.0
    ensures (a * b) * (a * b) * (c * d) == 1.0
  {
    assert (a * b) * (a * b) == (a * a) * (b * b);
    MulAssoc(a * a, b * b, c * d);
    assert (b * b) * (c * d) == c * (b * b * d);
    MulAssoc(a * a, c, b * b * d);
    assert (a * a * c) * (b * b * d) == 1.0;
  }

  /** `d·k < -1/2` for `k > 0` with `k²·n = 1`: exactly when `d < 0` and
      `4·d² > n`. */
  lemma BehindByNorm(d: real, k: real, n: real, dk: real)
    requires k > 0.0 && k * k * n == 1.0 && dk == d * k
    ensures dk < -0.5 <==> d < 0.0 && 4.0 * (d * d) > n
  {
    PositiveFactor(d, k);
    BelowNegative(d * k, 0.5);
    assert (d * k) * (d * k) == (d * d) * (k * k);
    assert n > 0.0 by {
      SquareSign(k);
      PositiveFactor(n, k * k);
      assert n * (k * k) == k * k * n;
    }
    PositiveFactorOrder(0.25, (d * d) * (k * k), n);
    assert (d * d) * (k * k) * n == d * d;
  }

  /** Normalising changes no turn: `calculate_turn_direction` is decided by
      the signs of the unnormalised products, and its nearly-perpendicular
      branch answers as the last one does. */
  lemma {:induction false} TurnNormalisation(f: Vec2, g: Vec2, kf: real, kg: real)
    requires kf > 0.0 && kf * kf * NormSq(f) == 1.0
    requires kg > 0.0 && kg * kg * NormSq(g) == 1.0
    ensures CalculateTurn(f, g, kf, kg) == TurnBySigns(f, g)
  {
    var k := kf * kg;
    ScaledProducts(f, g, kf, kg);
    assert k > 0.0;
    PositiveFactor(Cross(f, g), k);
    var nf, ng := NormSq(f), NormSq(g);
    UnitProduct(kf, kg, nf, ng);
    var fn, gn := Scale(f, kf), Scale(g, kg);
    BehindByNorm(Dot(f, g), k, nf * ng, Dot(fn, gn));
  }

  /** A target straight ahead is classified 'Turn Right'. */
  lemma StraightAheadIsRight(f: Vec2, g: Vec2, kf: real, kg: real)
    requires kf > 0.0 && kf * kf * NormSq(f) == 1.0
    requires kg > 0.0 && kg * kg * NormSq(g) == 1.0
    requires Cross(f, g) == 0.0 && Dot(f, g) > 0.0
    ensures CalculateTurn(f, g, kf, kg) == TurnRight
  {
    TurnNormalisation(f, g, kf, kg);
  }

  // ---------------------------------------------------------------------
  // Options (the block that builds the multiple choice).
  // ---------------------------------------------------------------------

  /** The retry loop filling `all_mc_options_text`: each draw is joined and
      added unless present, until four texts are held or the draws run out. */
  function Grow(texts: seq<string>, draws: seq<seq<string>>): (r: seq<string>)
    ensures |texts| <= 4 ==> |r| <= 4
    decreases |draws|
  {
    if |texts| >= 4 || draws == [] then texts
    else
      var t := Join(draws[0], ", ");
      Grow(if t in texts then texts else texts + [t], draws[1..])
  }

  /** The texts stay distinct and at most four, start with the ones given,
      and every other one is a joined draw. */
  lemma {:induction false} GrowFacts(texts: seq<string>, draws: seq<seq<string>>)
    requires Distinct(texts) && |texts| <= 4
    ensures Distinct(Grow(texts, draws)) && |Grow(texts, draws)| <= 4
    ensures texts <= Grow(texts, draws)
    ensures forall t :: t in Grow(texts, draws) ==> t in texts || exists d :: d in draws && t == Join(d, ", ")
    decreases |draws|
  {
    if |texts| < 4 && draws != [] {
      var t := Join(draws[0], ", ");
      var next := if t in texts then texts else texts + [t];
      if t !in texts {
        forall i, j | 0 <= i < j < |next| ensures next[i] != next[j] {
          if j == |texts| {
            assert next[i] == texts[i];
          } else {
            assert next[i] == texts[i] && next[j] == texts[j];
          }
        }
      }
      GrowFacts(next, draws[1..]);
      forall u | u in Grow(texts, draws) ensures u in texts || exists d :: d in draws && u == Join(d, ", ") {
        if u !in next {
          var d :| d in draws[1..] && u == Join(d, ", ");
          assert d in draws;
        } else if u !in texts {
          assert u == t && draws[0] in draws;
        }
      }
    }
  }

  /** The options of a route with answers `answers` (turn labels in route
      order): the three turns shuffled for one turn; for several, the joined
      correct sequence and three other joined draws, shuffled. `None` where
      the source returns without a question, or where the draws run out
      before four texts are held (the source would keep drawing). */
  function RouteOptions(answers: seq<string>, sh: Shuffler<string>, draw: nat, draws: seq<seq<string>>): Option<Question>
    requires IsShuffler(sh)
  {
    if |answers| == 1 then
      Build(Sample(sh, draw, PossibleTurns, 3), answers[0])
    else if |answers| >= 2 then
      var texts := Grow([Join(answers, ", ")], draws);
      if |texts| < 4 then None else Build(Sample(sh, draw, texts, |texts|), Join(answers, ", "))
    else None
  }

  /** One turn: a question exactly when the turn is one of the three
      labels; its options are the three labels and its letter points at the
      turn. */
  lemma SingleTurnOptions(answers: seq<string>, sh: Shuffler<string>, draw: nat, draws: seq<seq<string>>)
    requires IsShuffler(sh) && |answers| == 1
    ensures RouteOptions(answers, sh, draw, draws).Some? <==> answers[0] in PossibleTurns
    ensures RouteOptions(answers, sh, draw, draws).Some? ==>
      var q := RouteOptions(answers, sh, draw, draws).value;
      multiset(Texts(q.options)) == multiset(PossibleTurns) && Answers(q, answers[0])
  {
    var shuffled := Sample(sh, draw, PossibleTurns, 3);
    if answers[0] in PossibleTurns {
      BuildFromShuffle(PossibleTurns, shuffled, answers[0]);
      TextsOfFormatAll(shuffled);
    } else {
      assert answers[0] !in multiset(shuffled);
    }
  }

  /** Several turns: a question exactly when the draws supply three texts
      besides the correct one; then it has four distinct options, the
      correct sequence among them exactly once, the others joined draws, and
      its letter points at the correct sequence. */
  lemma SeveralTurnOptions(answers: seq<string>, sh: Shuffler<string>, draw: nat, draws: seq<seq<string>>)
    requires IsShuffler(sh) && |answers| >= 2
    ensures RouteOptions(answers, sh, draw, draws).Some? <==> |Grow([Join(answers, ", ")], draws)| == 4
    ensures RouteOptions(answers, sh, draw, draws).Some? ==>
      var q, correct := RouteOptions(answers, sh, draw, draws).value, Join(answers, ", ");
      && |q.options| == 4
      && Distinct(Texts(q.options))
      && Answers(q, correct)
      && (forall i :: 0 <= i < 4 && Texts(q.options)[i] == correct ==> i == LetterIndex(q.answer))
      && (forall t :: t in Texts(q.options) ==> t == correct || exists d :: d in draws && t == Join(d, ", "))
  {
    var correct := Join(answers, ", ");
    var texts := Grow([correct], draws);
    GrowFacts([correct], draws);
    if |texts| == 4 {
      var shuffled := Sample(sh, draw, texts, 4);
      assert texts[0] == correct;
      assert multiset(texts)[correct] == 1 by {
        DistinctCount(texts, 0);
      }
      BuildUnique(texts, shuffled, correct);
      BuildFromShuffle(texts, shuffled, correct);
      TextsOfFormatAll(shuffled);
      DistinctPermutation(texts, shuffled);
      forall t | t in shuffled ensures t in texts {
        assert t in multiset(shuffled);
      }
    }
  }

  /** The retry loop of the option block. */
  method GrowOptions(correct: string, draws: seq<seq<string>>) returns (texts: seq<string>)
    ensures texts == Grow([correct], draws)
  {
    texts := [correct];
    var i := 0;
    while |texts| < 4 && i < |draws|
      invariant i <= |draws|
      invariant Grow(texts, draws[i..]) == Grow([correct], draws)
      decreases |draws| - i
    {
      var t := Join(draws[i], ", ");
      assert draws[i..][1..] == draws[i + 1..];
      if t !in texts {
        texts := texts + [t];
      }
      i := i + 1;
    }
    assert |texts| >= 4 || draws[i..] == [];
  }

  /** The option block of `process_single_route`. */
  method BuildRouteOptions(answers: seq<string>, sh: Shuffler<string>, draw: nat, draws: seq<seq<string>>)
    returns (q: Option<Question>)
    requires IsShuffler(sh)
    ensures q == RouteOptions(answers, sh, draw, draws)
  {
    if |answers| == 1 {
      var mcOptions := Sample(sh, draw, PossibleTurns, 3);
      q := Build(mcOptions, answers[0]);
    } else if |answers| >= 2 {
      var correct := Join(answers, ", ");
      var texts := GrowOptions(correct, draws);
      if |texts| < 4 {
        return None;
      }
      var mcOptions := Sample(sh, draw, texts, |texts|);
      q := Build(mcOptions, correct);
    } else {
      q := None;
    }
  }

  // ---------------------------------------------------------------------
  // Routes.
  // ---------------------------------------------------------------------

  /** The distance is known and at most `limit`. */
  predicate Within(d: Option<real>, limit: real) {
    d.Some? && d.value <= limit
  }

  /** The filters of `process_routes`: begin and end differ and lie at
      least `MinEndDistance` apart, and the facing actor lies within
      `NeighborDistance` of the begin actor. */
  predicate Admitted(pairs: seq<PairDistance>, begin: string, facing: string, end: string) {
    && begin != end
    && GetDistance(pairs, begin, end).Some? && !(GetDistance(pairs, begin, end).value < MinEndDistance)
    && Within(GetDistance(pairs, begin, facing), NeighborDistance)
  }

  /** A possible intermediate stop: none of the three route actors, and
      within `NeighborDistance` of the begin actor and of the end actor. */
  predicate ValidStop(pairs: seq<PairDistance>, begin: string, facing: string, end: string, stop: string) {
    && stop != begin && stop != facing && stop != end
    && Within(GetDistance(pairs, begin, stop), NeighborDistance)
    && Within(GetDistance(pairs, stop, end), NeighborDistance)
  }

  /** The route sequences after the first `n` names: the direct route, then
      one single-stop route per valid stop, in name order. */
  function RouteSequences(names: seq<string>, pairs: seq<PairDistance>, begin: string, facing: string, end: string, n: nat): seq<seq<string>>
    requires n <= |names|
  {
    if n == 0 then [[]]
    else
      RouteSequences(names, pairs, begin, facing, end, n - 1)
        + (if ValidStop(pairs, begin, facing, end, names[n - 1]) then [[names[n - 1]]] else [])
  }

  /** The direct route comes first; every other route has exactly one stop,
      and it is valid and one of the names. */
  lemma {:induction false} RouteSequencesShape(names: seq<string>, pairs: seq<PairDistance>, begin: string, facing: string, end: string, n: nat)
    requires n <= |names|
    ensures var r := RouteSequences(names, pairs, begin, facing, end, n);
      && |r| >= 1 && r[0] == []
      && forall q :: 1 <= q < |r| ==> |r[q]| == 1 && r[q][0] in names[..n] && ValidStop(pairs, begin, facing, end, r[q][0])
  {
    if n > 0 {
      RouteSequencesShape(names, pairs, begin, facing, end, n - 1);
      assert names[..n - 1] <= names[..n];
    }
  }

  /** Every valid stop among the names gets its route. */
  lemma {:induction false} RouteSequencesComplete(names: seq<string>, pairs: seq<PairDistance>, begin: string, facing: string, end: string, n: nat, i: nat)
    requires i < n <= |names| && ValidStop(pairs, begin, facing, end, names[i])
    ensures [names[i]] in RouteSequences(names, pairs, begin, facing, end, n)
  {
    if i < n - 1 {
      RouteSequencesComplete(names, pairs, begin, facing, end, n - 1, i);
    }
  }

  /** `generate_route_sequences`. */
  method GenerateRouteSequences(names: seq<string>, pairs: seq<PairDistance>, begin: string, facing: string, end: string)
    returns (routes: seq<seq<string>>)
    ensures routes == RouteSequences(names, pairs, begin, facing, end, |names|)
  {
    routes := [[]];
    for n := 0 to |names|
      invariant routes == RouteSequences(names, pairs, begin, facing, end, n)
    {
      var stop := names[n];
      if stop != begin && stop != facing && stop != end {
        var toStop := GetDistance(pairs, begin, stop);
        var toEnd := GetDistance(pairs, stop, end);
        if toStop.Some? && toEnd.Some? && toStop.value <= NeighborDistance && toEnd.value <= NeighborDistance {
          routes := routes + [[stop]];
        }
      }
    }
  }

  /** One row of `route_plan_all.csv`, before the possibility number is
      added; the question sentence is not modelled. */
  datatype RouteQuestion = RouteQuestion(begin: string, facing: string, end: string, stops: string, question: Question)

  /** The emission block of `process_single_route`: with a valid route and
      recorded turns, the question built from the turns is appended. */
  method RecordRoute(valid: bool, answers: seq<string>, generated: seq<RouteQuestion>,
                     begin: string, facing: string, end: string, stops: seq<string>,
                     sh: Shuffler<string>, draw: nat, draws: seq<seq<string>>)
    returns (result: seq<RouteQuestion>)
    requires IsShuffler(sh)
    ensures !valid || answers == [] ==> result == generated
    ensures valid && answers != [] ==>
      result == generated + match RouteOptions(answers, sh, draw, draws)
                            case None => []
                            case Some(q) => [RouteQuestion(begin, facing, end, Join(stops, ", "), q)]
  {
    result := generated;
    if valid && answers != [] {
      var q := BuildRouteOptions(answers, sh, draw, draws);
      if q.Some? {
        result := generated + [RouteQuestion(begin, facing, end, Join(stops, ", "), q.value)];
      }
    }
  }

  /** `process_single_route` as written: the turn of each leg is computed
      from the begin actor and the initial facing direction (neither is ever
      updated), a 'Turn Back' ends the loop, and since no turn is ever
      recorded the emission block never appends. */
  method ProcessSingleRoute(actors: seq<Actor>, begin: Actor, facing: Actor, end: Actor, stops: seq<string>,
                            generated: seq<RouteQuestion>, sh: Shuffler<string>, draw: nat, draws: seq<seq<string>>)
    returns (result: seq<RouteQuestion>)
    requires IsShuffler(sh)
    requires forall s :: s in stops ==> s in Names(actors)
    ensures result == generated
  {
    var stopDetails: seq<Actor> := [];
    for s := 0 to |stops|
      invariant |stopDetails| == s
    {
      stopDetails := stopDetails + [Lookup(actors, stops[s])];
    }
    var route := [begin] + stopDetails + [end];
    var answers: seq<string> := [];
    var valid := true;
    var current := begin;
    var facingDir := Sub(Pos(facing), Pos(begin));
    result := generated;
    for i := 0 to |route| - 1
      invariant answers == [] && result == generated
    {
      var target := route[i + 1];
      var toTarget := Sub(Pos(target), Pos(current));
      var turn := TurnBySigns(facingDir, toTarget);
      if turn == TurnBack {
        valid := false;
        break;
      }
      result := RecordRoute(valid, answers, result, begin.name, facing.name, end.name, stops, sh, draw, draws);
    }
  }

  /** A route the loops hand to `process_single_route`. */
  datatype RouteJob = RouteJob(begin: string, facing: string, end: string, stops: seq<string>)

  function JobsOf(begin: string, facing: string, end: string, routes: seq<seq<string>>): (r: seq<RouteJob>)
    ensures |r| == |routes|
    ensures forall q :: 0 <= q < |r| ==> r[q] == RouteJob(begin, facing, end, routes[q])
  {
    seq(|routes|, q requires 0 <= q < |routes| => RouteJob(begin, facing, end, routes[q]))
  }

  /** The routes processed for one permutation of actor positions. */
  function JobsAt(names: seq<string>, pairs: seq<PairDistance>, t: Triple): seq<RouteJob> {
    if t.i < |names| && t.j < |names| && t.k < |names| then
      var begin, facing, end := names[t.i], names[t.j], names[t.k];
      if Admitted(pairs, begin, facing, end) then JobsOf(begin, facing, end, RouteSequences(names, pairs, begin, facing, end, |names|))
      else []
    else []
  }

  function JobStep(names: seq<string>, pairs: seq<PairDistance>): (nat, Triple) -> seq<RouteJob> {
    (e: nat, t: Triple) => JobsAt(names, pairs, t)
  }

  /** Every route `process_routes` processes, in order. */
  function RouteJobs(names: seq<string>, pairs: seq<PairDistance>): seq<RouteJob> {
    Scan(JobStep(names, pairs), Permutations3(|names|))
  }

  /** What every processed route satisfies. */
  predicate JobOk(names: seq<string>, pairs: seq<PairDistance>, job: RouteJob) {
    && job.begin in names && job.facing in names && job.end in names
    && job.begin != job.facing && job.facing != job.end
    && Admitted(pairs, job.begin, job.facing, job.end)
    && (job.stops == [] || (|job.stops| == 1 && job.stops[0] in names && ValidStop(pairs, job.begin, job.facing, job.end, job.stops[0])))
  }

  /** A route is processed only for distinct begin, facing and end actors
      that pass the distance filters, and only with no stop or one valid
      stop. */
  lemma RouteJobsSound(names: seq<string>, pairs: seq<PairDistance>)
    requires Distinct(names)
    ensures forall job :: job in RouteJobs(names, pairs) ==> JobOk(names, pairs, job)
  {
    var step, P := JobStep(names, pairs), (job: RouteJob) => JobOk(names, pairs, job);
    forall e: nat, t, job | t in Permutations3(|names|) && job in step(e, t) ensures P(job) {
      var begin, facing, end := names[t.i], names[t.j], names[t.k];
      var routes := RouteSequences(names, pairs, begin, facing, end, |names|);
      RouteSequencesShape(names, pairs, begin, facing, end, |names|);
      var q :| 0 <= q < |routes| && job == JobsOf(begin, facing, end, routes)[q];
      if q > 0 {
        assert names[..|names|] == names;
      }
    }
    ScanAll(step, P, Permutations3(|names|));
  }

  /** Every stop of every route is one of the names. */
  lemma RoutesNamed(names: seq<string>, pairs: seq<PairDistance>, begin: string, facing: string, end: string)
    ensures var r := RouteSequences(names, pairs, begin, facing, end, |names|);
      forall q, s :: 0 <= q < |r| && s in r[q] ==> s in names
  {
    RouteSequencesShape(names, pairs, begin, facing, end, |names|);
    assert names[..|names|] == names;
  }

  /** One more route adds its job. */
  lemma JobsOfNext(begin: string, facing: string, end: string, routes: seq<seq<string>>, q: nat)
    requires q < |routes|
    ensures JobsOf(begin, facing, end, routes[..q + 1]) == JobsOf(begin, facing, end, routes[..q]) + [RouteJob(begin, facing, end, routes[q])]
  {
  }

  /** The route loop for one admitted permutation. */
  method ProcessRoutesFor(actors: seq<Actor>, pairs: seq<PairDistance>, names: seq<string>, begin: string, facing: string, end: string,
                          generated: seq<RouteQuestion>, sh: Shuffler<string>, draws: seq<seq<string>>, ghost jobs: seq<RouteJob>)
    returns (result: seq<RouteQuestion>, ghost extended: seq<RouteJob>)
    requires IsShuffler(sh)
    requires begin in Names(actors) && facing in Names(actors) && end in Names(actors)
    requires forall n :: n in names ==> n in Names(actors)
    ensures result == generated
    ensures extended == jobs + JobsOf(begin, facing, end, RouteSequences(names, pairs, begin, facing, end, |names|))
  {
    var routes := GenerateRouteSequences(names, pairs, begin, facing, end);
    RoutesNamed(names, pairs, begin, facing, end);
    var beginD, facingD, endD := Lookup(actors, begin), Lookup(actors, facing), Lookup(actors, end);
    result, extended := generated, jobs;
    for q := 0 to |routes|
      invariant result == generated
      invariant extended == jobs + JobsOf(begin, facing, end, routes[..q])
    {
      result := ProcessSingleRoute(actors, beginD, facingD, endD, routes[q], result, sh, |result|, draws);
      JobsOfNext(begin, facing, end, routes, q);
      extended := extended + [RouteJob(begin, facing, end, routes[q])];
    }
    assert routes[..|routes|] == routes;
  }

  /** The body of the loop over permutations: the three actors at the
      positions of `t`, skipped unless they pass the distance filters. */
  method ProcessTriple(actors: seq<Actor>, pairs: seq<PairDistance>, names: seq<string>, t: Triple,
                       generated: seq<RouteQuestion>, sh: Shuffler<string>, draws: seq<seq<string>>, ghost jobs: seq<RouteJob>)
    returns (result: seq<RouteQuestion>, ghost extended: seq<RouteJob>)
    requires IsShuffler(sh) && names == ActorNames(actors)
    requires t.i < |names| && t.j < |names| && t.k < |names|
    ensures result == generated
    ensures extended == jobs + JobsAt(names, pairs, t)
  {
    result, extended := generated, jobs;
    var begin, facing, end := names[t.i], names[t.j], names[t.k];
    if begin == end {
      return;
    }
    var endDistance := GetDistance(pairs, begin, end);
    if endDistance.None? || endDistance.value < MinEndDistance {
      return;
    }
    var facingDistance := GetDistance(pairs, begin, facing);
    if facingDistance.None? || facingDistance.value > NeighborDistance {
      return;
    }
    result, extended := ProcessRoutesFor(actors, pairs, names, begin, facing, end, generated, sh, draws, jobs);
  }

  /** `process_routes`: over every permutation of three actors, the
      admitted ones have their routes processed. As written no question is
      ever generated, so nothing is written. */
  method ProcessRoutes(actors: seq<Actor>, pairs: seq<PairDistance>, sh: Shuffler<string>, draws: seq<seq<string>>)
    returns (generated: seq<RouteQuestion>, ghost jobs: seq<RouteJob>)
    requires IsShuffler(sh)
    ensures generated == []
    ensures jobs == RouteJobs(ActorNames(actors), pairs)
  {
    var names := ActorNames(actors);
    var perms := Permutations3(|names|);
    generated, jobs := [], [];
    for p := 0 to |perms|
      invariant generated == []
      invariant jobs == Scan(JobStep(names, pairs), perms[..p])
    {
      assert perms[p] in perms;
      generated, jobs := ProcessTriple(actors, pairs, names, perms[p], generated, sh, draws, jobs);
      ScanNext(JobStep(names, pairs), perms, p);
    }
    assert perms[..|perms|] == perms;
  }
}
