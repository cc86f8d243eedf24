/** The quiz sampler (`sample_quiz_from_output_json.py`): from one video's
    question list, pick one question per question type, add questions until
    the difficulties hard, medium and easy are all represented where the
    list allows it, top up to ten with further questions, and stamp each with
    the video. `rng.choice` and `rng.shuffle` are oracles; every property
    below holds for every oracle. */
module QuizSampler {
  import opened Common
  import opened Text
  import Choice

  /** One entry of the dataset's `qa_pairs`, by the keys the dataset
      writes (`None` when a key is absent). The sampler compares whole
      entries when it asks whether a question is already picked. */
  datatype Item = Item(
    videoId: Option<string>, videoPath: Option<string>,
    question: Option<string>, answer: Option<string>,
    questionType: Option<string>, difficulty: Option<string>)

  /** `item.get("question_type", "unknown")`. */
  function Category(q: Item): string {
    if q.questionType.Some? then q.questionType.value else "unknown"
  }

  function InCategory(c: string): Item -> bool {
    q => Category(q) == c
  }

  /** The `cat2items` dict: its keys in insertion order, and the lists. */
  datatype Grouping = Grouping(order: seq<string>, members: map<string, seq<Item>>)

  /** `cat2items.setdefault(cat, []).append(item)`. */
  function Place(g: Grouping, q: Item): Grouping {
    var c := Category(q);
    if c in g.members then Grouping(g.order, g.members[c := g.members[c] + [q]])
    else Grouping(g.order + [c], g.members[c := [q]])
  }

  /** `group_by_category`. */
  function GroupByCategory(items: seq<Item>): Grouping
    decreases |items|
  {
    if items == [] then Grouping([], map[])
    else Place(GroupByCategory(items[..|items| - 1]), items[|items| - 1])
  }

  /** The keys are listed once each, in the order they were first met, and
      are exactly the categories of the items. */
  lemma {:induction false} GroupByCategoryKeys(items: seq<Item>)
    ensures Distinct(GroupByCategory(items).order)
    ensures forall c :: c in GroupByCategory(items).order <==> c in GroupByCategory(items).members
    ensures forall c :: c in GroupByCategory(items).members <==> exists i :: 0 <= i < |items| && Category(items[i]) == c
    decreases |items|
  {
    if items != [] {
      var init := items[..|items| - 1];
      GroupByCategoryKeys(init);
      assert forall i :: 0 <= i < |init| ==> init[i] == items[i];
    }
  }

  /** Every group holds exactly the items of its category, in input order,
      and is not empty: the groups partition the input. */
  lemma {:induction false} GroupByCategoryMembers(items: seq<Item>)
    ensures forall c :: c in GroupByCategory(items).members ==>
      GroupByCategory(items).members[c] == Filter(items, InCategory(c)) && GroupByCategory(items).members[c] != []
    decreases |items|
  {
    if items != [] {
      var init, q := items[..|items| - 1], items[|items| - 1];
      var old_ := GroupByCategory(init);
      GroupByCategoryMembers(init);
      GroupByCategoryKeys(init);
      assert items == init + [q];
      forall c | c in GroupByCategory(items).members
        ensures GroupByCategory(items).members[c] == Filter(items, InCategory(c))
      {
        FilterAppend(init, [q], InCategory(c));
        assert Filter([q], InCategory(c)) == if Category(q) == c then [q] else [];
        if c == Category(q) && c !in old_.members {
          var f := Filter(init, InCategory(c));
          if f != [] {
            FilterMember(init, InCategory(c), f[0]);
            assert false;
          }
        }
      }
    }
  }

  /** The loop of `group_by_category`. */
  method GroupItems(items: seq<Item>) returns (g: Grouping)
    ensures g == GroupByCategory(items)
  {
    g := Grouping([], map[]);
    for n := 0 to |items|
      invariant g == GroupByCategory(items[..n])
    {
      var q := items[n];
      var c := Category(q);
      assert items[..n + 1][..n] == items[..n];
      var order, members := g.order, g.members;
      if c !in members {
        // setdefault: a new key goes last, with an empty list
        order := order + [c];
        members := members[c := [q]];
      } else {
        members := members[c := members[c] + [q]];
      }
      assert items[..n + 1] == items[..n] + [q];
      g := Grouping(order, members);
    }
    assert items[..|items|] == items;
  }

  /** `rng.choice`: the `n`-th draw names a position below the length it is
      given (a position out of range stands for the first, so every oracle
      is a valid one). */
  type Chooser = (nat, nat) -> nat

  function Choose(ch: Chooser, n: nat, items: seq<Item>): (r: Item)
    requires items != []
    ensures r in items
  {
    var k := ch(n, |items|);
    if k < |items| then items[k] else items[0]
  }

  /** The group a key names (the dict lookup; keys always have a group in a
      grouping `GroupByCategory` builds). */
  function GroupOf(g: Grouping, c: string): seq<Item> {
    if c in g.members then g.members[c] else []
  }

  /** One round of `pick_one_per_category`: a choice from a non-empty
      group, the `e`-th choice made. */
  function PickStep(ch: Chooser, g: Grouping): (nat, string) -> seq<Item> {
    (e: nat, c: string) => if GroupOf(g, c) == [] then [] else [Choose(ch, e, GroupOf(g, c))]
  }

  function PickOnePerCategory(ch: Chooser, g: Grouping): seq<Item> {
    Scan(PickStep(ch, g), g.order)
  }

  /** The loop of `pick_one_per_category`. */
  method PickOne(ch: Chooser, g: Grouping) returns (picked: seq<Item>)
    ensures picked == PickOnePerCategory(ch, g)
  {
    picked := [];
    for n := 0 to |g.order|
      invariant picked == Scan(PickStep(ch, g), g.order[..n])
    {
      var c := g.order[n];
      var group := GroupOf(g, c);
      if group != [] {
        picked := picked + [Choose(ch, |picked|, group)];
      }
      assert g.order[..n + 1][..n] == g.order[..n];
    }
    assert g.order[..|g.order|] == g.order;
  }

  function NonEmptyGroup(g: Grouping): string -> bool {
    c => GroupOf(g, c) != []
  }

  function FromCategory(items: seq<Item>): (Item, nat, string) -> bool {
    (r: Item, k: nat, c: string) => r in items && Category(r) == c
  }

  /** Picked question `i` is an input question of the `i`-th category: one
      question per category, in the order the categories were first met. */
  lemma PickOneAligned(ch: Chooser, items: seq<Item>)
    ensures |PickOnePerCategory(ch, GroupByCategory(items))| == |GroupByCategory(items).order|
    ensures forall i :: 0 <= i < |PickOnePerCategory(ch, GroupByCategory(items))| ==>
      PickOnePerCategory(ch, GroupByCategory(items))[i] in items &&
      Category(PickOnePerCategory(ch, GroupByCategory(items))[i]) == GroupByCategory(items).order[i]
  {
    var g := GroupByCategory(items);
    GroupByCategoryKeys(items);
    GroupByCategoryMembers(items);
    forall e: nat, c | c in g.order && PickStep(ch, g)(e, c) != []
      ensures FromCategory(items)(PickStep(ch, g)(e, c)[0], e + 1, c)
    {
      FilterMember(items, InCategory(c), Choose(ch, e, GroupOf(g, c)));
    }
    ScanMatches(PickStep(ch, g), NonEmptyGroup(g), FromCategory(items), g.order);
    FilterAll(g.order, NonEmptyGroup(g));
  }

  /** The picked questions are input questions of pairwise different
      categories... */
  lemma PickOneDistinct(ch: Chooser, items: seq<Item>)
    ensures var p := PickOnePerCategory(ch, GroupByCategory(items));
      (forall q :: q in p ==> q in items) &&
      (forall i, j :: 0 <= i < j < |p| ==> Category(p[i]) != Category(p[j]))
  {
    PickOneAligned(ch, items);
    GroupByCategoryKeys(items);
  }

  /** ... and every category of the input has its picked question. */
  lemma PickOneCovers(ch: Chooser, items: seq<Item>, q: Item)
    requires q in items
    ensures var p := PickOnePerCategory(ch, GroupByCategory(items));
      exists j :: 0 <= j < |p| && Category(p[j]) == Category(q)
  {
    var g := GroupByCategory(items);
    var p := PickOnePerCategory(ch, g);
    PickOneAligned(ch, items);
    GroupByCategoryKeys(items);
    var i :| 0 <= i < |items| && items[i] == q;
    assert Category(q) in g.members;
    var j :| 0 <= j < |g.order| && g.order[j] == Category(q);
    assert Category(p[j]) == Category(q);
  }

  /** `str(q.get("difficulty", "")).lower()`. */
  function Level(q: Item): string {
    Lower(if q.difficulty.Some? then q.difficulty.value else "")
  }

  /** `need`. */
  const Need: set<string> := {"hard", "medium", "easy"}

  /** `have`: the difficulties already represented. */
  function Levels(current: seq<Item>): set<string> {
    set q | q in current :: Level(q)
  }

  /** An iteration order of the set `need` (Python's order depends on string
      hashing, so it is a parameter). */
  predicate Enumerates(needOrder: seq<string>) {
    |needOrder| == 3 && Distinct(needOrder) &&
    (forall d :: d in needOrder ==> d in Need) && (forall d :: d in Need ==> d in needOrder)
  }

  function Lacking(current: seq<Item>): string -> bool {
    d => d !in Levels(current)
  }

  function Absent(current: seq<Item>): Item -> bool {
    q => q !in current
  }

  /** `[q for q in all_items if q not in current]`. */
  function Remaining(all: seq<Item>, current: seq<Item>): seq<Item> {
    Filter(all, Absent(current))
  }

  function Fits(d: string, additions: seq<Item>): Item -> bool {
    q => Level(q) == d && q !in additions
  }

  /** The loop of `ensure_difficulty_coverage` from a point on: `acc` is
      what was added so far and `missing` what is left to visit; for each
      difficulty, a choice among the shuffled remaining questions of that
      difficulty not yet added. */
  function AdditionsFrom(ch: Chooser, draw: nat, pool: seq<Item>, missing: seq<string>, acc: seq<Item>): seq<Item>
    decreases |missing|
  {
    if missing == [] then acc
    else
      var cand := Filter(pool, Fits(missing[0], acc));
      AdditionsFrom(ch, draw, pool, missing[1..], acc + (if cand == [] then [] else [Choose(ch, draw + |acc|, cand)]))
  }

  /** The whole loop; the choices are draws `draw`, `draw + 1`, ... */
  function Additions(ch: Chooser, draw: nat, pool: seq<Item>, missing: seq<string>): seq<Item> {
    AdditionsFrom(ch, draw, pool, missing, [])
  }

  /** `ensure_difficulty_coverage`: nothing when no difficulty is missing;
      otherwise the remaining questions shuffled by draw `shuffleDraw`,
      then the loop. */
  function EnsureDifficultyCoverage(
    all: seq<Item>, current: seq<Item>, needOrder: seq<string>,
    ch: Chooser, draw: nat, sh: Choice.Shuffler<Item>, shuffleDraw: nat): seq<Item>
  {
    var missing := Filter(needOrder, Lacking(current));
    if missing == [] then []
    else Additions(ch, draw, sh(shuffleDraw, Remaining(all, current)), missing)
  }

  /** The loop of `ensure_difficulty_coverage`. */
  method AddForMissing(ch: Chooser, draw: nat, pool: seq<Item>, missing: seq<string>) returns (additions: seq<Item>)
    ensures additions == Additions(ch, draw, pool, missing)
  {
    additions := [];
    for n := 0 to |missing|
      invariant AdditionsFrom(ch, draw, pool, missing[n..], additions) == Additions(ch, draw, pool, missing)
    {
      var cand := Filter(pool, Fits(missing[n], additions));
      var next := additions + (if cand == [] then [] else [Choose(ch, draw + |additions|, cand)]);
      assert missing[n..] == [missing[n]] + missing[n + 1..];
      assert AdditionsFrom(ch, draw, pool, missing[n..], additions) == AdditionsFrom(ch, draw, pool, missing[n + 1..], next);
      if cand != [] {
        additions := additions + [Choose(ch, draw + |additions|, cand)];
      } else {
        assert next == additions;
      }
    }
  }

  /** `ensure_difficulty_coverage`, with the shuffle done in place. */
  method CoverDifficulties(
    all: seq<Item>, current: seq<Item>, needOrder: seq<string>,
    ch: Chooser, draw: nat, sh: Choice.Shuffler<Item>, shuffleDraw: nat) returns (additions: seq<Item>)
    ensures additions == EnsureDifficultyCoverage(all, current, needOrder, ch, draw, sh, shuffleDraw)
  {
    var missing := Filter(needOrder, Lacking(current));
    if missing == [] {
      return [];
    }
    var remaining := Remaining(all, current);
    remaining := sh(shuffleDraw, remaining);
    additions := AddForMissing(ch, draw, remaining, missing);
  }

  /** No two questions of the same difficulty. */
  predicate LevelsDistinct(r: seq<Item>) {
    forall i, j :: 0 <= i < j < |r| ==> Level(r[i]) != Level(r[j])
  }

  /** No question of one of the difficulties listed. */
  predicate Apart(acc: seq<Item>, missing: seq<string>) {
    forall i :: 0 <= i < |acc| ==> Level(acc[i]) !in missing
  }

  /** The loop only appends. */
  lemma {:induction false} AdditionsFromPrefix(ch: Chooser, draw: nat, pool: seq<Item>, missing: seq<string>, acc: seq<Item>)
    ensures |acc| <= |AdditionsFrom(ch, draw, pool, missing, acc)| <= |acc| + |missing|
    ensures AdditionsFrom(ch, draw, pool, missing, acc)[..|acc|] == acc
    decreases |missing|
  {
    if missing != [] {
      var cand := Filter(pool, Fits(missing[0], acc));
      var next := acc + (if cand == [] then [] else [Choose(ch, draw + |acc|, cand)]);
      AdditionsFromPrefix(ch, draw, pool, missing[1..], next);
      assert next[..|acc|] == acc;
    }
  }

  /** What the loop appends comes from the pool, each of a difficulty still
      to visit, no two of the same difficulty and none of a difficulty
      already added. */
  lemma {:induction false} AdditionsFromSound(ch: Chooser, draw: nat, pool: seq<Item>, missing: seq<string>, acc: seq<Item>)
    requires Distinct(missing) && LevelsDistinct(acc) && Apart(acc, missing)
    ensures var r := AdditionsFrom(ch, draw, pool, missing, acc);
      (forall i :: |acc| <= i < |r| ==> r[i] in pool && Level(r[i]) in missing) && LevelsDistinct(r)
    decreases |missing|
  {
    if missing != [] {
      var d, rest := missing[0], missing[1..];
      assert missing == [d] + rest;
      DistinctCons(d, rest);
      var cand := Filter(pool, Fits(d, acc));
      var next := acc + (if cand == [] then [] else [Choose(ch, draw + |acc|, cand)]);
      if cand != [] {
        var x := Choose(ch, draw + |acc|, cand);
        FilterMember(pool, Fits(d, acc), x);
        assert next[|acc|] == x;
      }
      assert forall i :: 0 <= i < |acc| ==> next[i] == acc[i];
      assert LevelsDistinct(next);
      assert Apart(next, rest);
      AdditionsFromSound(ch, draw, pool, rest, next);
      AdditionsFromPrefix(ch, draw, pool, rest, next);
      var r := AdditionsFrom(ch, draw, pool, missing, acc);
      assert forall i :: 0 <= i < |next| ==> r[i] == next[i];
    }
  }

  /** Every difficulty still to visit that some pool question has gets a
      question, as long as none was added for it before. */
  lemma {:induction false} AdditionsFromReach(ch: Chooser, draw: nat, pool: seq<Item>, missing: seq<string>, acc: seq<Item>, q: Item)
    requires Distinct(missing) && Apart(acc, missing)
    requires Level(q) in missing && q in pool
    ensures exists i :: 0 <= i < |AdditionsFrom(ch, draw, pool, missing, acc)| && Level(AdditionsFrom(ch, draw, pool, missing, acc)[i]) == Level(q)
    decreases |missing|
  {
    var d, rest := missing[0], missing[1..];
    assert missing == [d] + rest;
    DistinctCons(d, rest);
    var cand := Filter(pool, Fits(d, acc));
    var next := acc + (if cand == [] then [] else [Choose(ch, draw + |acc|, cand)]);
    var r := AdditionsFrom(ch, draw, pool, missing, acc);
    AdditionsFromPrefix(ch, draw, pool, rest, next);
    if Level(q) == d {
      assert q !in acc;
      FilterMember(pool, Fits(d, acc), q);
      var x := Choose(ch, draw + |acc|, cand);
      FilterMember(pool, Fits(d, acc), x);
      assert r[|acc|] == next[|acc|] == x;
    } else {
      if cand != [] {
        var x := Choose(ch, draw + |acc|, cand);
        FilterMember(pool, Fits(d, acc), x);
        assert next[|acc|] == x;
      }
      assert Apart(next, rest);
      AdditionsFromReach(ch, draw, pool, rest, next, q);
    }
  }

  /** The additions come from the pool, one per missing difficulty at most,
      each of a missing difficulty, no two of the same difficulty. */
  lemma AdditionsSound(ch: Chooser, draw: nat, pool: seq<Item>, missing: seq<string>)
    requires Distinct(missing)
    ensures var r := Additions(ch, draw, pool, missing);
      |r| <= |missing| &&
      (forall i :: 0 <= i < |r| ==> r[i] in pool && Level(r[i]) in missing) &&
      (forall i, j :: 0 <= i < j < |r| ==> Level(r[i]) != Level(r[j]))
  {
    AdditionsFromPrefix(ch, draw, pool, missing, []);
    AdditionsFromSound(ch, draw, pool, missing, []);
  }

  /** Every missing difficulty that some pool question has is covered by
      an addition. */
  lemma AdditionsReach(ch: Chooser, draw: nat, pool: seq<Item>, missing: seq<string>, d: string, q: Item)
    requires Distinct(missing)
    requires d in missing && q in pool && Level(q) == d
    ensures exists i :: 0 <= i < |Additions(ch, draw, pool, missing)| && Level(Additions(ch, draw, pool, missing)[i]) == d
  {
    var r := Additions(ch, draw, pool, missing);
    assert r == AdditionsFrom(ch, draw, pool, missing, []);
    assert Apart([], missing);
    AdditionsFromReach(ch, draw, pool, missing, [], q);
    var i :| 0 <= i < |r| && Level(r[i]) == Level(q);
  }

  /** When hard, medium and easy are all represented, nothing is added. */
  lemma CoverageNotNeeded(
    all: seq<Item>, current: seq<Item>, needOrder: seq<string>,
    ch: Chooser, draw: nat, sh: Choice.Shuffler<Item>, shuffleDraw: nat)
    requires Enumerates(needOrder)
    requires Need <= Levels(current)
    ensures EnsureDifficultyCoverage(all, current, needOrder, ch, draw, sh, shuffleDraw) == []
  {
    var missing := Filter(needOrder, Lacking(current));
    if missing != [] {
      FilterMember(needOrder, Lacking(current), missing[0]);
    }
  }

  /** Otherwise at most one question per missing difficulty is added (so at
      most three), each of a missing difficulty, each an input question not
      already picked. */
  lemma CoverageSound(
    all: seq<Item>, current: seq<Item>, needOrder: seq<string>,
    ch: Chooser, draw: nat, sh: Choice.Shuffler<Item>, shuffleDraw: nat)
    requires Enumerates(needOrder)
    requires Choice.IsShuffler(sh)
    ensures var r := EnsureDifficultyCoverage(all, current, needOrder, ch, draw, sh, shuffleDraw);
      |r| <= 3 &&
      (forall i :: 0 <= i < |r| ==> r[i] in all && r[i] !in current && Level(r[i]) in Need && Level(r[i]) !in Levels(current)) &&
      (forall i, j :: 0 <= i < j < |r| ==> Level(r[i]) != Level(r[j]))
  {
    var missing := Filter(needOrder, Lacking(current));
    if missing != [] {
      var pool := sh(shuffleDraw, Remaining(all, current));
      assert multiset(pool) == multiset(Remaining(all, current));
      FilterDistinct(needOrder, Lacking(current));
      AdditionsSound(ch, draw, pool, missing);
      var r := Additions(ch, draw, pool, missing);
      forall i | 0 <= i < |r| ensures r[i] in all && r[i] !in current && Level(r[i]) in Need && Level(r[i]) !in Levels(current) {
        assert r[i] in multiset(Remaining(all, current));
        FilterMember(all, Absent(current), r[i]);
        FilterMember(needOrder, Lacking(current), Level(r[i]));
      }
    }
  }

  /** And after it, every difficulty of hard, medium and easy that some
      question outside `current` has is represented. */
  lemma CoverageComplete(
    all: seq<Item>, current: seq<Item>, needOrder: seq<string>,
    ch: Chooser, draw: nat, sh: Choice.Shuffler<Item>, shuffleDraw: nat, q: Item)
    requires Enumerates(needOrder)
    requires Choice.IsShuffler(sh)
    requires q in all && q !in current && Level(q) in Need
    ensures Level(q) in Levels(current + EnsureDifficultyCoverage(all, current, needOrder, ch, draw, sh, shuffleDraw))
  {
    var r := EnsureDifficultyCoverage(all, current, needOrder, ch, draw, sh, shuffleDraw);
    var d := Level(q);
    if d !in Levels(current) {
      var missing := Filter(needOrder, Lacking(current));
      FilterMember(needOrder, Lacking(current), d);
      FilterDistinct(needOrder, Lacking(current));
      var pool := sh(shuffleDraw, Remaining(all, current));
      FilterMember(all, Absent(current), q);
      assert q in multiset(Remaining(all, current));
      assert q in multiset(pool);
      AdditionsReach(ch, draw, pool, missing, d, q);
      var i :| 0 <= i < |r| && Level(r[i]) == d;
      assert (current + r)[|current| + i] == r[i];
    } else {
      var p :| p in current && Level(p) == d;
      assert p in current + r;
    }
  }

  /** `top_up_to_ten`: when fewer than ten questions are picked, the first
      `10 - len(current)` of the shuffled remaining questions (fewer when
      not enough remain). */
  function TopUpToTen(all: seq<Item>, current: seq<Item>, sh: Choice.Shuffler<Item>, shuffleDraw: nat): seq<Item> {
    if |current| >= 10 then []
    else
      var pool := sh(shuffleDraw, Remaining(all, current));
      if 10 - |current| <= |pool| then pool[..10 - |current|] else pool
  }

  function Min(a: nat, b: nat): nat {
    if a <= b then a else b
  }

  /** Nothing when ten are picked; otherwise as many as are missing up to
      ten, as far as the remaining questions allow, each an input question
      not already picked, none taken twice. */
  lemma TopUpToTenSound(all: seq<Item>, current: seq<Item>, sh: Choice.Shuffler<Item>, shuffleDraw: nat)
    requires Choice.IsShuffler(sh)
    ensures |current| >= 10 ==> TopUpToTen(all, current, sh, shuffleDraw) == []
    ensures |current| < 10 ==> |TopUpToTen(all, current, sh, shuffleDraw)| == Min(10 - |current|, |Remaining(all, current)|)
    ensures forall q :: q in TopUpToTen(all, current, sh, shuffleDraw) ==> q in all && q !in current
    ensures multiset(TopUpToTen(all, current, sh, shuffleDraw)) <= multiset(Remaining(all, current))
  {
    if |current| < 10 {
      var rem := Remaining(all, current);
      var pool := sh(shuffleDraw, rem);
      var t := TopUpToTen(all, current, sh, shuffleDraw);
      assert multiset(pool) == multiset(rem);
      assert |pool| == |multiset(pool)| == |rem|;
      assert pool == t + pool[|t|..];
      assert multiset(t) <= multiset(pool);
      forall q | q in t ensures q in all && q !in current {
        assert q in multiset(rem);
        FilterMember(all, Absent(current), q);
      }
    }
  }

  /** `pick_one_per_category(group_by_category(qa_pairs), rng)`: the
      choices are draws 0, 1, 2, ... of the choice oracle. */
  function Picked(items: seq<Item>, ch: Chooser): seq<Item> {
    PickOnePerCategory(ch, GroupByCategory(items))
  }

  /** `picked` after the difficulty additions: their choices continue the
      draws of the choice oracle, and their shuffle is draw 0 of the
      shuffle oracle. */
  function Covered(items: seq<Item>, needOrder: seq<string>, ch: Chooser, sh: Choice.Shuffler<Item>): seq<Item> {
    var p := Picked(items, ch);
    p + EnsureDifficultyCoverage(items, p, needOrder, ch, |p|, sh, 0)
  }

  /** `picked` after the top-up, whose shuffle is draw 1. */
  function Uncut(items: seq<Item>, needOrder: seq<string>, ch: Chooser, sh: Choice.Shuffler<Item>): seq<Item> {
    var p1 := Covered(items, needOrder, ch, sh);
    p1 + TopUpToTen(items, p1, sh, 1)
  }

  /** `picked[:10]`. */
  function Cut(picked: seq<Item>): (r: seq<Item>)
    ensures |r| <= 10
  {
    if |picked| <= 10 then picked else picked[..10]
  }

  /** What comes first survives the cut, up to ten questions. */
  lemma CutKeeps(a: seq<Item>, b: seq<Item>, k: nat)
    requires k < |a| && k < 10
    ensures k < |Cut(a + b)| && Cut(a + b)[k] == a[k]
  {
  }

  function Draft(items: seq<Item>, needOrder: seq<string>, ch: Chooser, sh: Choice.Shuffler<Item>): (r: seq<Item>)
    ensures |r| <= 10
  {
    Cut(Uncut(items, needOrder, ch, sh))
  }

  /** One question of the quiz file. */
  datatype QuizQuestion = QuizQuestion(
    videoId: string, videoPath: string, question: string,
    answer: string, questionType: string, difficulty: string)

  function OrEmpty(v: Option<string>): string {
    if v.Some? then v.value else ""
  }

  /** The flattened dict of one picked question (missing keys become ""). */
  function Flatten(videoId: string, videoPath: string, q: Item): QuizQuestion {
    QuizQuestion(videoId, videoPath, OrEmpty(q.question), OrEmpty(q.answer), OrEmpty(q.questionType), OrEmpty(q.difficulty))
  }

  function FlattenAll(videoId: string, videoPath: string, picked: seq<Item>): (r: seq<QuizQuestion>)
    ensures |r| == |picked|
    ensures forall i :: 0 <= i < |r| ==> r[i] == Flatten(videoId, videoPath, picked[i])
  {
    seq(|picked|, i requires 0 <= i < |picked| => Flatten(videoId, videoPath, picked[i]))
  }

  /** `dataset.get("video_path", f"output_video/{video_id}.mp4")`. */
  function QuizVideoPath(videoId: string, storedPath: Option<string>): string {
    if storedPath.Some? then storedPath.value else "output_video/" + videoId + ".mp4"
  }

  /** `build_quiz` without the file reading: `items` is the dataset's
      `qa_pairs` (empty when the key is absent). */
  function BuildQuiz(
    videoId: string, items: seq<Item>, storedPath: Option<string>,
    needOrder: seq<string>, ch: Chooser, sh: Choice.Shuffler<Item>): seq<QuizQuestion>
  {
    FlattenAll(videoId, QuizVideoPath(videoId, storedPath), Draft(items, needOrder, ch, sh))
  }

  /** The flattening loop of `build_quiz`. */
  method FlattenQuestions(videoId: string, videoPath: string, picked: seq<Item>) returns (quiz: seq<QuizQuestion>)
    ensures quiz == FlattenAll(videoId, videoPath, picked)
  {
    quiz := [];
    for n := 0 to |picked|
      invariant quiz == FlattenAll(videoId, videoPath, picked[..n])
    {
      quiz := quiz + [Flatten(videoId, videoPath, picked[n])];
    }
    assert picked[..|picked|] == picked;
  }

  /** The three `+=` steps of `build_quiz` and the cut. */
  method PickQuestions(items: seq<Item>, needOrder: seq<string>, ch: Chooser, sh: Choice.Shuffler<Item>) returns (picked: seq<Item>)
    ensures picked == Draft(items, needOrder, ch, sh)
  {
    var groups := GroupItems(items);
    picked := PickOne(ch, groups);
    var extra := CoverDifficulties(items, picked, needOrder, ch, |picked|, sh, 0);
    picked := picked + extra;
    picked := picked + TopUpToTen(items, picked, sh, 1);
    if |picked| > 10 {
      picked := picked[..10];
    }
  }

  /** `build_quiz`. */
  method BuildQuizMain(
    videoId: string, items: seq<Item>, storedPath: Option<string>,
    needOrder: seq<string>, ch: Chooser, sh: Choice.Shuffler<Item>) returns (quiz: seq<QuizQuestion>)
    ensures quiz == BuildQuiz(videoId, items, storedPath, needOrder, ch, sh)
  {
    var videoPath := QuizVideoPath(videoId, storedPath);
    var picked := PickQuestions(items, needOrder, ch, sh);
    quiz := FlattenQuestions(videoId, videoPath, picked);
  }

  /** Every picked question is a dataset question. */
  lemma DraftFromItems(items: seq<Item>, needOrder: seq<string>, ch: Chooser, sh: Choice.Shuffler<Item>)
    requires Enumerates(needOrder)
    requires Choice.IsShuffler(sh)
    ensures forall q :: q in Uncut(items, needOrder, ch, sh) ==> q in items
    ensures forall q :: q in Draft(items, needOrder, ch, sh) ==> q in items
  {
    var u := Uncut(items, needOrder, ch, sh);
    UncutFromItems(items, needOrder, ch, sh);
    var d := Draft(items, needOrder, ch, sh);
    assert d == Cut(u);
    forall q | q in d ensures q in items {
      var i :| 0 <= i < |d| && d[i] == q;
      assert d[i] == u[i];
    }
  }

  lemma UncutFromItems(items: seq<Item>, needOrder: seq<string>, ch: Chooser, sh: Choice.Shuffler<Item>)
    requires Enumerates(needOrder)
    requires Choice.IsShuffler(sh)
    ensures forall q :: q in Uncut(items, needOrder, ch, sh) ==> q in items
  {
    var p := Picked(items, ch);
    var c := EnsureDifficultyCoverage(items, p, needOrder, ch, |p|, sh, 0);
    var p1 := p + c;
    var t := TopUpToTen(items, p1, sh, 1);
    var p2 := p1 + t;
    PickOneDistinct(ch, items);
    CoverageSound(items, p, needOrder, ch, |p|, sh, 0);
    TopUpToTenSound(items, p1, sh, 1);
    forall q | q in p2 ensures q in items {
      if q in c {
        var i :| 0 <= i < |c| && c[i] == q;
      }
    }
    assert Uncut(items, needOrder, ch, sh) == p2;
  }

  /** At most ten questions, each stamped with the video id and path. */
  lemma BuildQuizStamped(
    videoId: string, items: seq<Item>, storedPath: Option<string>,
    needOrder: seq<string>, ch: Chooser, sh: Choice.Shuffler<Item>)
    ensures var quiz := BuildQuiz(videoId, items, storedPath, needOrder, ch, sh);
      |quiz| <= 10 &&
      forall i :: 0 <= i < |quiz| ==> quiz[i].videoId == videoId && quiz[i].videoPath == QuizVideoPath(videoId, storedPath)
  {
  }

  /** Each question is the flattening of a question of the dataset. */
  lemma BuildQuizFromItems(
    videoId: string, items: seq<Item>, storedPath: Option<string>,
    needOrder: seq<string>, ch: Chooser, sh: Choice.Shuffler<Item>, i: nat)
    requires Enumerates(needOrder)
    requires Choice.IsShuffler(sh)
    requires i < |BuildQuiz(videoId, items, storedPath, needOrder, ch, sh)|
    ensures var d := Draft(items, needOrder, ch, sh);
      d[i] in items && BuildQuiz(videoId, items, storedPath, needOrder, ch, sh)[i] == Flatten(videoId, QuizVideoPath(videoId, storedPath), d[i])
  {
    var d := Draft(items, needOrder, ch, sh);
    DraftFromItems(items, needOrder, ch, sh);
    assert d[i] in d;
  }

  /** With at most ten categories, every category of the dataset has a
      question in the quiz: the one-per-category picks survive the cut. */
  lemma DraftCoversCategories(items: seq<Item>, needOrder: seq<string>, ch: Chooser, sh: Choice.Shuffler<Item>, q: Item)
    requires q in items
    requires |GroupByCategory(items).order| <= 10
    ensures exists j :: 0 <= j < |Draft(items, needOrder, ch, sh)| && Category(Draft(items, needOrder, ch, sh)[j]) == Category(q)
  {
    var p := Picked(items, ch);
    var p1 := Covered(items, needOrder, ch, sh);
    assert p == PickOnePerCategory(ch, GroupByCategory(items));
    PickOneAligned(ch, items);
    PickOneCovers(ch, items, q);
    var j :| 0 <= j < |p| && Category(p[j]) == Category(q);
    assert p1[j] == p[j];
    CutKeeps(p1, TopUpToTen(items, p1, sh, 1), j);
    var d := Draft(items, needOrder, ch, sh);
    assert d == Cut(p1 + TopUpToTen(items, p1, sh, 1));
    assert Category(d[j]) == Category(q);
  }

  /** After the difficulty additions, every difficulty of hard, medium and
      easy that the dataset has is represented, and at most three questions
      were added to the picks. */
  lemma CoveredLevels(items: seq<Item>, needOrder: seq<string>, ch: Chooser, sh: Choice.Shuffler<Item>, q: Item)
    requires Enumerates(needOrder)
    requires Choice.IsShuffler(sh)
    requires q in items && Level(q) in Need
    ensures |Covered(items, needOrder, ch, sh)| <= |GroupByCategory(items).order| + 3
    ensures exists k :: 0 <= k < |Covered(items, needOrder, ch, sh)| && Level(Covered(items, needOrder, ch, sh)[k]) == Level(q)
  {
    var p := Picked(items, ch);
    var c := EnsureDifficultyCoverage(items, p, needOrder, ch, |p|, sh, 0);
    var p1 := Covered(items, needOrder, ch, sh);
    assert p1 == p + c;
    assert p == PickOnePerCategory(ch, GroupByCategory(items));
    PickOneAligned(ch, items);
    CoverageSound(items, p, needOrder, ch, |p|, sh, 0);
    if q !in p {
      CoverageComplete(items, p, needOrder, ch, |p|, sh, 0, q);
    } else {
      assert q in p1;
    }
    var r :| r in p1 && Level(r) == Level(q);
    var k :| 0 <= k < |p1| && p1[k] == r;
  }

  /** With at most seven categories, every difficulty of hard, medium and
      easy that the dataset has appears in the quiz: the picks and the
      difficulty additions survive the cut. */
  lemma DraftCoversLevels(items: seq<Item>, needOrder: seq<string>, ch: Chooser, sh: Choice.Shuffler<Item>, q: Item)
    requires Enumerates(needOrder)
    requires Choice.IsShuffler(sh)
    requires q in items && Level(q) in Need
    requires |GroupByCategory(items).order| <= 7
    ensures Level(q) in Levels(Draft(items, needOrder, ch, sh))
  {
    var p1 := Covered(items, needOrder, ch, sh);
    var u := Uncut(items, needOrder, ch, sh);
    var d := Draft(items, needOrder, ch, sh);
    CoveredLevels(items, needOrder, ch, sh, q);
    var k :| 0 <= k < |p1| && Level(p1[k]) == Level(q);
    CutKeeps(p1, TopUpToTen(items, p1, sh, 1), k);
    assert d[k] in d;
  }

  /** Questions of pairwise different categories followed by questions of
      pairwise different difficulties, none of them among the first:
      no question twice. */
  lemma PicksDistinct(p: seq<Item>, c: seq<Item>)
    requires forall i, j :: 0 <= i < j < |p| ==> Category(p[i]) != Category(p[j])
    requires forall i, j :: 0 <= i < j < |c| ==> Level(c[i]) != Level(c[j])
    requires forall i :: 0 <= i < |c| ==> c[i] !in p
    ensures Distinct(p + c)
  {
    assert forall x :: x in p ==> x !in c;
    DistinctConcat(p, c);
  }

  /** The picks and the difficulty additions: dataset questions, none
      twice. */
  lemma CoveredDistinct(items: seq<Item>, needOrder: seq<string>, ch: Chooser, sh: Choice.Shuffler<Item>)
    requires Enumerates(needOrder)
    requires Choice.IsShuffler(sh)
    ensures Distinct(Covered(items, needOrder, ch, sh))
    ensures forall q :: q in Covered(items, needOrder, ch, sh) ==> q in items
  {
    var p := Picked(items, ch);
    var c := EnsureDifficultyCoverage(items, p, needOrder, ch, |p|, sh, 0);
    assert p == PickOnePerCategory(ch, GroupByCategory(items));
    PickOneDistinct(ch, items);
    CoverageSound(items, p, needOrder, ch, |p|, sh, 0);
    PicksDistinct(p, c);
    forall x | x in c ensures x in items {
      var i :| 0 <= i < |c| && c[i] == x;
    }
  }

  function Among(current: seq<Item>): Item -> bool {
    q => q in current
  }

  /** Taking away some of a duplicate-free list leaves the rest. */
  lemma RemainingLength(all: seq<Item>, current: seq<Item>)
    requires Distinct(all) && Distinct(current)
    requires forall q :: q in current ==> q in all
    ensures |Remaining(all, current)| + |current| == |all|
  {
    FilterSplit(all, Among(current), Absent(current));
    FilterDistinct(all, Among(current));
    forall q ensures q in Filter(all, Among(current)) <==> q in current {
      FilterMember(all, Among(current), q);
    }
    DistinctSameLength(Filter(all, Among(current)), current);
  }

  /** When the dataset holds no question twice, neither does the quiz... */
  lemma DraftDistinct(items: seq<Item>, needOrder: seq<string>, ch: Chooser, sh: Choice.Shuffler<Item>)
    requires Enumerates(needOrder)
    requires Choice.IsShuffler(sh)
    requires Distinct(items)
    ensures Distinct(Draft(items, needOrder, ch, sh))
  {
    var u := Uncut(items, needOrder, ch, sh);
    UncutDistinct(items, needOrder, ch, sh);
    var d := Draft(items, needOrder, ch, sh);
    assert d == Cut(u);
    assert forall i :: 0 <= i < |d| ==> d[i] == u[i];
  }

  lemma UncutDistinct(items: seq<Item>, needOrder: seq<string>, ch: Chooser, sh: Choice.Shuffler<Item>)
    requires Enumerates(needOrder)
    requires Choice.IsShuffler(sh)
    requires Distinct(items)
    ensures Distinct(Uncut(items, needOrder, ch, sh))
  {
    var p1 := Covered(items, needOrder, ch, sh);
    var t := TopUpToTen(items, p1, sh, 1);
    CoveredDistinct(items, needOrder, ch, sh);
    TopUpToTenSound(items, p1, sh, 1);
    FilterDistinct(items, Absent(p1));
    DistinctSubMultiset(t, Remaining(items, p1));
    DistinctConcat(p1, t);
    assert Uncut(items, needOrder, ch, sh) == p1 + t;
  }

  /** ... and it has ten questions, or all of them when there are fewer. */
  lemma DraftFull(items: seq<Item>, needOrder: seq<string>, ch: Chooser, sh: Choice.Shuffler<Item>)
    requires Enumerates(needOrder)
    requires Choice.IsShuffler(sh)
    requires Distinct(items)
    ensures |Draft(items, needOrder, ch, sh)| == Min(10, |items|)
  {
    var p1 := Covered(items, needOrder, ch, sh);
    CoveredDistinct(items, needOrder, ch, sh);
    TopUpToTenSound(items, p1, sh, 1);
    RemainingLength(items, p1);
  }
}
