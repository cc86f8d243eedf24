/** The appearance-order generator (`appearance_order_all.py`): for every
    four actors, ask for the order in which they first appear, presenting
    them in a different order and offering the correct order among up to
    three wrong ones. */
module AppearanceOrder {
  import opened Common
  import opened Text
  import opened Choice
  import opened Sorting
  import opened Actors
  import opened Enumerate

  /** One item of `actor_data`. */
  datatype Item = Item(name: string, display: string, firstFrame: int)

  /** The sort key. */
  function FrameKey(e: Item): real {
    e.firstFrame as real
  }

  /** The item built for one actor from its first row. */
  function ItemOf(rows: seq<Actor>, name: string): (e: Item)
    requires name in Names(rows)
    ensures e.name == name
  {
    var a := Lookup(rows, name);
    Item(name, Display(a), a.firstFrame)
  }

  function ItemsOf(rows: seq<Actor>, combo: seq<string>): (r: seq<Item>)
    requires forall n :: n in combo ==> n in Names(rows)
    ensures |r| == |combo|
    ensures forall p :: 0 <= p < |r| ==> r[p] == ItemOf(rows, combo[p])
  {
    seq(|combo|, p requires 0 <= p < |combo| => ItemOf(rows, combo[p]))
  }

  /** The `FirstFrame` of each actor's first row. */
  function Frames(rows: seq<Actor>, combo: seq<string>): (r: seq<int>)
    requires forall n :: n in combo ==> n in Names(rows)
    ensures |r| == |combo|
    ensures forall p :: 0 <= p < |r| ==> r[p] == Lookup(rows, combo[p]).firstFrame
  {
    seq(|combo|, p requires 0 <= p < |combo| => Lookup(rows, combo[p]).firstFrame)
  }

  /** The display names of a list of items. */
  function Displays(es: seq<Item>): (r: seq<string>)
    ensures |r| == |es|
    ensures forall i :: 0 <= i < |es| ==> r[i] == es[i].display
  {
    Map((e: Item) => e.display, es)
  }

  /** The combination's actor names (`actor_combo`). */
  function ComboNames(names: seq<string>, c: seq<nat>): (r: seq<string>)
    requires forall p :: 0 <= p < |c| ==> c[p] < |names|
    ensures |r| == |c|
    ensures forall p :: 0 <= p < |c| ==> r[p] == names[c[p]]
  {
    seq(|c|, p requires 0 <= p < |c| => names[c[p]])
  }

  /** The items in appearance order: stably sorted by first frame. */
  function Sorted(rows: seq<Actor>, combo: seq<string>): seq<Item>
    requires forall n :: n in combo ==> n in Names(rows)
  {
    SortBy(ItemsOf(rows, combo), FrameKey)
  }

  /** The correct answer sequence. */
  function Correct(rows: seq<Actor>, combo: seq<string>): seq<string>
    requires forall n :: n in combo ==> n in Names(rows)
  {
    Displays(Sorted(rows, combo))
  }

  /** The correct sequence lists the actors in nondecreasing first frame,
      rearranging them only, and actors with the same first frame keep the
      combination's order. */
  lemma CorrectIsByFirstFrame(rows: seq<Actor>, combo: seq<string>)
    requires forall n :: n in combo ==> n in Names(rows)
    ensures multiset(Sorted(rows, combo)) == multiset(ItemsOf(rows, combo))
    ensures SortedBy(Sorted(rows, combo), FrameKey)
    ensures forall v :: Filter(Sorted(rows, combo), KeyIs(FrameKey, v)) == Filter(ItemsOf(rows, combo), KeyIs(FrameKey, v))
    ensures Correct(rows, combo) == Displays(Sorted(rows, combo))
  {
    var es := ItemsOf(rows, combo);
    SortByPermutes(es, FrameKey);
    SortBySorted(es, FrameKey);
    forall v ensures Filter(SortBy(es, FrameKey), KeyIs(FrameKey, v)) == Filter(es, KeyIs(FrameKey, v)) {
      SortByStable(es, FrameKey, v);
    }
  }

  // ---------------------------------------------------------------------
  // The presented order.
  // ---------------------------------------------------------------------

  /** The loop that reshuffles `question_order` while it equals the sorted
      list, its `m`-th shuffle being draw `m`. At most `fuel` more shuffles
      are drawn; `None` when all of them return the sorted list. */
  function Reshuffle(sh: Shuffler<Item>, m: nat, fuel: nat, order: seq<Item>, sorted: seq<Item>): Option<seq<Item>>
    decreases fuel
  {
    if order != sorted then Some(order)
    else if fuel == 0 then None
    else Reshuffle(sh, m + 1, fuel - 1, sh(m, order), sorted)
  }

  /** The presented order is a rearrangement of the sorted one and differs
      from it. */
  lemma {:induction false} ReshuffleDiffers(sh: Shuffler<Item>, m: nat, fuel: nat, order: seq<Item>, sorted: seq<Item>)
    requires IsShuffler(sh) && multiset(order) == multiset(sorted)
    ensures Reshuffle(sh, m, fuel, order, sorted).Some? ==>
      Reshuffle(sh, m, fuel, order, sorted).value != sorted
      && multiset(Reshuffle(sh, m, fuel, order, sorted).value) == multiset(sorted)
    decreases fuel
  {
    if order == sorted && fuel > 0 {
      ReshuffleDiffers(sh, m + 1, fuel - 1, sh(m, order), sorted);
    }
  }

  /** The `while` loop of lines 82-84. */
  method PresentOrder(sh: Shuffler<Item>, sorted: seq<Item>, fuel: nat) returns (order: Option<seq<Item>>)
    ensures order == Reshuffle(sh, 0, fuel, sorted, sorted)
  {
    var questionOrder := sorted;
    var m := 0;
    while questionOrder == sorted && m < fuel
      invariant m <= fuel
      invariant Reshuffle(sh, m, fuel - m, questionOrder, sorted) == Reshuffle(sh, 0, fuel, sorted, sorted)
      decreases fuel - m
    {
      questionOrder := sh(m, questionOrder);
      m := m + 1;
    }
    if questionOrder == sorted {
      return None;
    }
    order := Some(questionOrder);
  }

  // ---------------------------------------------------------------------
  // Options.
  // ---------------------------------------------------------------------

  function Min(a: nat, b: nat): nat {
    if a <= b then a else b
  }

  /** `incorrect_options_raw`: every permutation but the correct one. */
  function Incorrect(perms: seq<seq<string>>, correct: seq<string>): seq<seq<string>> {
    Filter(perms, (p: seq<string>) => p != correct)
  }

  lemma IncorrectMember(perms: seq<seq<string>>, correct: seq<string>, p: seq<string>)
    ensures p in Incorrect(perms, correct) <==> p in perms && p != correct
  {
    FilterMember(perms, (q: seq<string>) => q != correct, p);
  }

  /** The option tuples in display order: the correct one and
      `min(3, len(incorrect))` sampled incorrect ones, shuffled. The
      sample is draw `2·e`, the shuffle draw `2·e + 1`. */
  function OptionTuples(sh: Shuffler<seq<string>>, e: nat, correct: seq<string>, incorrect: seq<seq<string>>): (r: seq<seq<string>>)
    requires IsShuffler(sh)
    ensures |r| <= 4
  {
    var selected := Sample(sh, 2 * e, incorrect, Min(3, |incorrect|));
    var all := [correct] + selected;
    var r := sh(2 * e + 1, all);
    assert |r| == |multiset(r)| == |multiset(all)| == |all|;
    r
  }

  /** There are `1 + min(3, len(incorrect))` options; the correct tuple is
      one of them exactly once and every other one is an incorrect one. */
  lemma OptionTuplesFacts(sh: Shuffler<seq<string>>, e: nat, correct: seq<string>, incorrect: seq<seq<string>>)
    requires IsShuffler(sh) && correct !in incorrect
    ensures var r := OptionTuples(sh, e, correct, incorrect);
      && |r| == 1 + Min(3, |incorrect|)
      && multiset(r)[correct] == 1
      && forall t :: t in r ==> t == correct || t in incorrect
  {
    var selected := Sample(sh, 2 * e, incorrect, Min(3, |incorrect|));
    var all := [correct] + selected;
    var r := sh(2 * e + 1, all);
    assert |r| == |multiset(r)| == |multiset(all)| == |all|;
    assert multiset(selected)[correct] == 0 by {
      assert multiset(incorrect)[correct] == 0;
    }
    assert multiset(all) == multiset{correct} + multiset(selected);
    forall t | t in r ensures t == correct || t in incorrect {
      assert t in multiset(all);
      if t != correct {
        assert t in multiset(selected);
        assert t in multiset(incorrect);
      }
    }
  }

  /** `s` with the items at `i` and `i + 1` exchanged. */
  function Swap<T>(s: seq<T>, i: nat): (r: seq<T>)
    requires i + 1 < |s|
    ensures |r| == |s|
  {
    s[..i] + [s[i + 1], s[i]] + s[i + 2..]
  }

  lemma SwapPermutes<T>(s: seq<T>, i: nat)
    requires i + 1 < |s|
    ensures multiset(Swap(s, i)) == multiset(s)
  {
    assert s == s[..i] + [s[i], s[i + 1]] + s[i + 2..];
  }

  /** Three distinct members make a list at least three long. */
  lemma ThreeMembers<T>(s: seq<T>, a: T, b: T, c: T)
    requires a in s && b in s && c in s && a != b && b != c && a != c
    ensures |s| >= 3
  {
    var i :| 0 <= i < |s| && s[i] == a;
    var j :| 0 <= j < |s| && s[j] == b;
    var k :| 0 <= k < |s| && s[k] == c;
  }

  /** With four distinct names, at least three permutations are incorrect,
      so four options are offered. */
  lemma {:induction false} EnoughIncorrect(presented: seq<string>, correct: seq<string>)
    requires multiset(correct) == multiset(presented)
    requires |correct| == 4 && Distinct(correct)
    ensures |Incorrect(Permutations(presented), correct)| >= 3
  {
    var perms := Permutations(presented);
    var a, b, c := Swap(correct, 0), Swap(correct, 1), Swap(correct, 2);
    SwapPermutes(correct, 0);
    SwapPermutes(correct, 1);
    SwapPermutes(correct, 2);
    PermutationsComplete(presented, a);
    PermutationsComplete(presented, b);
    PermutationsComplete(presented, c);
    assert a[0] == correct[1] && b[0] == correct[0] && c[0] == correct[0];
    assert b[1] == correct[2] && c[1] == correct[1] && c[2] == correct[3];
    IncorrectMember(perms, correct, a);
    IncorrectMember(perms, correct, b);
    IncorrectMember(perms, correct, c);
    ThreeMembers(Incorrect(perms, correct), a, b, c);
  }

  /** The question for the presented names: `None` where the source skips
      the combination (the correct sequence is not a permutation of the
      presented names, or `index` raises). */
  function Ask(sh: Shuffler<seq<string>>, e: nat, presented: seq<string>, correct: seq<string>): Option<Question>
    requires IsShuffler(sh)
  {
    var perms := Permutations(presented);
    if correct !in perms then None
    else
      var tuples := OptionTuples(sh, e, correct, Incorrect(perms, correct));
      match IndexOf(tuples, correct)
      case None => None
      case Some(k) => Some(Question(FormatAll(Joined(tuples)), Letter(k)))
  }

  /** For presented names that rearrange the correct sequence, a question
      is always built; its letter designates the correct sequence, it has
      `1 + min(3, len(incorrect))` options, four when the names are
      distinct, and every option is a permutation of the presented names. */
  lemma AskSound(sh: Shuffler<seq<string>>, e: nat, presented: seq<string>, correct: seq<string>)
    requires IsShuffler(sh) && multiset(presented) == multiset(correct)
    ensures Ask(sh, e, presented, correct).Some?
    ensures var q, perms := Ask(sh, e, presented, correct).value, Permutations(presented);
      && Answers(q, Join(correct, ", "))
      && |q.options| == 1 + Min(3, |Incorrect(perms, correct)|)
      && (Distinct(correct) && |correct| == 4 ==> |q.options| == 4)
      && forall i :: 0 <= i < |q.options| ==> exists p :: p in perms && OptionText(q.options[i]) == Join(p, ", ")
  {
    var perms := Permutations(presented);
    PermutationsComplete(presented, correct);
    var incorrect := Incorrect(perms, correct);
    IncorrectMember(perms, correct, correct);
    var tuples := OptionTuples(sh, e, correct, incorrect);
    OptionTuplesFacts(sh, e, correct, incorrect);
    assert correct in tuples by {
      assert correct in multiset(tuples);
    }
    var k := IndexOf(tuples, correct).value;
    var q := Question(FormatAll(Joined(tuples)), Letter(k));
    LetterRoundTrip(k);
    assert Ask(sh, e, presented, correct) == Some(q);
    forall i | 0 <= i < |q.options|
      ensures exists p :: p in perms && OptionText(q.options[i]) == Join(p, ", ")
    {
      assert tuples[i] in tuples;
      if tuples[i] != correct {
        IncorrectMember(perms, correct, tuples[i]);
      }
      assert OptionText(q.options[i]) == Join(tuples[i], ", ");
    }
    if Distinct(correct) && |correct| == 4 {
      EnoughIncorrect(presented, correct);
    }
  }

  /** The formatted texts of option tuples. */
  function Joined(opts: seq<seq<string>>): (r: seq<string>)
    ensures |r| == |opts|
    ensures forall i :: 0 <= i < |r| ==> r[i] == Join(opts[i], ", ")
  {
    seq(|opts|, i requires 0 <= i < |opts| => Join(opts[i], ", "))
  }

  // ---------------------------------------------------------------------
  // One combination.
  // ---------------------------------------------------------------------

  /** One row of `appearance_order_all.csv`; the question sentence is
      represented by the presented names it lists. */
  datatype AppearanceRecord = AppearanceRecord(
    possibility: nat,
    actors: seq<string>,
    firstFrames: seq<int>,
    presented: seq<string>,
    question: Question)

  /** The positions `c` name four actors of the table, in increasing order. */
  predicate IsCombo(rows: seq<Actor>, c: seq<nat>) {
    IsCombination(c, 4, 0, |ActorNames(rows)|)
  }

  lemma ComboInTable(rows: seq<Actor>, c: seq<nat>)
    requires IsCombo(rows, c)
    ensures forall n :: n in ComboNames(ActorNames(rows), c) ==> n in Names(rows)
  {
  }

  /** The body of the combination loop, with `e` records written before:
      the record for combination `c`, or nothing when it is skipped. */
  function Visit(rows: seq<Actor>, shE: Shuffler<Item>, shO: Shuffler<seq<string>>, fuel: nat, e: nat, c: seq<nat>): seq<AppearanceRecord>
    requires IsShuffler(shO) && IsCombo(rows, c)
  {
    var combo := ComboNames(ActorNames(rows), c);
    ComboInTable(rows, c);
    var sorted := Sorted(rows, combo);
    match Reshuffle(shE, 0, fuel, sorted, sorted)
    case None => []
    case Some(order) =>
      match Ask(shO, e, Displays(order), Displays(sorted))
      case None => []
      case Some(q) => [AppearanceRecord(e + 1, combo, Frames(rows, combo), Displays(order), q)]
  }

  /** A combination is written unless the reshuffles run out. */
  predicate Presentable(rows: seq<Actor>, shE: Shuffler<Item>, fuel: nat, c: seq<nat>)
    requires IsCombo(rows, c)
  {
    var combo := ComboNames(ActorNames(rows), c);
    ComboInTable(rows, c);
    Reshuffle(shE, 0, fuel, Sorted(rows, combo), Sorted(rows, combo)).Some?
  }

  /** What a written record states, given the combination's names, their
      first frames and the correct sequence. */
  predicate RecordFacts(r: AppearanceRecord, possibility: nat, combo: seq<string>, frames: seq<int>, correct: seq<string>) {
    var options := r.question.options;
    && r.possibility == possibility
    && r.actors == combo
    && r.firstFrames == frames
    && multiset(r.presented) == multiset(correct)
    && Answers(r.question, Join(correct, ", "))
    && |options| == 1 + Min(3, |Incorrect(Permutations(r.presented), correct)|)
    && (Distinct(correct) ==> |options| == 4)
    && forall i :: 0 <= i < |options| ==>
         exists p :: p in Permutations(r.presented) && OptionText(options[i]) == Join(p, ", ")
  }

  /** What a written record states about its combination. */
  predicate RecordOf(rows: seq<Actor>, r: AppearanceRecord, possibility: nat, c: seq<nat>)
    requires IsCombo(rows, c)
  {
    var combo := ComboNames(ActorNames(rows), c);
    ComboInTable(rows, c);
    RecordFacts(r, possibility, combo, Frames(rows, combo), Correct(rows, combo))
  }

  lemma AskRecord(sh: Shuffler<seq<string>>, e: nat, combo: seq<string>, frames: seq<int>, presented: seq<string>, correct: seq<string>)
    requires IsShuffler(sh) && multiset(presented) == multiset(correct) && |correct| == 4
    ensures Ask(sh, e, presented, correct).Some?
    ensures RecordFacts(AppearanceRecord(e + 1, combo, frames, presented, Ask(sh, e, presented, correct).value), e + 1, combo, frames, correct)
  {
    AskSound(sh, e, presented, correct);
  }

  /** Sorting keeps the four items. */
  lemma SortedLength(rows: seq<Actor>, combo: seq<string>)
    requires forall n :: n in combo ==> n in Names(rows)
    ensures |Sorted(rows, combo)| == |combo|
  {
    SortByPermutes(ItemsOf(rows, combo), FrameKey);
    assert |Sorted(rows, combo)| == |multiset(Sorted(rows, combo))| == |multiset(ItemsOf(rows, combo))|;
  }

  /** The presented names rearrange the correct sequence. */
  lemma PresentedRearranges(sh: Shuffler<Item>, fuel: nat, sorted: seq<Item>)
    requires IsShuffler(sh)
    ensures Reshuffle(sh, 0, fuel, sorted, sorted).Some? ==>
      multiset(Displays(Reshuffle(sh, 0, fuel, sorted, sorted).value)) == multiset(Displays(sorted))
  {
    if Reshuffle(sh, 0, fuel, sorted, sorted).Some? {
      ReshuffleDiffers(sh, 0, fuel, sorted, sorted);
      MapPermutes((e: Item) => e.display, Reshuffle(sh, 0, fuel, sorted, sorted).value, sorted);
    }
  }

  /** A combination yields one record exactly when its presented order is
      found: the correct sequence is always among the permutations of the
      presented names (the skip of line 98 is never taken) and always among
      the options. The record is numbered `e + 1`, and its answer letter
      designates the correct sequence. */
  lemma {:induction false} VisitSound(rows: seq<Actor>, shE: Shuffler<Item>, shO: Shuffler<seq<string>>, fuel: nat, e: nat, c: seq<nat>)
    requires IsShuffler(shE) && IsShuffler(shO) && IsCombo(rows, c)
    ensures |Visit(rows, shE, shO, fuel, e, c)| <= 1
    ensures Visit(rows, shE, shO, fuel, e, c) != [] <==> Presentable(rows, shE, fuel, c)
    ensures Visit(rows, shE, shO, fuel, e, c) != [] ==> RecordOf(rows, Visit(rows, shE, shO, fuel, e, c)[0], e + 1, c)
  {
    var combo := ComboNames(ActorNames(rows), c);
    var sorted := Sorted(rows, combo);
    var found := Reshuffle(shE, 0, fuel, sorted, sorted);
    if found.Some? {
      PresentedRearranges(shE, fuel, sorted);
      SortedLength(rows, combo);
      AskRecord(shO, e, combo, Frames(rows, combo), Displays(found.value), Displays(sorted));
    }
  }

  // ---------------------------------------------------------------------
  // All combinations.
  // ---------------------------------------------------------------------

  function Step(rows: seq<Actor>, shE: Shuffler<Item>, shO: Shuffler<seq<string>>, fuel: nat): (nat, seq<nat>) -> seq<AppearanceRecord>
    requires IsShuffler(shO)
  {
    (e: nat, c: seq<nat>) => if IsCombo(rows, c) then Visit(rows, shE, shO, fuel, e, c) else []
  }

  /** The rows `main` writes: nothing with fewer than four actors, else the
      records of every combination of four, in `itertools.combinations`
      order. */
  function AppearanceRecords(rows: seq<Actor>, shE: Shuffler<Item>, shO: Shuffler<seq<string>>, fuel: nat): seq<AppearanceRecord>
    requires IsShuffler(shO)
  {
    var n := |ActorNames(rows)|;
    if n < 4 then [] else Scan(Step(rows, shE, shO, fuel), Combinations(4, 0, n))
  }

  function KeepPresentable(rows: seq<Actor>, shE: Shuffler<Item>, fuel: nat): seq<nat> -> bool {
    (c: seq<nat>) => IsCombo(rows, c) && Presentable(rows, shE, fuel, c)
  }

  function RecordOfStep(rows: seq<Actor>): (AppearanceRecord, nat, seq<nat>) -> bool {
    (r: AppearanceRecord, p: nat, c: seq<nat>) => IsCombo(rows, c) && RecordOf(rows, r, p, c)
  }

  lemma StepSound(rows: seq<Actor>, shE: Shuffler<Item>, shO: Shuffler<seq<string>>, fuel: nat, e: nat, c: seq<nat>)
    requires IsShuffler(shE) && IsShuffler(shO) && IsCombo(rows, c)
    ensures var v := Step(rows, shE, shO, fuel)(e, c);
      && |v| <= 1 && (v != [] <==> KeepPresentable(rows, shE, fuel)(c))
      && (v != [] ==> RecordOfStep(rows)(v[0], e + 1, c))
  {
    VisitSound(rows, shE, shO, fuel, e, c);
  }

  /** Nothing is written for fewer than four actors; otherwise the records
      correspond one to one, in order, to the combinations of four whose
      presented order was found, each numbered by its position and sound
      for its combination. Every combination of four is visited
      (`CombinationsComplete`). */
  lemma GeneratedAppearance(rows: seq<Actor>, shE: Shuffler<Item>, shO: Shuffler<seq<string>>, fuel: nat)
    requires IsShuffler(shE) && IsShuffler(shO)
    ensures |ActorNames(rows)| < 4 ==> AppearanceRecords(rows, shE, shO, fuel) == []
    ensures |ActorNames(rows)| >= 4 ==>
      var kept := Filter(Combinations(4, 0, |ActorNames(rows)|), KeepPresentable(rows, shE, fuel));
      var records := AppearanceRecords(rows, shE, shO, fuel);
      && |records| == |kept|
      && forall q :: 0 <= q < |records| ==> IsCombo(rows, kept[q]) && RecordOf(rows, records[q], q + 1, kept[q])
  {
    var n := |ActorNames(rows)|;
    if n >= 4 {
      var step, keep, P := Step(rows, shE, shO, fuel), KeepPresentable(rows, shE, fuel), RecordOfStep(rows);
      var combos := Combinations(4, 0, n);
      forall e: nat, c | c in combos
        ensures |step(e, c)| <= 1 && (step(e, c) != [] <==> keep(c))
        ensures step(e, c) != [] ==> P(step(e, c)[0], e + 1, c)
      {
        StepSound(rows, shE, shO, fuel, e, c);
      }
      ScanMatches(step, keep, P, combos);
    }
  }

  /** The loop that gathers each combination actor's item (lines 67-76). */
  method CollectItems(rows: seq<Actor>, combo: seq<string>) returns (actorData: seq<Item>)
    requires forall n :: n in combo ==> n in Names(rows)
    ensures actorData == ItemsOf(rows, combo)
  {
    actorData := [];
    for p := 0 to |combo|
      invariant actorData == ItemsOf(rows, combo[..p])
    {
      var actor := Lookup(rows, combo[p]);
      actorData := actorData + [Item(combo[p], Display(actor), actor.firstFrame)];
    }
    assert combo[..|combo|] == combo;
  }

  /** The loop body for one combination (lines 65-135, without the
      exception handler, which no modelled step reaches). */
  method ProcessCombination(rows: seq<Actor>, shE: Shuffler<Item>, shO: Shuffler<seq<string>>, fuel: nat, e: nat, c: seq<nat>)
    returns (found: seq<AppearanceRecord>)
    requires IsShuffler(shO) && IsCombo(rows, c)
    ensures found == Visit(rows, shE, shO, fuel, e, c)
  {
    var combo := ComboNames(ActorNames(rows), c);
    ComboInTable(rows, c);
    var actorData := CollectItems(rows, combo);
    actorData := SortBy(actorData, FrameKey);
    var questionOrder := PresentOrder(shE, actorData, fuel);
    if questionOrder.None? {
      return [];
    }
    var questionNames := Displays(questionOrder.value);
    var correct := Displays(actorData);
    var perms := Permutations(questionNames);
    if correct !in perms {
      return [];
    }
    var incorrect := Incorrect(perms, correct);
    var tuples := OptionTuples(shO, e, correct, incorrect);
    var index := IndexOf(tuples, correct);
    if index.None? {
      return [];
    }
    found := [AppearanceRecord(e + 1, combo, Frames(rows, combo), questionNames, Question(FormatAll(Joined(tuples)), Letter(index.value)))];
  }

  /** `main`: the loop over every combination of four unique actors. */
  method GenerateAppearance(rows: seq<Actor>, shE: Shuffler<Item>, shO: Shuffler<seq<string>>, fuel: nat)
    returns (records: seq<AppearanceRecord>)
    requires IsShuffler(shO)
    ensures records == AppearanceRecords(rows, shE, shO, fuel)
  {
    records := [];
    var names := ActorNames(rows);
    if |names| < 4 {
      return;
    }
    var combos := Combinations(4, 0, |names|);
    var step := Step(rows, shE, shO, fuel);
    var possibility := 1;
    for p := 0 to |combos|
      invariant records == Scan(step, combos[..p]) && possibility == |records| + 1
    {
      var before := |records|;
      records := AppendCombination(rows, shE, shO, fuel, combos, p, records);
      possibility := possibility + (|records| - before);
    }
    assert combos[..|combos|] == combos;
  }

  /** One turn of `main`'s loop: the records of one more combination. */
  method AppendCombination(rows: seq<Actor>, shE: Shuffler<Item>, shO: Shuffler<seq<string>>, fuel: nat,
                           combos: seq<seq<nat>>, p: nat, records: seq<AppearanceRecord>)
    returns (next: seq<AppearanceRecord>)
    requires IsShuffler(shO) && p < |combos| && IsCombo(rows, combos[p])
    requires records == Scan(Step(rows, shE, shO, fuel), combos[..p])
    ensures next == Scan(Step(rows, shE, shO, fuel), combos[..p + 1])
    ensures |next| >= |records|
  {
    ScanNext(Step(rows, shE, shO, fuel), combos, p);
    var found := ProcessCombination(rows, shE, shO, fuel, |records|, combos[p]);
    next := records + found;
  }
}
