/** The multiple-choice pattern every generator shares: shuffle an option
    list, format option `i` as `chr(65 + i) + ". " + text`, and answer with
    `chr(65 + shuffled.index(correct))`. Randomness enters as an oracle that
    returns some permutation of its argument; the properties below hold for
    every such oracle. */
module Choice {
  import opened Common

  /** `random.shuffle` / `random.sample(xs, len(xs))`: the `n`-th draw
      returns a rearrangement of `xs`. */
  type Shuffler<!T> = (nat, seq<T>) -> seq<T>

  ghost predicate IsShuffler<T(!new)>(sh: Shuffler<T>) {
    forall n, xs :: multiset(sh(n, xs)) == multiset(xs)
  }

  /** `random.sample(xs, k)`: the first `k` of a shuffle of `xs`. */
  function Sample<T>(sh: Shuffler<T>, n: nat, xs: seq<T>, k: nat): (r: seq<T>)
    requires multiset(sh(n, xs)) == multiset(xs)
    requires k <= |xs|
    ensures |r| == k
    ensures multiset(r) <= multiset(xs)
    ensures k == |xs| ==> multiset(r) == multiset(xs)
  {
    var all := sh(n, xs);
    assert |all| == |multiset(all)| == |xs|;
    assert all == all[..k] + all[k..];
    all[..k]
  }

  /** `chr(65 + i)`. */
  function Letter(i: nat): char
    requires i < 26
  {
    (65 + i) as char
  }

  /** The option index an answer letter designates. */
  function LetterIndex(c: char): int {
    c as int - 65
  }

  lemma {:induction false} LetterRoundTrip(i: nat)
    requires i < 26
    ensures LetterIndex(Letter(i)) == i
    ensures 'A' <= Letter(i) <= 'Z'
  {
  }

  /** `f"{chr(65 + i)}. {text}"`. */
  function Format(i: nat, text: string): string
    requires i < 26
  {
    [Letter(i)] + ". " + text
  }

  /** The text of a formatted option, without its "X. " prefix. */
  function OptionText(option: string): string {
    if |option| < 3 then option else option[3..]
  }

  lemma FormatRoundTrip(i: nat, text: string)
    requires i < 26
    ensures OptionText(Format(i, text)) == text
    ensures Format(i, text)[0] == Letter(i)
  {
  }

  /** `[f"{chr(65+i)}. {opt}" for i, opt in enumerate(options)]`. */
  function FormatAll(options: seq<string>): (r: seq<string>)
    requires |options| <= 26
    ensures |r| == |options|
    ensures forall i :: 0 <= i < |r| ==> |r[i]| >= 3 && r[i][0] == Letter(i) && OptionText(r[i]) == options[i]
  {
    seq(|options|, i requires 0 <= i < |options| => Format(i, options[i]))
  }

  /** The option texts of a formatted option list. */
  function Texts(options: seq<string>): (r: seq<string>)
    ensures |r| == |options|
    ensures forall i :: 0 <= i < |r| ==> r[i] == OptionText(options[i])
  {
    seq(|options|, i requires 0 <= i < |options| => OptionText(options[i]))
  }

  /** Formatting loses no text: the options read back as the list formatted. */
  lemma TextsOfFormatAll(options: seq<string>)
    requires |options| <= 26
    ensures Texts(FormatAll(options)) == options
  {
  }

  /** `list.index`: the first position holding `x`, or `None` where Python
      raises `ValueError`. */
  function IndexOf<T(==)>(s: seq<T>, x: T): (r: Option<nat>)
    ensures r.None? <==> x !in s
    ensures r.Some? ==> r.value < |s| && s[r.value] == x
    ensures r.Some? ==> forall j :: 0 <= j < r.value ==> s[j] != x
  {
    if s == [] then None
    else if s[0] == x then Some(0)
    else
      match IndexOf(s[1..], x)
      case None => None
      case Some(k) => Some(k + 1)
  }

  /** A multiple-choice question: the formatted options and the answer letter. */
  datatype Question = Question(options: seq<string>, answer: char)

  /** The option text the answer letter designates is `correct`. */
  predicate Answers(q: Question, correct: string) {
    var k := LetterIndex(q.answer);
    0 <= k < |q.options| && OptionText(q.options[k]) == correct
  }

  /** Format the shuffled options and look up the answer letter; `None` when
      `index` would raise (the generators then drop the question). */
  function Build(shuffled: seq<string>, correct: string): (r: Option<Question>)
    requires |shuffled| <= 26
    ensures r.None? <==> correct !in shuffled
    ensures r.Some? ==> r.value.options == FormatAll(shuffled) && Answers(r.value, correct)
    ensures r.Some? ==> shuffled[LetterIndex(r.value.answer)] == correct
  {
    match IndexOf(shuffled, correct)
    case None => None
    case Some(k) =>
      LetterRoundTrip(k);
      Some(Question(FormatAll(shuffled), Letter(k)))
  }

  /** The shared choice-builder property: when the options are a
      rearrangement of a pool that holds the correct text, a question is
      always built, it lists every pool entry as often as the pool does, and
      its letter designates the correct text. */
  lemma {:induction false} BuildFromShuffle(pool: seq<string>, shuffled: seq<string>, correct: string)
    requires multiset(shuffled) == multiset(pool)
    requires correct in pool
    requires |pool| <= 26
    ensures |shuffled| == |pool|
    ensures Build(shuffled, correct).Some?
    ensures Answers(Build(shuffled, correct).value, correct)
    ensures |Build(shuffled, correct).value.options| == |pool|
  {
    assert |shuffled| == |multiset(shuffled)| == |multiset(pool)| == |pool|;
    assert correct in multiset(pool);
    assert correct in shuffled;
  }

  /** When the correct text occurs once in the pool, exactly one option
      carries it, so the answer is unambiguous. */
  lemma {:induction false} BuildUnique(pool: seq<string>, shuffled: seq<string>, correct: string)
    requires multiset(shuffled) == multiset(pool)
    requires multiset(pool)[correct] == 1
    requires |pool| <= 26
    ensures |shuffled| == |pool|
    ensures Build(shuffled, correct).Some?
    ensures forall i :: 0 <= i < |shuffled| && shuffled[i] == correct ==> i == LetterIndex(Build(shuffled, correct).value.answer)
  {
    BuildFromShuffle(pool, shuffled, correct);
    OnlyOccurrence(shuffled, correct, LetterIndex(Build(shuffled, correct).value.answer));
  }

  /** A value that occurs once sits at one position only. */
  lemma {:induction false} OnlyOccurrence<T>(s: seq<T>, x: T, k: nat)
    requires multiset(s)[x] == 1
    requires k < |s| && s[k] == x
    ensures forall i :: 0 <= i < |s| && s[i] == x ==> i == k
  {
    assert s == [s[0]] + s[1..];
    if s[0] == x {
      assert multiset(s[1..])[x] == 0;
      assert x !in s[1..];
      forall i | 0 < i < |s| ensures s[i] != x {
        assert s[i] == s[1..][i - 1];
      }
    } else {
      OnlyOccurrence(s[1..], x, k - 1);
      forall i | 0 <= i < |s| && s[i] == x ensures i == k {
        assert s[1..][i - 1] == x;
      }
    }
  }
}
