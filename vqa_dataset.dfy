/** The simplified VQA dataset builder (`create_simplified_vqa_dataset.py`):
    turns each data folder's question tables into one list of
    question-answer pairs with statistics, and sums the statistics of all
    folders into a summary. */
module VqaDataset {
  import opened Common
  import opened Text

  // ---------------------------------------------------------------------
  // Options cells
  // ---------------------------------------------------------------------

  /** A value handed to `_parse_options`: `None` or NaN, a Python list (its
      items as `str` shows them), or anything else as `str` shows it. */
  datatype RawOptions = NoValue | ListValue(items: seq<string>) | TextValue(text: string)

  /** `ast.literal_eval(s)`, an opaque parser: the items of the list it
      yields (as `str` shows them), or `None` when it raises or yields
      something other than a list. */
  type Literal = string -> Option<seq<string>>

  /** `[p.strip() for p in xs if p.strip()]`: the non-blank parts,
      stripped, in order. */
  function StrippedParts(xs: seq<string>): (r: seq<string>)
    ensures |r| <= |xs|
    ensures forall i :: 0 <= i < |r| ==> r[i] != [] && !IsSpace(r[i][0]) && !IsSpace(r[i][|r[i]| - 1])
  {
    if xs == [] then []
    else (if Strip(xs[0]) != [] then [Strip(xs[0])] else []) + StrippedParts(xs[1..])
  }

  /** A part is kept exactly when it is the stripped form of a non-blank
      input. */
  lemma {:induction false} StrippedPartsMembers(xs: seq<string>)
    ensures forall x :: x in StrippedParts(xs) <==> x != [] && exists o :: o in xs && Strip(o) == x
  {
    if xs != [] {
      StrippedPartsMembers(xs[1..]);
      assert forall o :: o in xs <==> o == xs[0] || o in xs[1..];
    }
  }

  /** A character that no input holds is in no part. */
  lemma StrippedPartsAvoid(xs: seq<string>, c: char)
    requires forall o :: o in xs ==> c !in o
    ensures forall i :: 0 <= i < |StrippedParts(xs)| ==> c !in StrippedParts(xs)[i]
  {
    StrippedPartsMembers(xs);
    forall i | 0 <= i < |StrippedParts(xs)| ensures c !in StrippedParts(xs)[i] {
      var x := StrippedParts(xs)[i];
      assert x in StrippedParts(xs);
      var o :| o in xs && Strip(o) == x;
    }
  }

  /** The split fallback on one separator: the stripped non-blank pieces,
      or `None` when there are none. */
  function SplitOptions(s: string, sep: char): Option<seq<string>> {
    var parts := StrippedParts(Split(s, sep));
    if parts == [] then None else Some(parts)
  }

  /** The pieces are stripped, non-blank and free of the separator, at most
      one more than there are separators; `None` comes only from a text
      whose every piece is blank. */
  lemma SplitOptionsSpec(s: string, sep: char)
    ensures SplitOptions(s, sep).None? <==> forall p :: p in Split(s, sep) ==> Strip(p) == []
    ensures SplitOptions(s, sep).Some? ==>
      var r := SplitOptions(s, sep).value;
      |r| <= Count(s, sep) + 1 &&
      forall i :: 0 <= i < |r| ==> sep !in r[i] && r[i] != [] && !IsSpace(r[i][0]) && !IsSpace(r[i][|r[i]| - 1])
  {
    var pieces := Split(s, sep);
    StrippedPartsMembers(pieces);
    StrippedPartsAvoid(pieces, sep);
    SplitCount(s, sep);
    if forall p :: p in pieces ==> Strip(p) == [] {
      if StrippedParts(pieces) != [] {
        assert StrippedParts(pieces)[0] in StrippedParts(pieces);
      }
    } else {
      var p :| p in pieces && Strip(p) != [];
      assert Strip(p) in StrippedParts(pieces);
    }
  }

  /** The separator fallbacks after `literal_eval` gave no list: `;` first,
      then `,` but only for a text with at least two full stops. */
  function Fallback(s: string): Option<seq<string>> {
    if ';' in s then SplitOptions(s, ';')
    else if ',' in s && Count(s, '.') >= 2 then SplitOptions(s, ',')
    else None
  }

  /** `_parse_options`. */
  function ParseOptions(raw: RawOptions, literal: Literal): (r: Option<seq<string>>)
    ensures r.None? || r.value != []
  {
    match raw
    case NoValue => None
    case ListValue(items) => if items == [] then None else Some(items)
    case TextValue(t) =>
      var s := Strip(t);
      if s == [] then None
      else if literal(s).Some? && literal(s).value != [] then literal(s)
      else Fallback(s)
  }

  /** When the stripped text does not parse to a non-empty list: with a `;`
      the options are the `;`-pieces, stripped and non-blank; without one
      the `,`-pieces, and only when the text has a `,` and at least two
      full stops; otherwise there are none. A parsed non-empty list wins. */
  lemma ParseTextCases(t: string, literal: Literal)
    ensures Strip(t) == [] ==> ParseOptions(TextValue(t), literal).None?
    ensures Strip(t) != [] && literal(Strip(t)).Some? && literal(Strip(t)).value != [] ==>
      ParseOptions(TextValue(t), literal) == literal(Strip(t))
    ensures (Strip(t) != [] && (literal(Strip(t)).None? || literal(Strip(t)).value == []) &&
      ParseOptions(TextValue(t), literal).Some?) ==>
      var s, r := Strip(t), ParseOptions(TextValue(t), literal).value;
      (';' in s ==> forall i :: 0 <= i < |r| ==> ';' !in r[i] && r[i] != [] && !IsSpace(r[i][0]) && !IsSpace(r[i][|r[i]| - 1])) &&
      (';' !in s ==> (',' in s && Count(s, '.') >= 2 &&
        forall i :: 0 <= i < |r| ==> ',' !in r[i] && r[i] != [] && !IsSpace(r[i][0]) && !IsSpace(r[i][|r[i]| - 1])))
  {
    var s := Strip(t);
    SplitOptionsSpec(s, ';');
    SplitOptionsSpec(s, ',');
  }

  /** `_merge_options_into_question`. */
  function MergeOptions(question: string, options: seq<string>): string {
    var opts := StrippedParts(options);
    if opts == [] then question else question + " " + Join(opts, " ")
  }

  /** The question comes back unchanged exactly when every option is
      blank. */
  lemma MergeUnchanged(question: string, options: seq<string>)
    ensures MergeOptions(question, options) == question <==> forall o :: o in options ==> Strip(o) == []
  {
    if exists o :: o in options && Strip(o) != [] {
      var o :| o in options && Strip(o) != [];
      StrippedPartsHas(options, o);
    } else {
      StrippedPartsBlank(options);
    }
  }

  /** Blank inputs leave no part. */
  lemma {:induction false} StrippedPartsBlank(xs: seq<string>)
    requires forall o :: o in xs ==> Strip(o) == []
    ensures StrippedParts(xs) == []
  {
    if xs != [] {
      assert forall o :: o in xs[1..] ==> o in xs;
      StrippedPartsBlank(xs[1..]);
    }
  }

  /** An occurrence stays one, shifted, after a prefix. */
  lemma OccursAfter(head: string, s: string, x: string, i: int)
    requires OccursAt(s, x, i)
    ensures OccursAt(head + s, x, |head| + i)
  {
    assert (head + s)[|head| + i..|head| + i + |x|] == s[i..i + |x|];
  }

  /** A non-blank input's stripped form is one of the parts. */
  lemma {:induction false} StrippedPartsHas(xs: seq<string>, o: string)
    requires o in xs && Strip(o) != []
    ensures Strip(o) in StrippedParts(xs)
  {
    if xs[0] != o {
      assert o in xs[1..];
      StrippedPartsHas(xs[1..], o);
    }
  }

  /** With a non-blank option the question is followed by a space, and
      every non-blank option, stripped, occurs after that space. */
  lemma MergeAppends(question: string, options: seq<string>, o: string)
    requires o in options && Strip(o) != []
    ensures StartsWith(MergeOptions(question, options), question + " ")
    ensures exists i :: i > |question| && OccursAt(MergeOptions(question, options), Strip(o), i)
  {
    var opts := StrippedParts(options);
    StrippedPartsHas(options, o);
    var head := question + " ";
    assert MergeOptions(question, options) == head + Join(opts, " ");
    assert (head + Join(opts, " "))[..|head|] == head;
    var k :| 0 <= k < |opts| && opts[k] == Strip(o);
    JoinContains(opts, " ", k);
    var i :| OccursAt(Join(opts, " "), opts[k], i);
    OccursAfter(head, Join(opts, " "), opts[k], i);
  }

  // ---------------------------------------------------------------------
  // Question-answer pairs
  // ---------------------------------------------------------------------

  /** A table row: column name to cell text; a column without a key is an
      empty (NaN) cell. */
  type Row = map<string, string>

  /** A table read from a CSV file: its column names and its rows. */
  datatype Table = Table(columns: set<string>, rows: seq<Row>)

  /** One entry of `qa_pairs`. `question` and `answer` are `None` where the
      source copies a NaN cell; `difficulty` is `None` where the dict has no
      `difficulty` key. Cell values are kept as their text. */
  datatype QaPair = QaPair(
    videoId: string, videoPath: string, question: Option<string>, answer: Option<string>,
    questionType: string, difficulty: Option<string>)

  function VideoPath(folder: string): string {
    "output_video/" + folder + ".mp4"
  }

  /** `pd.notna(row.get(col))` guards: the cell, when it holds a value. */
  function Lookup(row: Row, col: string): Option<string> {
    if col in row then Some(row[col]) else None
  }

  /** `row.get(col, default)`: the default when the table has no such
      column, NaN (`None`) when the cell is empty. */
  function CellOr(t: Table, row: Row, col: string, default: string): Option<string> {
    if col !in t.columns then Some(default) else Lookup(row, col)
  }

  /** How an f-string shows a question: NaN shows as `nan`. */
  function Shown(q: Option<string>): string {
    match q
    case Some(s) => s
    case None => "nan"
  }

  /** The options step shared by every branch: when the options cell holds
      a value that parses to options, merge them into the question. */
  function WithOptions(p: QaPair, raw: Option<string>, literal: Literal): QaPair {
    match raw
    case None => p
    case Some(text) =>
      match ParseOptions(TextValue(text), literal)
      case None => p
      case Some(opts) =>
        if StrippedParts(opts) == [] then p else p.(question := Some(MergeOptions(Shown(p.question), opts)))
  }

  /** Merging options touches the question only. */
  lemma WithOptionsKeeps(p: QaPair, raw: Option<string>, literal: Literal)
    ensures WithOptions(p, raw, literal) == p.(question := WithOptions(p, raw, literal).question)
    ensures raw.None? ==> WithOptions(p, raw, literal) == p
    ensures p.question.Some? ==> WithOptions(p, raw, literal).question.Some?
  {
  }

  /** The three difficulty levels of a relative-direction row. */
  datatype Level = Hard | Medium | Easy

  function LevelName(l: Level): string {
    match l
    case Hard => "hard"
    case Medium => "medium"
    case Easy => "easy"
  }

  /** The column-name suffix of a level. */
  function Suffix(l: Level): string {
    match l
    case Hard => "Hard"
    case Medium => "Medium"
    case Easy => "Easy"
  }

  /** Position of a difficulty in the order the rows are emitted. */
  function DifficultyRank(d: Option<string>): nat {
    if d == Some("hard") then 0 else if d == Some("medium") then 1 else 2
  }

  /** Both the question and the answer cell of the level hold a value. */
  predicate Present(row: Row, l: Level) {
    ("Question" + Suffix(l)) in row && ("Answer" + Suffix(l)) in row
  }

  /** The pair of one level of a row. */
  function LevelPair(folder: string, row: Row, l: Level, literal: Literal): (r: QaPair)
    requires Present(row, l)
    ensures r.videoId == folder && r.videoPath == VideoPath(folder) && r.questionType == "c_relative_direction"
    ensures r.difficulty == Some(LevelName(l)) && r.answer == Some(row["Answer" + Suffix(l)]) && r.question.Some?
  {
    var p := QaPair(folder, VideoPath(folder), Some(row["Question" + Suffix(l)]), Some(row["Answer" + Suffix(l)]),
      "c_relative_direction", Some(LevelName(l)));
    WithOptions(p, Lookup(row, "Options" + Suffix(l)), literal)
  }

  function LevelPairs(folder: string, row: Row, l: Level, literal: Literal): seq<QaPair> {
    if Present(row, l) then [LevelPair(folder, row, l, literal)] else []
  }

  /** One row of `_process_relative_direction`. */
  function DirectionPairs(folder: string, row: Row, literal: Literal): seq<QaPair> {
    LevelPairs(folder, row, Hard, literal) + LevelPairs(folder, row, Medium, literal) + LevelPairs(folder, row, Easy, literal)
  }

  lemma LevelNamesDistinct()
    ensures forall l, m :: LevelName(l) == LevelName(m) ==> l == m
  {
    assert LevelName(Hard)[0] == 'h' && LevelName(Medium)[0] == 'm' && LevelName(Easy)[0] == 'e';
  }

  /** At most three pairs, in the order hard, medium, easy, all of the
      row's folder and of type `c_relative_direction`. */
  lemma DirectionPairsOrder(folder: string, row: Row, literal: Literal)
    ensures var r := DirectionPairs(folder, row, literal);
      |r| <= 3 &&
      (forall i, j :: 0 <= i < j < |r| ==> DifficultyRank(r[i].difficulty) < DifficultyRank(r[j].difficulty)) &&
      (forall i :: 0 <= i < |r| ==> r[i].videoId == folder && r[i].questionType == "c_relative_direction" && r[i].question.Some?)
  {
  }

  /** A level's pair is there exactly when both its question and its
      answer are, and it carries that answer. */
  lemma DirectionPairsPresent(folder: string, row: Row, literal: Literal, l: Level)
    ensures var r := DirectionPairs(folder, row, literal);
      (exists i :: 0 <= i < |r| && r[i].difficulty == Some(LevelName(l))) <==> Present(row, l)
    ensures var r := DirectionPairs(folder, row, literal);
      forall i :: (0 <= i < |r| && r[i].difficulty == Some(LevelName(l))) ==> r[i].answer == Some(row["Answer" + Suffix(l)])
  {
    LevelNamesDistinct();
    var r := DirectionPairs(folder, row, literal);
    if Present(row, l) {
      var p := LevelPair(folder, row, l, literal);
      assert p in LevelPairs(folder, row, l, literal);
      assert p in r;
    }
  }

  /** The loop body of `_process_relative_direction`, as a step of the
      list it builds. */
  function DirectionStep(folder: string, literal: Literal): (nat, Row) -> seq<QaPair> {
    (n: nat, row: Row) => DirectionPairs(folder, row, literal)
  }

  /** The three `if` blocks of `_process_relative_direction` for one row. */
  method AppendDirectionPairs(qaPairs: seq<QaPair>, folder: string, row: Row, literal: Literal)
      returns (out: seq<QaPair>)
    ensures out == qaPairs + DirectionPairs(folder, row, literal)
  {
    out := qaPairs;
    if Present(row, Hard) {
      out := out + [LevelPair(folder, row, Hard, literal)];
    }
    if Present(row, Medium) {
      out := out + [LevelPair(folder, row, Medium, literal)];
    }
    if Present(row, Easy) {
      out := out + [LevelPair(folder, row, Easy, literal)];
    }
  }

  /** `_process_relative_direction`. */
  method ProcessRelativeDirection(folder: string, rows: seq<Row>, literal: Literal) returns (qaPairs: seq<QaPair>)
    ensures qaPairs == Scan(DirectionStep(folder, literal), rows)
  {
    qaPairs := [];
    for n := 0 to |rows|
      invariant qaPairs == Scan(DirectionStep(folder, literal), rows[..n])
    {
      qaPairs := AppendDirectionPairs(qaPairs, folder, rows[n], literal);
      assert rows[..n + 1][..n] == rows[..n];
    }
    assert rows[..|rows|] == rows;
  }

  /** The difficulty `process_csv_to_qa_pairs` attaches to a plain table's
      pairs: only the two categories with a difficulty get one. */
  function Difficulty(category: string): Option<string> {
    if category == "c_relative_direction" || category == "c_route_plan" then Some("hard") else None
  }

  /** The options cell of a plain table, when the table has the column. */
  function OptionsCell(t: Table, row: Row): Option<string> {
    if "Options" in t.columns then Lookup(row, "Options") else None
  }

  /** The pair of one row of a plain table. */
  function PlainPair(folder: string, category: string, t: Table, row: Row, literal: Literal): QaPair {
    var p := QaPair(folder, VideoPath(folder), CellOr(t, row, "Question", ""), CellOr(t, row, "Answer", ""),
      category, Difficulty(category));
    WithOptions(p, OptionsCell(t, row), literal)
  }

  function PlainStep(folder: string, category: string, t: Table, literal: Literal): (nat, Row) -> seq<QaPair> {
    (n: nat, row: Row) => [PlainPair(folder, category, t, row, literal)]
  }

  /** One row of `_process_appearance_order`: a pair only when the question
      and the answer are not NaN. */
  function AppearancePairs(folder: string, t: Table, row: Row, literal: Literal): seq<QaPair> {
    var q, a := CellOr(t, row, "Question", ""), CellOr(t, row, "Answer", "");
    if q.Some? && a.Some? then
      [WithOptions(QaPair(folder, VideoPath(folder), q, a, "s_appearance_order", None), OptionsCell(t, row), literal)]
    else []
  }

  function AppearanceStep(folder: string, t: Table, literal: Literal): (nat, Row) -> seq<QaPair> {
    (n: nat, row: Row) => AppearancePairs(folder, t, row, literal)
  }

  /** `process_csv_to_qa_pairs`; `None` is a file that is missing or cannot
      be read. */
  function CsvPairs(table: Option<Table>, folder: string, category: string, literal: Literal): seq<QaPair> {
    match table
    case None => []
    case Some(t) =>
      if category == "c_relative_direction" then Scan(DirectionStep(folder, literal), t.rows)
      else if category == "s_appearance_order" then Scan(AppearanceStep(folder, t, literal), t.rows)
      else Scan(PlainStep(folder, category, t, literal), t.rows)
  }

  /** `process_csv_to_qa_pairs` with its loops. */
  method ProcessCsvToQaPairs(table: Option<Table>, folder: string, category: string, literal: Literal)
      returns (qaPairs: seq<QaPair>)
    ensures qaPairs == CsvPairs(table, folder, category, literal)
  {
    if table.None? {
      return [];
    }
    var t := table.value;
    if category == "c_relative_direction" {
      qaPairs := ProcessRelativeDirection(folder, t.rows, literal);
    } else if category == "s_appearance_order" {
      qaPairs := [];
      for n := 0 to |t.rows|
        invariant qaPairs == Scan(AppearanceStep(folder, t, literal), t.rows[..n])
      {
        qaPairs := qaPairs + AppearancePairs(folder, t, t.rows[n], literal);
        assert t.rows[..n + 1][..n] == t.rows[..n];
      }
      assert t.rows[..|t.rows|] == t.rows;
    } else {
      qaPairs := [];
      for n := 0 to |t.rows|
        invariant qaPairs == Scan(PlainStep(folder, category, t, literal), t.rows[..n])
      {
        qaPairs := qaPairs + [PlainPair(folder, category, t, t.rows[n], literal)];
        assert t.rows[..n + 1][..n] == t.rows[..n];
      }
      assert t.rows[..|t.rows|] == t.rows;
    }
  }

  /** What every pair of a folder satisfies: it names the folder and its
      video; it carries a difficulty exactly when it is a
      `c_relative_direction` or `c_route_plan` pair, and the difficulty is
      one of the three levels. */
  predicate Tagged(folder: string, p: QaPair) {
    p.videoId == folder && p.videoPath == VideoPath(folder) &&
    (p.difficulty.Some? <==> p.questionType == "c_relative_direction" || p.questionType == "c_route_plan") &&
    (p.difficulty.Some? ==> p.difficulty.value == "hard" || p.difficulty.value == "medium" || p.difficulty.value == "easy")
  }

  function TaggedBy(folder: string): QaPair -> bool {
    (p: QaPair) => Tagged(folder, p)
  }

  /** Every pair of a table is tagged; a relative-direction table gives at
      most three pairs per row and a plain table exactly one. */
  lemma CsvPairsTagged(table: Option<Table>, folder: string, category: string, literal: Literal)
    ensures forall p :: p in CsvPairs(table, folder, category, literal) ==> Tagged(folder, p)
    ensures table.Some? && category == "c_relative_direction" ==>
      |CsvPairs(table, folder, category, literal)| <= 3 * |table.value.rows|
    ensures table.Some? && category != "c_relative_direction" ==>
      |CsvPairs(table, folder, category, literal)| <= |table.value.rows|
  {
    if table.Some? {
      var t := table.value;
      if category == "c_relative_direction" {
        var step := DirectionStep(folder, literal);
        forall e: nat, row, p | row in t.rows && p in step(e, row) ensures TaggedBy(folder)(p) {
          DirectionPairsOrder(folder, row, literal);
        }
        ScanAll(step, TaggedBy(folder), t.rows);
        forall e: nat, row | row in t.rows ensures |step(e, row)| <= 3 {
          DirectionPairsOrder(folder, row, literal);
        }
        ScanLength(step, t.rows, 3);
      } else if category == "s_appearance_order" {
        var step := AppearanceStep(folder, t, literal);
        ScanAll(step, TaggedBy(folder), t.rows);
        ScanLength(step, t.rows, 1);
      } else {
        var step := PlainStep(folder, category, t, literal);
        ScanAll(step, TaggedBy(folder), t.rows);
        ScanLength(step, t.rows, 1);
      }
    }
  }

  // ---------------------------------------------------------------------
  // One folder's dataset
  // ---------------------------------------------------------------------

  /** `csv_to_category`, in its order; the base table has no category and
      gives no questions. */
  const CsvToCategory: seq<(string, Option<string>)> := [
    ("ranked_unique_actor_anno.csv", None),
    ("absolute_distances_all.csv", Some("m_absolute_distance")),
    ("object_size_all.csv", Some("m_object_size")),
    ("room_size_all.csv", Some("m_room_size")),
    ("object_count_all.csv", Some("c_object_count")),
    ("relative_direction_all.csv", Some("c_relative_direction")),
    ("relative_distance_all.csv", Some("c_relative_distance")),
    ("route_plan_all.csv", Some("c_route_plan")),
    ("appearance_order_all.csv", Some("s_appearance_order"))
  ]

  /** The tables of a folder, by file name; `None` for a file that is
      missing or cannot be read. */
  type Tables = string -> Option<Table>

  function FileStep(folder: string, tables: Tables, literal: Literal): (nat, (string, Option<string>)) -> seq<QaPair> {
    (n: nat, entry: (string, Option<string>)) =>
      match entry.1
      case None => []
      case Some(category) => CsvPairs(tables(entry.0), folder, category, literal)
  }

  /** The pairs of every table of a folder, in the order of the mapping. */
  function FolderPairs(folder: string, tables: Tables, literal: Literal): seq<QaPair> {
    Scan(FileStep(folder, tables, literal), CsvToCategory)
  }

  /** The `statistics` dict. */
  datatype Statistics = Statistics(totalQaPairs: nat, byDifficulty: Counter, byCategory: Counter)

  /** The difficulties of the pairs that carry one, in order. */
  function Difficulties(ps: seq<QaPair>): (r: seq<string>)
    ensures |r| <= |ps|
  {
    if ps == [] then []
    else
      var last := ps[|ps| - 1];
      Difficulties(ps[..|ps| - 1]) + (if last.difficulty.Some? then [last.difficulty.value] else [])
  }

  /** The question types of the pairs, in order. */
  function Types(ps: seq<QaPair>): (r: seq<string>)
    ensures |r| == |ps|
  {
    if ps == [] then [] else Types(ps[..|ps| - 1]) + [ps[|ps| - 1].questionType]
  }

  /** The statistics of a list of pairs: the two counting loops of
      `generate_vqa_dataset`. */
  function StatisticsOf(ps: seq<QaPair>): Statistics {
    Statistics(|ps|, Tally(Difficulties(ps)), Tally(Types(ps)))
  }

  /** `by_category` counts every pair under its type and so adds up to
      `total_qa_pairs`; `by_difficulty` counts every pair that carries a
      difficulty under it. */
  lemma StatisticsSound(ps: seq<QaPair>)
    ensures var st := StatisticsOf(ps);
      st.totalQaPairs == |ps| && Total(st.byCategory) == st.totalQaPairs &&
      (forall c :: Get(st.byCategory, c) == Count(Types(ps), c)) &&
      Total(st.byDifficulty) == |Difficulties(ps)| &&
      (forall d :: Get(st.byDifficulty, d) == Count(Difficulties(ps), d)) &&
      (forall d :: d in Keys(st.byDifficulty) <==> d in Difficulties(ps))
  {
    TallyFacts(Difficulties(ps));
    TallyFacts(Types(ps));
  }

  /** The two loops that count into `by_difficulty` and `by_category`. */
  method ComputeStatistics(ps: seq<QaPair>) returns (st: Statistics)
    ensures st == StatisticsOf(ps)
  {
    var byDifficulty := CountDifficulties(ps);
    var byCategory := CountTypes(ps);
    st := Statistics(|ps|, byDifficulty, byCategory);
  }

  /** The loop counting the pairs that have a difficulty, by difficulty. */
  method CountDifficulties(ps: seq<QaPair>) returns (byDifficulty: Counter)
    ensures byDifficulty == Tally(Difficulties(ps))
  {
    byDifficulty := [];
    for n := 0 to |ps|
      invariant byDifficulty == Tally(Difficulties(ps[..n]))
    {
      assert ps[..n + 1][..n] == ps[..n];
      if ps[n].difficulty.Some? {
        TallySnoc(Difficulties(ps[..n]), ps[n].difficulty.value);
        assert Difficulties(ps[..n + 1]) == Difficulties(ps[..n]) + [ps[n].difficulty.value];
        byDifficulty := AddTo(byDifficulty, ps[n].difficulty.value, 1);
      } else {
        assert Difficulties(ps[..n + 1]) == Difficulties(ps[..n]);
      }
    }
    assert ps[..|ps|] == ps;
  }

  /** The loop counting the pairs by question type. */
  method CountTypes(ps: seq<QaPair>) returns (byCategory: Counter)
    ensures byCategory == Tally(Types(ps))
  {
    byCategory := [];
    for n := 0 to |ps|
      invariant byCategory == Tally(Types(ps[..n]))
    {
      assert ps[..n + 1][..n] == ps[..n];
      byCategory := AddTo(byCategory, ps[n].questionType, 1);
    }
    assert ps[..|ps|] == ps;
  }

  /** The dict `generate_vqa_dataset` returns for a folder. */
  datatype Dataset = Dataset(videoId: string, videoPath: string, qaPairs: seq<QaPair>, statistics: Statistics)

  function DatasetOf(folder: string, tables: Tables, literal: Literal): Dataset {
    var ps := FolderPairs(folder, tables, literal);
    Dataset(folder, VideoPath(folder), ps, StatisticsOf(ps))
  }

  /** `generate_vqa_dataset` for a folder that exists. */
  method GenerateVqaDataset(folder: string, tables: Tables, literal: Literal) returns (d: Dataset)
    ensures d == DatasetOf(folder, tables, literal)
  {
    var all: seq<QaPair> := [];
    for n := 0 to |CsvToCategory|
      invariant all == Scan(FileStep(folder, tables, literal), CsvToCategory[..n])
    {
      assert CsvToCategory[..n + 1][..n] == CsvToCategory[..n];
      var (csvFile, category) := CsvToCategory[n];
      if category.Some? {
        var qaPairs := ProcessCsvToQaPairs(tables(csvFile), folder, category.value, literal);
        all := all + qaPairs;
      }
    }
    assert CsvToCategory[..|CsvToCategory|] == CsvToCategory;
    var st := ComputeStatistics(all);
    d := Dataset(folder, VideoPath(folder), all, st);
  }

  /** Tagged pairs carry a difficulty exactly when they are of one of the
      two tagged types. */
  lemma {:induction false} DifficultiesOfTagged(folder: string, ps: seq<QaPair>)
    requires forall p :: p in ps ==> Tagged(folder, p)
    ensures |Difficulties(ps)| == Count(Types(ps), "c_relative_direction") + Count(Types(ps), "c_route_plan")
    ensures forall d :: d in Difficulties(ps) ==> d == "hard" || d == "medium" || d == "easy"
    decreases |ps|
  {
    if ps != [] {
      var init, last := ps[..|ps| - 1], ps[|ps| - 1];
      assert forall p :: p in init ==> p in ps;
      assert last in ps;
      DifficultiesOfTagged(folder, init);
      CountAppend(Types(init), [last.questionType], "c_relative_direction");
      CountAppend(Types(init), [last.questionType], "c_route_plan");
    }
  }

  /** Every pair of a folder is tagged with the folder. */
  lemma DatasetTagged(folder: string, tables: Tables, literal: Literal)
    ensures forall p :: p in DatasetOf(folder, tables, literal).qaPairs ==> Tagged(folder, p)
  {
    var step := FileStep(folder, tables, literal);
    forall e: nat, entry, p | entry in CsvToCategory && p in step(e, entry) ensures TaggedBy(folder)(p) {
      CsvPairsTagged(tables(entry.0), folder, entry.1.value, literal);
    }
    ScanAll(step, TaggedBy(folder), CsvToCategory);
  }

  /** The statistics of tagged pairs: the difficulty counts use only the
      three levels and add up to the number of `c_relative_direction` and
      `c_route_plan` pairs. */
  lemma TaggedStatistics(folder: string, ps: seq<QaPair>)
    requires forall p :: p in ps ==> Tagged(folder, p)
    ensures var st := StatisticsOf(ps);
      (forall k :: k in Keys(st.byDifficulty) ==> k == "hard" || k == "medium" || k == "easy") &&
      Total(st.byDifficulty) == Get(st.byCategory, "c_relative_direction") + Get(st.byCategory, "c_route_plan")
  {
    DifficultiesOfTagged(folder, ps);
    TallyKeys(Difficulties(ps));
    TallyTotal(Difficulties(ps));
    TallyGet(Types(ps), "c_relative_direction");
    TallyGet(Types(ps), "c_route_plan");
  }

  lemma TallyKeys(d: seq<string>)
    ensures forall k :: k in Keys(Tally(d)) ==> k in d
  {
    TallyFacts(d);
  }

  lemma TallyTotal(d: seq<string>)
    ensures Total(Tally(d)) == |d|
  {
    TallyFacts(d);
  }

  lemma TallyGet(d: seq<string>, k: string)
    ensures Get(Tally(d), k) == Count(d, k)
  {
    TallyFacts(d);
  }

  /** So it is for every folder's dataset. */
  lemma DatasetDifficulties(folder: string, tables: Tables, literal: Literal)
    ensures var st := DatasetOf(folder, tables, literal).statistics;
      (forall k :: k in Keys(st.byDifficulty) ==> k == "hard" || k == "medium" || k == "easy") &&
      Total(st.byDifficulty) == Get(st.byCategory, "c_relative_direction") + Get(st.byCategory, "c_route_plan")
  {
    DatasetTagged(folder, tables, literal);
    TaggedStatistics(folder, DatasetOf(folder, tables, literal).qaPairs);
  }

  // ---------------------------------------------------------------------
  // The summary over all folders
  // ---------------------------------------------------------------------

  /** One entry of the summary's `folders` list. */
  datatype FolderSummary = FolderSummary(folderName: string, qaPairsCount: nat, byDifficulty: Counter, byCategory: Counter)

  /** The summary file's content. */
  datatype Summary = Summary(totalFolders: nat, folders: seq<FolderSummary>, overall: Statistics)

  /** The accumulation of `overall_statistics` over the folders; each
      folder comes with the statistics read back from its JSON file, or
      `None` when it has none. */
  function Overall(ds: seq<(string, Option<Statistics>)>): (o: Statistics)
    ensures WellFormed(o.byDifficulty) && WellFormed(o.byCategory)
  {
    if ds == [] then Statistics(0, [], [])
    else
      var o := Overall(ds[..|ds| - 1]);
      match ds[|ds| - 1].1
      case None => o
      case Some(st) =>
        Statistics(o.totalQaPairs + st.totalQaPairs, AddAll(o.byDifficulty, st.byDifficulty), AddAll(o.byCategory, st.byCategory))
  }

  /** The summary's `folders` list. */
  function Folders(ds: seq<(string, Option<Statistics>)>): seq<FolderSummary> {
    if ds == [] then []
    else
      var (name, st) := ds[|ds| - 1];
      Folders(ds[..|ds| - 1]) +
        (if st.Some? then [FolderSummary(name, st.value.totalQaPairs, st.value.byDifficulty, st.value.byCategory)] else [])
  }

  /** `generate_summary`: nothing when there are no folders. */
  function SummaryOf(ds: seq<(string, Option<Statistics>)>): Option<Summary> {
    if ds == [] then None else Some(Summary(|ds|, Folders(ds), Overall(ds)))
  }

  /** One number per folder that has statistics, in order. */
  function Column(ds: seq<(string, Option<Statistics>)>, f: Statistics -> nat): seq<nat> {
    if ds == [] then []
    else
      var st := ds[|ds| - 1].1;
      Column(ds[..|ds| - 1], f) + (if st.Some? then [f(st.value)] else [])
  }

  function TotalOf(st: Statistics): nat {
    st.totalQaPairs
  }

  function CategoryCount(k: string): Statistics -> nat {
    (st: Statistics) => Get(st.byCategory, k)
  }

  function DifficultyCount(k: string): Statistics -> nat {
    (st: Statistics) => Get(st.byDifficulty, k)
  }

  /** The overall total is the sum of the folder totals. */
  lemma {:induction false} OverallTotal(ds: seq<(string, Option<Statistics>)>)
    ensures Overall(ds).totalQaPairs == Sum(Column(ds, TotalOf))
    decreases |ds|
  {
    if ds != [] {
      var init := ds[..|ds| - 1];
      OverallTotal(init);
      if ds[|ds| - 1].1.Some? {
        var st := ds[|ds| - 1].1.value;
        assert Column(ds, TotalOf) == Column(init, TotalOf) + [st.totalQaPairs];
        SumAppend(Column(init, TotalOf), [st.totalQaPairs]);
      } else {
        assert Column(ds, TotalOf) == Column(init, TotalOf);
      }
    }
  }

  /** For folder counters with distinct keys, each overall `by_category`
      count is the sum of that key's folder counts. */
  lemma {:induction false} OverallCategories(ds: seq<(string, Option<Statistics>)>, k: string)
    requires forall i :: 0 <= i < |ds| && ds[i].1.Some? ==> WellFormed(ds[i].1.value.byCategory)
    ensures Get(Overall(ds).byCategory, k) == Sum(Column(ds, CategoryCount(k)))
    decreases |ds|
  {
    if ds != [] {
      var init := ds[..|ds| - 1];
      OverallCategories(init, k);
      if ds[|ds| - 1].1.Some? {
        var st := ds[|ds| - 1].1.value;
        AddAllGet(Overall(init).byCategory, st.byCategory, k);
        assert Column(ds, CategoryCount(k)) == Column(init, CategoryCount(k)) + [Get(st.byCategory, k)];
        SumAppend(Column(init, CategoryCount(k)), [Get(st.byCategory, k)]);
      } else {
        assert Column(ds, CategoryCount(k)) == Column(init, CategoryCount(k));
      }
    }
  }

  /** The same for `by_difficulty`. */
  lemma {:induction false} OverallDifficulties(ds: seq<(string, Option<Statistics>)>, k: string)
    requires forall i :: 0 <= i < |ds| && ds[i].1.Some? ==> WellFormed(ds[i].1.value.byDifficulty)
    ensures Get(Overall(ds).byDifficulty, k) == Sum(Column(ds, DifficultyCount(k)))
    decreases |ds|
  {
    if ds != [] {
      var init := ds[..|ds| - 1];
      OverallDifficulties(init, k);
      if ds[|ds| - 1].1.Some? {
        var st := ds[|ds| - 1].1.value;
        AddAllGet(Overall(init).byDifficulty, st.byDifficulty, k);
        assert Column(ds, DifficultyCount(k)) == Column(init, DifficultyCount(k)) + [Get(st.byDifficulty, k)];
        SumAppend(Column(init, DifficultyCount(k)), [Get(st.byDifficulty, k)]);
      } else {
        assert Column(ds, DifficultyCount(k)) == Column(init, DifficultyCount(k));
      }
    }
  }

  /** When every folder's `by_category` adds up to its total, so does the
      overall one. */
  lemma {:induction false} OverallConsistent(ds: seq<(string, Option<Statistics>)>)
    requires forall i :: 0 <= i < |ds| && ds[i].1.Some? ==> Total(ds[i].1.value.byCategory) == ds[i].1.value.totalQaPairs
    ensures Total(Overall(ds).byCategory) == Overall(ds).totalQaPairs
    decreases |ds|
  {
    if ds != [] {
      OverallConsistent(ds[..|ds| - 1]);
    }
  }

  /** `d[k] = d.get(k, 0) + count` for every item of a folder's counter. */
  method AddCounts(c: Counter, d: Counter) returns (r: Counter)
    requires WellFormed(c)
    ensures r == AddAll(c, d)
  {
    r := c;
    for n := 0 to |d|
      invariant WellFormed(r) && AddAll(r, d[n..]) == AddAll(c, d)
    {
      assert d[n..][1..] == d[n + 1..];
      r := AddTo(r, d[n].key, d[n].count);
    }
  }

  /** `generate_summary`'s loop over the folders. */
  method GenerateSummary(ds: seq<(string, Option<Statistics>)>) returns (summary: Option<Summary>)
    ensures summary == SummaryOf(ds)
  {
    if ds == [] {
      return None;
    }
    var folders: seq<FolderSummary> := [];
    var overall := Statistics(0, [], []);
    for n := 0 to |ds|
      invariant folders == Folders(ds[..n]) && overall == Overall(ds[..n])
    {
      ghost var next := ds[..n + 1];
      assert next[..|next| - 1] == ds[..n] && next[|next| - 1] == ds[n];
      var (name, st) := ds[n];
      if st.Some? {
        var s := st.value;
        folders := folders + [FolderSummary(name, s.totalQaPairs, s.byDifficulty, s.byCategory)];
        var byDifficulty := AddCounts(overall.byDifficulty, s.byDifficulty);
        var byCategory := AddCounts(overall.byCategory, s.byCategory);
        overall := Statistics(overall.totalQaPairs + s.totalQaPairs, byDifficulty, byCategory);
      }
      assert folders == Folders(next) && overall == Overall(next);
    }
    assert ds[..|ds|] == ds;
    summary := Some(Summary(|ds|, folders, overall));
  }
}
