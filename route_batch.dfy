/** The route-plan batch step (`batch_process_route_plan.py`): after the
    route-plan generator has written its CSV for a data folder, turn the
    CSV rows into QA pairs and splice them into that folder's dataset JSON,
    replacing any route-plan pairs it already holds. */
module RouteBatch {
  import opened Common

  /** The question type and difficulty every extracted pair carries. */
  const RoutePlanType := "c_route_plan"
  const Hard := "hard"

  /** One row of `route_plan_all.csv`: its `Question` and `Answer` cells. */
  datatype RouteRow = RouteRow(question: string, answer: string)

  /** One entry of a dataset JSON's `qa_pairs` list; a key the entry does
      not have is `None`. */
  datatype QaPair = QaPair(
    question: Option<string>, answer: Option<string>,
    questionType: Option<string>, difficulty: Option<string>)

  /** The pair a CSV row becomes. */
  function PairOf(row: RouteRow): QaPair {
    QaPair(Some(row.question), Some(row.answer), Some(RoutePlanType), Some(Hard))
  }

  /** The pairs for a list of rows, in row order. */
  function PairsOf(rows: seq<RouteRow>): (r: seq<QaPair>)
    ensures |r| == |rows|
  {
    if rows == [] then [] else PairsOf(rows[..|rows| - 1]) + [PairOf(rows[|rows| - 1])]
  }

  /** `extract_route_plan_qa_pairs`: the CSV is `None` when it does not
      exist or cannot be read; a missing or empty CSV gives no pairs. */
  function RoutePlanPairs(csv: Option<seq<RouteRow>>): seq<QaPair> {
    match csv
    case None => []
    case Some(rows) => if rows == [] then [] else PairsOf(rows)
  }

  /** A pair the merge treats as a route-plan pair. */
  predicate IsRoutePlan(qa: QaPair) {
    qa.questionType == Some(RoutePlanType)
  }

  /** Filter predicates over pairs. */
  function RoutePlanOnly(): QaPair -> bool {
    qa => IsRoutePlan(qa)
  }

  function NotRoutePlan(): QaPair -> bool {
    qa => !IsRoutePlan(qa)
  }

  /** Row `i` becomes pair `i`: its question and answer, typed as a route
      plan of hard difficulty. */
  lemma {:induction false} PairsOfAt(rows: seq<RouteRow>)
    ensures forall i :: 0 <= i < |rows| ==> PairsOf(rows)[i] == QaPair(Some(rows[i].question), Some(rows[i].answer), Some(RoutePlanType), Some(Hard))
    decreases |rows|
  {
    if rows != [] {
      var init := rows[..|rows| - 1];
      PairsOfAt(init);
      forall i | 0 <= i < |rows| - 1 ensures PairsOf(rows)[i] == PairsOf(init)[i] && init[i] == rows[i] {
      }
    }
  }

  /** One pair per CSV row, each carrying that row's question and answer
      with type `c_route_plan` and difficulty `hard`; none without a
      readable CSV. */
  lemma RoutePlanPairsShape(csv: Option<seq<RouteRow>>)
    ensures var r := RoutePlanPairs(csv);
      (csv.None? ==> r == []) &&
      (csv.Some? ==> (|r| == |csv.value| &&
        forall i :: 0 <= i < |r| ==> (r[i].question == Some(csv.value[i].question) &&
          r[i].answer == Some(csv.value[i].answer) &&
          r[i].questionType == Some(RoutePlanType) && r[i].difficulty == Some(Hard))))
  {
    if csv.Some? {
      PairsOfAt(csv.value);
    }
  }

  /** The loop over `df.iterrows()`. */
  method ExtractRoutePlanQaPairs(csv: Option<seq<RouteRow>>) returns (pairs: seq<QaPair>)
    ensures pairs == RoutePlanPairs(csv)
  {
    if csv.None? || csv.value == [] {
      return [];
    }
    var rows := csv.value;
    pairs := [];
    for i := 0 to |rows|
      invariant pairs == PairsOf(rows[..i])
    {
      pairs := pairs + [PairOf(rows[i])];
      assert rows[..i + 1][..i] == rows[..i];
    }
    assert rows[..|rows|] == rows;
  }

  /** The pairs of `existing` that are not route-plan pairs, followed by
      the new ones. */
  function Merge(existing: seq<QaPair>, added: seq<QaPair>): seq<QaPair> {
    Filter(existing, NotRoutePlan()) + added
  }

  /** A filter that keeps nothing of `s` gives the empty sequence. */
  lemma FilterNone<T>(s: seq<T>, p: T -> bool)
    requires forall x :: x in s ==> !p(x)
    ensures Filter(s, p) == []
  {
    if Filter(s, p) != [] {
      FilterMember(s, p, Filter(s, p)[0]);
      assert false;
    }
  }

  /** After the merge the route-plan pairs are exactly the new ones, the
      other pairs are exactly the old non-route-plan pairs in their old
      order, and the length adds up. */
  lemma MergeSplits(existing: seq<QaPair>, added: seq<QaPair>)
    requires forall qa :: qa in added ==> IsRoutePlan(qa)
    ensures Filter(Merge(existing, added), RoutePlanOnly()) == added
    ensures Filter(Merge(existing, added), NotRoutePlan()) == Filter(existing, NotRoutePlan())
    ensures |Merge(existing, added)| == |Filter(existing, NotRoutePlan())| + |added|
  {
    var kept := Filter(existing, NotRoutePlan());
    FilterAppend(kept, added, RoutePlanOnly());
    FilterAppend(kept, added, NotRoutePlan());
    forall qa | qa in kept ensures !RoutePlanOnly()(qa) && NotRoutePlan()(qa) {
      FilterMember(existing, NotRoutePlan(), qa);
    }
    FilterNone(kept, RoutePlanOnly());
    FilterAll(kept, NotRoutePlan());
    FilterAll(added, RoutePlanOnly());
    FilterNone(added, NotRoutePlan());
  }

  /** No route-plan pair from before survives: a route-plan pair of the
      result is one of the new pairs. */
  lemma MergeDropsOld(existing: seq<QaPair>, added: seq<QaPair>, qa: QaPair)
    requires qa in Merge(existing, added) && IsRoutePlan(qa)
    ensures qa in added
  {
    FilterMember(existing, NotRoutePlan(), qa);
  }

  /** Splicing the same pairs in twice gives what splicing them in once
      gave: re-running the batch on a folder changes nothing more. */
  lemma MergeIdempotent(existing: seq<QaPair>, added: seq<QaPair>)
    requires forall qa :: qa in added ==> IsRoutePlan(qa)
    ensures Merge(Merge(existing, added), added) == Merge(existing, added)
  {
    MergeSplits(existing, added);
  }

  /** A dataset JSON: its `qa_pairs` value (`None` when the key is absent)
      and its other keys, which the update leaves alone. */
  datatype Doc = Doc(qaPairs: Option<seq<QaPair>>, rest: map<string, string>)

  /** `update_json_with_route_plan`: `doc` is `None` when the JSON does not
      exist or cannot be read, and `writeOk` says whether writing it back
      succeeds. The result is the document written, `None` when the update
      returns `False`. */
  function UpdateJson(doc: Option<Doc>, writeOk: bool, added: seq<QaPair>): (r: Option<Doc>) {
    if doc.None? || !writeOk then None
    else
      var existing := if doc.value.qaPairs.Some? then doc.value.qaPairs.value else [];
      Some(Doc(Some(Merge(existing, added)), doc.value.rest))
  }

  /** The update succeeds exactly when the JSON is readable and writable;
      it then keeps the other keys, and its `qa_pairs` is the old list
      without its route-plan pairs followed by the new pairs. */
  lemma UpdateJsonSound(doc: Option<Doc>, writeOk: bool, added: seq<QaPair>)
    requires forall qa :: qa in added ==> IsRoutePlan(qa)
    ensures var r := UpdateJson(doc, writeOk, added);
      (r.Some? <==> doc.Some? && writeOk) &&
      (r.Some? ==> (r.value.rest == doc.value.rest && r.value.qaPairs.Some? &&
        Filter(r.value.qaPairs.value, RoutePlanOnly()) == added &&
        (doc.value.qaPairs.Some? ==> Filter(r.value.qaPairs.value, NotRoutePlan()) == Filter(doc.value.qaPairs.value, NotRoutePlan())) &&
        (doc.value.qaPairs.None? ==> r.value.qaPairs.value == added)))
  {
    if doc.Some? && writeOk {
      var existing := if doc.value.qaPairs.Some? then doc.value.qaPairs.value else [];
      MergeSplits(existing, added);
      if doc.value.qaPairs.None? {
        assert Filter(existing, NotRoutePlan()) == [];
        assert [] + added == added;
      }
    }
  }

  /** The messages `process_single_folder` appends to `errors`. */
  datatype Problem = ScriptFailed | NoPairsExtracted | JsonUpdateFailed

  function Message(p: Problem): string {
    match p
    case ScriptFailed => "route_plan脚本执行失败"
    case NoPairsExtracted => "未提取到route_plan QA对"
    case JsonUpdateFailed => "JSON文件更新失败"
  }

  /** The `results` dict of one folder, without its elapsed time. */
  datatype FolderResult = FolderResult(
    folder: string, success: bool, routePlanGenerated: bool,
    qaPairsExtracted: nat, jsonUpdated: bool, errors: seq<Problem>)

  /** What one folder's run meets: whether the generator script succeeds,
      the CSV it leaves, the dataset JSON and whether it can be written. */
  datatype FolderInputs = FolderInputs(
    scriptOk: bool, csv: Option<seq<RouteRow>>, doc: Option<Doc>, writeOk: bool)

  /** `process_single_folder`'s result. */
  function FolderOutcome(folder: string, inp: FolderInputs): FolderResult {
    if !inp.scriptOk then FolderResult(folder, false, false, 0, false, [ScriptFailed])
    else
      var pairs := RoutePlanPairs(inp.csv);
      if pairs == [] then FolderResult(folder, true, true, 0, false, [NoPairsExtracted])
      else if UpdateJson(inp.doc, inp.writeOk, pairs).Some? then FolderResult(folder, true, true, |pairs|, true, [])
      else FolderResult(folder, false, true, |pairs|, false, [JsonUpdateFailed])
  }

  /** The JSON `process_single_folder` writes, if any. */
  function FolderWrite(inp: FolderInputs): Option<Doc> {
    if !inp.scriptOk then None
    else
      var pairs := RoutePlanPairs(inp.csv);
      if pairs == [] then None else UpdateJson(inp.doc, inp.writeOk, pairs)
  }

  /** The bookkeeping of one folder, flag by flag as the source sets it. */
  method ProcessSingleFolder(folder: string, inp: FolderInputs) returns (r: FolderResult, written: Option<Doc>)
    ensures r == FolderOutcome(folder, inp) && written == FolderWrite(inp)
  {
    r := FolderResult(folder, true, false, 0, false, []);
    written := None;
    if inp.scriptOk {
      r := r.(routePlanGenerated := true);
    } else {
      r := r.(success := false, errors := r.errors + [ScriptFailed]);
      return;
    }
    var pairs := ExtractRoutePlanQaPairs(inp.csv);
    r := r.(qaPairsExtracted := |pairs|);
    if pairs == [] {
      r := r.(errors := r.errors + [NoPairsExtracted]);
    }
    if pairs != [] {
      written := UpdateJson(inp.doc, inp.writeOk, pairs);
      if written.Some? {
        r := r.(jsonUpdated := true);
      } else {
        r := r.(success := false, errors := r.errors + [JsonUpdateFailed]);
      }
    }
  }

  /** A failed script ends the folder at once: nothing is generated,
      extracted or written, and the one error names the script. */
  lemma ScriptFailureStops(folder: string, inp: FolderInputs)
    requires !inp.scriptOk
    ensures var r := FolderOutcome(folder, inp);
      !r.success && !r.routePlanGenerated && r.qaPairsExtracted == 0 && !r.jsonUpdated &&
      r.errors == [ScriptFailed] && FolderWrite(inp) == None
  {
  }

  /** A folder whose CSV yields no pairs still succeeds, with one error
      and the JSON left unwritten. */
  lemma NoPairsStillSucceeds(folder: string, inp: FolderInputs)
    requires inp.scriptOk && (inp.csv.None? || inp.csv.value == [])
    ensures var r := FolderOutcome(folder, inp);
      r.success && r.routePlanGenerated && r.qaPairsExtracted == 0 && !r.jsonUpdated &&
      r.errors == [NoPairsExtracted] && FolderWrite(inp) == None
  {
  }

  /** A folder succeeds exactly when its script succeeds and either no
      pairs were extracted or the JSON was updated; the JSON was updated
      exactly when there were no errors, and then the written `qa_pairs`
      holds the extracted pairs as its route-plan pairs, one per CSV row. */
  lemma FolderOutcomeSound(folder: string, inp: FolderInputs)
    ensures var r := FolderOutcome(folder, inp);
      r.folder == folder &&
      (r.success <==> inp.scriptOk && (inp.csv.None? || inp.csv.value == [] || (inp.doc.Some? && inp.writeOk))) &&
      (r.jsonUpdated <==> r.errors == []) &&
      (r.jsonUpdated ==> r.success && r.routePlanGenerated) &&
      (r.routePlanGenerated <==> inp.scriptOk) &&
      (inp.scriptOk && inp.csv.Some? ==> r.qaPairsExtracted == |inp.csv.value|) &&
      (FolderWrite(inp).Some? <==> r.jsonUpdated) &&
      (r.jsonUpdated ==> (FolderWrite(inp).value.qaPairs.Some? &&
        Filter(FolderWrite(inp).value.qaPairs.value, RoutePlanOnly()) == RoutePlanPairs(inp.csv)))
  {
    var pairs := RoutePlanPairs(inp.csv);
    RoutePlanPairsShape(inp.csv);
    if inp.scriptOk && pairs != [] {
      forall qa | qa in pairs ensures IsRoutePlan(qa) {
        var i :| 0 <= i < |pairs| && pairs[i] == qa;
      }
      UpdateJsonSound(inp.doc, inp.writeOk, pairs);
    }
  }

  /** `process_all_folders`: one result per folder, in folder order; the
      inputs each folder meets are given by `inputs`. */
  function AllOutcomes(folders: seq<string>, inputs: string -> FolderInputs): (r: seq<FolderResult>)
    ensures |r| == |folders|
  {
    if folders == [] then []
    else
      var n := |folders|;
      AllOutcomes(folders[..n - 1], inputs) + [FolderOutcome(folders[n - 1], inputs(folders[n - 1]))]
  }

  lemma {:induction false} AllOutcomesAt(folders: seq<string>, inputs: string -> FolderInputs)
    ensures forall i :: 0 <= i < |folders| ==> AllOutcomes(folders, inputs)[i] == FolderOutcome(folders[i], inputs(folders[i]))
    decreases |folders|
  {
    if folders != [] {
      var init := folders[..|folders| - 1];
      AllOutcomesAt(init, inputs);
      forall i | 0 <= i < |folders| - 1 ensures AllOutcomes(folders, inputs)[i] == AllOutcomes(init, inputs)[i] && init[i] == folders[i] {
      }
    }
  }

  method ProcessAllFolders(folders: seq<string>, inputs: string -> FolderInputs) returns (results: seq<FolderResult>)
    ensures results == AllOutcomes(folders, inputs)
  {
    results := [];
    for i := 0 to |folders|
      invariant results == AllOutcomes(folders[..i], inputs)
    {
      var r, _ := ProcessSingleFolder(folders[i], inputs(folders[i]));
      results := results + [r];
      assert folders[..i + 1][..i] == folders[..i];
    }
    assert folders[..|folders|] == folders;
  }

  /** The counts `print_summary` reports. */
  datatype Summary = Summary(
    total: nat, successful: nat, generated: nat, extracted: nat, updated: nat)

  function Summarize(results: seq<FolderResult>): Summary {
    if results == [] then Summary(0, 0, 0, 0, 0)
    else
      var s := Summarize(results[1..]);
      var r := results[0];
      Summary(s.total + 1,
        s.successful + (if r.success then 1 else 0),
        s.generated + (if r.routePlanGenerated then 1 else 0),
        s.extracted + r.qaPairsExtracted,
        s.updated + (if r.jsonUpdated then 1 else 0))
  }

  /** A result as `process_single_folder` builds it. */
  predicate Consistent(r: FolderResult) {
    (r.jsonUpdated ==> r.success) && (r.success ==> r.routePlanGenerated)
  }

  /** Over results built by `process_single_folder`, the number of failed
      folders `total - successful` is never negative, and every updated
      JSON belongs to a successful folder whose route plan was generated. */
  lemma {:induction false} SummaryBounds(results: seq<FolderResult>)
    requires forall i :: 0 <= i < |results| ==> Consistent(results[i])
    ensures var s := Summarize(results);
      s.total == |results| && s.updated <= s.successful <= s.generated <= s.total
    decreases |results|
  {
    if results != [] {
      assert Consistent(results[0]);
      SummaryBounds(results[1..]);
    }
  }

  /** Every folder result is consistent, so the summary of a whole run
      obeys those bounds. */
  lemma AllOutcomesSummary(folders: seq<string>, inputs: string -> FolderInputs)
    ensures var s := Summarize(AllOutcomes(folders, inputs));
      s.total == |folders| && s.updated <= s.successful <= s.generated <= s.total
  {
    var rs := AllOutcomes(folders, inputs);
    AllOutcomesAt(folders, inputs);
    forall i | 0 <= i < |rs| ensures Consistent(rs[i]) {
      FolderOutcomeSound(folders[i], inputs(folders[i]));
    }
    SummaryBounds(rs);
  }
}
