/** The room-area generator (`room_size_all.py`): one question on the floor
    area of the room, read from the scene's `result*.json` file or, when
    there is none, estimated from the objects' positions. */
module RoomSize {
  import opened Common
  import opened Text

  /** A parsed JSON value; objects are maps, as `json.load` gives dicts. */
  datatype Json =
    | JNull
    | JBool(b: bool)
    | JNum(n: real)
    | JStr(s: string)
    | JArr(items: seq<Json>)
    | JObj(fields: map<string, Json>)

  /** The file-name test of the directory scan. */
  predicate IsResultFile(name: string) {
    StartsWith(name, "result") && EndsWith(name, ".json")
  }

  /** The first listed name that passes the test. */
  function FirstResultFile(names: seq<string>): Option<string> {
    if names == [] then None
    else if IsResultFile(names[0]) then Some(names[0])
    else FirstResultFile(names[1..])
  }

  /** No name passes when nothing is found; otherwise the found name is
      listed, passes, and every name before it fails. */
  lemma {:induction false} FirstResultFileSpec(names: seq<string>)
    ensures FirstResultFile(names).None? <==> forall n :: n in names ==> !IsResultFile(n)
    ensures FirstResultFile(names).Some? ==> exists i :: (0 <= i < |names| && names[i] == FirstResultFile(names).value &&
      IsResultFile(names[i]) && forall j :: 0 <= j < i ==> !IsResultFile(names[j]))
  {
    if names != [] && !IsResultFile(names[0]) {
      FirstResultFileSpec(names[1..]);
      assert forall n :: n in names ==> n == names[0] || n in names[1..];
      if FirstResultFile(names).Some? {
        var i :| (0 <= i < |names[1..]| && names[1..][i] == FirstResultFile(names).value &&
          IsResultFile(names[1..][i]) && forall j :: 0 <= j < i ==> !IsResultFile(names[1..][j]));
        assert names[i + 1] == names[1..][i];
        forall j | 0 <= j < i + 1 ensures !IsResultFile(names[j]) {
          if j > 0 {
            assert names[j] == names[1..][j - 1];
          }
        }
      }
    }
  }

  /** The loop over `os.listdir` that stops at the first match. */
  method FindResultFile(names: seq<string>) returns (found: Option<string>)
    ensures found == FirstResultFile(names)
  {
    found := None;
    var i := 0;
    while i < |names|
      invariant 0 <= i <= |names|
      invariant FirstResultFile(names) == FirstResultFile(names[i..])
    {
      assert names[i..][1..] == names[i + 1..];
      if IsResultFile(names[i]) {
        found := Some(names[i]);
        break;
      }
      i := i + 1;
    }
  }

  /** `value[key]` when the value is a dict holding the key; every other
      case ends in the "not found or invalid" return or in an exception the
      `try` catches, and both leave no row. */
  function Field(j: Json, key: string): Option<Json> {
    if j.JObj? && key in j.fields then Some(j.fields[key]) else None
  }

  /** The list at `value[key]` when it is a non-empty list. */
  function NonEmptyList(j: Json, key: string): Option<seq<Json>> {
    match Field(j, key)
    case Some(JArr(items)) => if items == [] then None else Some(items)
    case _ => None
  }

  /** The validation chain: `room_status[0].transforms[0].size` must be a
      list of at least three values. */
  function SizeList(doc: Json): Option<seq<Json>> {
    match NonEmptyList(doc, "room_status")
    case None => None
    case Some(status) =>
      match NonEmptyList(status[0], "transforms")
      case None => None
      case Some(transforms) =>
        match NonEmptyList(transforms[0], "size")
        case None => None
        case Some(size) => if |size| < 3 then None else Some(size)
  }

  /** A document holding exactly the path the chain follows. */
  function SizeDocument(size: seq<Json>): Json {
    JObj(map["room_status" := JArr([JObj(map["transforms" := JArr([JObj(map["size" := JArr(size)])])])])])
  }

  /** The chain accepts a list exactly when it has at least three values,
      and whatever it accepts sits at that path in the document. */
  lemma SizeListExactly(doc: Json, size: seq<Json>)
    ensures SizeList(SizeDocument(size)) == (if |size| >= 3 then Some(size) else None)
    ensures SizeList(doc) == Some(size) ==>
      |size| >= 3 &&
      doc.JObj? && "room_status" in doc.fields && doc.fields["room_status"].JArr? &&
      |doc.fields["room_status"].items| > 0 &&
      exists status :: (status == doc.fields["room_status"].items[0] &&
        status.JObj? && "transforms" in status.fields && status.fields["transforms"].JArr? &&
        |status.fields["transforms"].items| > 0 &&
        exists t :: (t == status.fields["transforms"].items[0] &&
          Field(t, "size") == Some(JArr(size))))
  {
  }

  /** Python arithmetic on a JSON value: numbers, and booleans as 1 and 0;
      `None` is the `TypeError` the division raises on anything else. */
  function Number(j: Json): Option<real> {
    match j
    case JNum(n) => Some(n)
    case JBool(b) => Some(if b then 1.0 else 0.0)
    case _ => None
  }

  /** The `Method` column. */
  datatype Origin = FromJsonFile | EstimatedFromPositions

  /** One output row; the question text and the area rounded to two
      decimals are not kept. */
  datatype RoomRecord = RoomRecord(
    possibility: nat, widthCm: real, depthCm: real, widthM: real, depthM: real,
    area: real, origin: Origin)

  /** The JSON branch: width is `size[0]`, depth is `size[2]`, both in
      centimetres. */
  function FromJson(doc: Json): Option<RoomRecord> {
    match SizeList(doc)
    case None => None
    case Some(size) => FromSize(Number(size[0]), Number(size[2]))
  }

  /** The row for a width and a depth read from the size list. */
  function FromSize(width: Option<real>, depth: Option<real>): Option<RoomRecord> {
    if width.Some? && depth.Some? then
      var w, d := width.value, depth.value;
      Some(RoomRecord(1, w, d, w / 100.0, d / 100.0, (w / 100.0) * (d / 100.0), FromJsonFile))
    else None
  }

  /** A row exists exactly when the size list is valid and its first and
      third values are numbers; it keeps them as centimetres, converts them
      to metres, and its area is the metre product, one ten-thousandth of
      the centimetre product. */
  lemma FromJsonSound(doc: Json)
    ensures FromJson(doc).Some? <==>
      SizeList(doc).Some? && Number(SizeList(doc).value[0]).Some? && Number(SizeList(doc).value[2]).Some?
    ensures FromJson(doc).Some? ==>
      var r := FromJson(doc).value;
      var size := SizeList(doc).value;
      r.possibility == 1 && r.origin == FromJsonFile &&
      Some(r.widthCm) == Number(size[0]) && Some(r.depthCm) == Number(size[2]) &&
      r.widthM * 100.0 == r.widthCm && r.depthM * 100.0 == r.depthCm &&
      r.area == r.widthM * r.depthM && r.area * 10000.0 == r.widthCm * r.depthCm
  {
  }

  /** The height `size[1]` plays no part: two documents whose size lists
      agree on the first and third values give the same row. */
  lemma FromJsonIgnoresHeight(d1: Json, d2: Json)
    requires SizeList(d1).Some? && SizeList(d2).Some?
    requires SizeList(d1).value[0] == SizeList(d2).value[0]
    requires SizeList(d1).value[2] == SizeList(d2).value[2]
    ensures FromJson(d1) == FromJson(d2)
  {
    var s1, s2 := SizeList(d1).value, SizeList(d2).value;
    assert FromJson(d1) == FromSize(Number(s1[0]), Number(s1[2]));
    assert FromJson(d2) == FromSize(Number(s2[0]), Number(s2[2]));
  }

  /** A position read from the `WorldX` and `WorldY` columns. */
  datatype Point = Point(x: real, y: real)

  /** `Series.min()` on a non-empty column without missing values. */
  function Least(s: seq<real>): (m: real)
    requires s != []
    ensures m in s && forall v :: v in s ==> m <= v
  {
    if |s| == 1 then s[0]
    else
      var rest := Least(s[1..]);
      assert forall v :: v in s ==> v == s[0] || v in s[1..];
      if s[0] <= rest then s[0] else rest
  }

  /** `Series.max()` on a non-empty column without missing values. */
  function Greatest(s: seq<real>): (m: real)
    requires s != []
    ensures m in s && forall v :: v in s ==> v <= m
  {
    if |s| == 1 then s[0]
    else
      var rest := Greatest(s[1..]);
      assert forall v :: v in s ==> v == s[0] || v in s[1..];
      if s[0] >= rest then s[0] else rest
  }

  function Xs(ps: seq<Point>): (r: seq<real>)
    ensures |r| == |ps| && forall i :: 0 <= i < |ps| ==> r[i] == ps[i].x
  {
    seq(|ps|, i requires 0 <= i < |ps| => ps[i].x)
  }

  function Ys(ps: seq<Point>): (r: seq<real>)
    ensures |r| == |ps| && forall i :: 0 <= i < |ps| ==> r[i] == ps[i].y
  {
    seq(|ps|, i requires 0 <= i < |ps| => ps[i].y)
  }

  /** The margin added to each side of the bounding box, in metres. */
  const Margin: real := 2.0

  /** The smallest width and depth the estimate gives, in metres. */
  const MinSide: real := 5.0

  /** `max(extent + 2.0, 5.0)`. */
  function Side(lo: real, hi: real): real {
    if hi - lo + Margin >= MinSide then hi - lo + Margin else MinSide
  }

  /** The fallback branch on the positions of the ranked actor table. An
      empty table has no minimum; the source then computes with NaN, which
      the model does not represent, and gives no row. */
  function Estimate(ps: seq<Point>): Option<RoomRecord> {
    if ps == [] then None
    else
      var w := Side(Least(Xs(ps)), Greatest(Xs(ps)));
      var d := Side(Least(Ys(ps)), Greatest(Ys(ps)));
      Some(RoomRecord(1, w * 100.0, d * 100.0, w, d, w * d, EstimatedFromPositions))
  }

  /** A side is at least the minimum and at least the extent plus the
      margin, and equals one of the two. */
  lemma SideBounds(lo: real, hi: real)
    ensures Side(lo, hi) >= MinSide && Side(lo, hi) >= hi - lo + Margin
    ensures Side(lo, hi) == MinSide || Side(lo, hi) == hi - lo + Margin
  {
  }

  /** No two values of a column lie further apart than its maximum and
      minimum, and those two are values of the column. */
  lemma Spread(s: seq<real>)
    requires s != []
    ensures forall i, j :: 0 <= i < |s| && 0 <= j < |s| ==> s[j] - s[i] <= Greatest(s) - Least(s)
    ensures exists i, j :: 0 <= i < |s| && 0 <= j < |s| && s[j] - s[i] == Greatest(s) - Least(s)
  {
    assert forall i :: 0 <= i < |s| ==> s[i] in s;
    var i :| 0 <= i < |s| && s[i] == Least(s);
    var j :| 0 <= j < |s| && s[j] == Greatest(s);
  }

  /** The estimate is at least 5 m by 5 m, so at least 25 square metres,
      and its centimetre fields are the metres times 100. */
  lemma EstimateSize(ps: seq<Point>)
    ensures Estimate(ps).Some? <==> ps != []
    ensures Estimate(ps).Some? ==>
      var r := Estimate(ps).value;
      r.possibility == 1 && r.origin == EstimatedFromPositions &&
      r.widthM >= MinSide && r.depthM >= MinSide && r.area == r.widthM * r.depthM && r.area >= 25.0 &&
      r.widthCm == r.widthM * 100.0 && r.depthCm == r.depthM * 100.0
  {
    if ps != [] {
      var r := Estimate(ps).value;
      var w, d := r.widthM, r.depthM;
      SideBounds(Least(Xs(ps)), Greatest(Xs(ps)));
      SideBounds(Least(Ys(ps)), Greatest(Ys(ps)));
      assert w * d >= MinSide * d >= MinSide * MinSide;
    }
  }

  /** The estimate exceeds the distance between any two objects along each
      axis by at least the margin, and equals the largest such distance
      plus the margin unless the minimum side applies. */
  lemma EstimateEncloses(ps: seq<Point>)
    requires ps != []
    ensures var r := Estimate(ps).value;
      (forall i, j :: 0 <= i < |ps| && 0 <= j < |ps| ==> ps[j].x - ps[i].x <= r.widthM - Margin) &&
      (forall i, j :: 0 <= i < |ps| && 0 <= j < |ps| ==> ps[j].y - ps[i].y <= r.depthM - Margin) &&
      (r.widthM == MinSide || exists i, j :: 0 <= i < |ps| && 0 <= j < |ps| && ps[j].x - ps[i].x == r.widthM - Margin) &&
      (r.depthM == MinSide || exists i, j :: 0 <= i < |ps| && 0 <= j < |ps| && ps[j].y - ps[i].y == r.depthM - Margin)
  {
    var xs, ys := Xs(ps), Ys(ps);
    Spread(xs);
    Spread(ys);
    SideBounds(Least(xs), Greatest(xs));
    SideBounds(Least(ys), Greatest(ys));
  }

  /** `main` without the I/O: `names` lists the scene directory (empty when
      it does not exist), `load` parses a listed file (`None` when
      `json.load` fails), and `positions` is the ranked actor table's
      `WorldX`/`WorldY` columns (`None` when the file or the columns are
      missing or the file cannot be read). */
  function RoomSizes(names: seq<string>, load: string -> Option<Json>, positions: Option<seq<Point>>): seq<RoomRecord> {
    var row :=
      match FirstResultFile(names)
      case Some(file) =>
        (match load(file)
         case Some(doc) => FromJson(doc)
         case None => None)
      case None =>
        (match positions
         case Some(ps) => Estimate(ps)
         case None => None);
    match row
    case Some(r) => [r]
    case None => []
  }

  /** At most one row, numbered 1; it comes from the JSON file whenever a
      result file is listed, and from the positions only when none is. */
  lemma RoomSizesAtMostOne(names: seq<string>, load: string -> Option<Json>, positions: Option<seq<Point>>)
    ensures |RoomSizes(names, load, positions)| <= 1
    ensures forall r :: r in RoomSizes(names, load, positions) ==> r.possibility == 1
    ensures forall r :: r in RoomSizes(names, load, positions) ==>
      (r.origin == FromJsonFile <==> exists n :: n in names && IsResultFile(n))
  {
    FirstResultFileSpec(names);
    var f := FirstResultFile(names);
    if f.Some? && load(f.value).Some? {
      FromJsonSound(load(f.value).value);
    }
    if f.None? && positions.Some? {
      EstimateSize(positions.value);
    }
  }

  /** `main`'s control flow: find the file, then take one of the branches. */
  method RoomSizeMain(names: seq<string>, load: string -> Option<Json>, positions: Option<seq<Point>>)
      returns (results: seq<RoomRecord>)
    ensures results == RoomSizes(names, load, positions)
  {
    results := [];
    var file := FindResultFile(names);
    if file.None? {
      if positions.None? || positions.value == [] {
        return;
      }
      var row := Estimate(positions.value);
      results := results + [row.value];
    } else {
      var doc := load(file.value);
      if doc.None? {
        return;
      }
      var row := FromJson(doc.value);
      if row.None? {
        return;
      }
      results := results + [row.value];
    }
  }
}
