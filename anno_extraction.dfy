/** Ingestion: `extract_ranked_actor_info` turns `Screenshot_summary.csv`
    (one row per actor per captured frame, centimetres, Unreal axes) into
    `ranked_unique_actor_anno.csv` (one row per actor, metres, X mirrored),
    the table every question generator reads. */
module AnnoExtraction {
  import opened Common
  import opened Text
  import Sorting
  import Enumerate

  /** Defaults of `--min_frames` and `--min_volume` (cubic metres). */
  const MinFrameCount: nat := 5
  const MinVolume: real := 0.005

  // ---------------------------------------------------------------------
  // `_determine_short_actor_name`
  // ---------------------------------------------------------------------

  /** The segment the short name is built from: the second to last of the
      `_`-separated parts when there are at least two, the whole name
      otherwise. */
  function BaseSegment(name: string): string {
    var parts := Split(name, '_');
    if |parts| >= 2 then parts[|parts| - 2] else name
  }

  /** Number of places where an ASCII lower-case letter is directly
      followed by an upper-case one. */
  function Boundaries(s: string): nat {
    if |s| < 2 then 0
    else (if IsLower(s[0]) && IsUpper(s[1]) then 1 else 0) + Boundaries(s[1..])
  }

  /** `re.sub(r'(?<=[a-z])(?=[A-Z])', ' ', s)`. */
  function SpaceCamel(s: string): string {
    if |s| < 2 then s
    else if IsLower(s[0]) && IsUpper(s[1]) then [s[0], ' '] + SpaceCamel(s[1..])
    else [s[0]] + SpaceCamel(s[1..])
  }

  /** The `ShortActorName` column. */
  function ShortActorName(name: string): string {
    Lower(SpaceCamel(BaseSegment(name)))
  }

  /** `s` with every space removed. */
  function Squeeze(s: string): string {
    if s == [] then [] else (if s[0] == ' ' then [] else [s[0]]) + Squeeze(s[1..])
  }

  lemma {:induction false} SpaceCamelHead(s: string)
    requires s != []
    ensures SpaceCamel(s) != [] && SpaceCamel(s)[0] == s[0]
  {
  }

  /** One space is added per boundary. */
  lemma {:induction false} SpaceCamelLength(s: string)
    ensures |SpaceCamel(s)| == |s| + Boundaries(s)
  {
    if |s| >= 2 {
      SpaceCamelLength(s[1..]);
    }
  }

  /** After spacing no boundary is left: every one got its space. */
  lemma {:induction false} SpaceCamelSeparates(s: string)
    ensures Boundaries(SpaceCamel(s)) == 0
  {
    if |s| >= 2 {
      var rest := SpaceCamel(s[1..]);
      SpaceCamelSeparates(s[1..]);
      SpaceCamelHead(s[1..]);
      if IsLower(s[0]) && IsUpper(s[1]) {
        assert ([s[0], ' '] + rest)[1..] == [' '] + rest;
        assert ([' '] + rest)[1..] == rest;
      } else {
        assert ([s[0]] + rest)[1..] == rest;
      }
    }
  }

  /** Spaces are all that is added: the other characters stay, in order. */
  lemma {:induction false} SpaceCamelKeepsText(s: string)
    ensures Squeeze(SpaceCamel(s)) == Squeeze(s)
  {
    if |s| >= 2 {
      var rest := SpaceCamel(s[1..]);
      SpaceCamelKeepsText(s[1..]);
      if IsLower(s[0]) && IsUpper(s[1]) {
        assert ([s[0], ' '] + rest)[1..] == [' '] + rest;
        assert ([' '] + rest)[1..] == rest;
      } else {
        assert ([s[0]] + rest)[1..] == rest;
      }
    }
  }

  /** Where the base segment sits in the name: without an underscore it is
      the whole name; otherwise it is the part between the last two
      underscores (or the start of the name and the only underscore). */
  lemma BaseSegmentPlace(name: string)
    ensures '_' !in name ==> BaseSegment(name) == name
    ensures '_' in name ==> ('_' !in BaseSegment(name) &&
      exists head, tail :: (name == head + BaseSegment(name) + "_" + tail &&
        '_' !in tail && (head == [] || head[|head| - 1] == '_')))
  {
    var parts := Split(name, '_');
    SplitCount(name, '_');
    if '_' in name {
      var n := |parts|;
      JoinSplit(name, '_');
      JoinLastTwo(parts, "_");
      var head :| Join(parts, "_") == head + parts[n - 2] + "_" + parts[n - 1] &&
        (head == [] || (|head| >= 1 && head[|head| - 1..] == "_"));
      if head != [] {
        assert head[|head| - 1] == head[|head| - 1..][0];
      }
    }
  }

  /** The short name is the base segment, one space per lower-to-upper
      boundary (so a run of capitals such as "TV" stays whole), lower-cased. */
  lemma ShortNameShape(name: string)
    ensures |ShortActorName(name)| == |BaseSegment(name)| + Boundaries(BaseSegment(name))
    ensures Squeeze(ShortActorName(name)) == Lower(Squeeze(BaseSegment(name)))
    ensures forall i :: 0 <= i < |ShortActorName(name)| ==> !IsUpper(ShortActorName(name)[i])
  {
    var base := BaseSegment(name);
    SpaceCamelLength(base);
    SpaceCamelKeepsText(base);
    LowerSqueeze(SpaceCamel(base));
  }

  /** A run of capitals stays whole: "TVStand" is left as it is. */
  lemma CapitalRunKept()
    ensures SpaceCamel("TVStand") == "TVStand"
  {
    assert "nd"[1..] == "d";
    assert SpaceCamel("nd") == "nd";
    assert "and"[1..] == "nd";
    assert SpaceCamel("and") == "and";
    assert "tand"[1..] == "and";
    assert SpaceCamel("tand") == "tand";
    assert "Stand"[1..] == "tand";
    assert SpaceCamel("Stand") == "Stand";
    assert "VStand"[1..] == "Stand";
    assert SpaceCamel("VStand") == "VStand";
    assert "TVStand"[1..] == "VStand";
  }

  /** A lower-case letter before a run of capitals still gets its space:
      "MyTV" becomes "my tv". */
  lemma LowerBeforeCapitalsSpaced()
    ensures Lower(SpaceCamel("MyTV")) == "my tv"
  {
    assert "TV"[1..] == "V";
    assert SpaceCamel("TV") == "TV";
    assert "yTV"[1..] == "TV";
    assert SpaceCamel("yTV") == "y TV";
    assert "MyTV"[1..] == "yTV";
    assert SpaceCamel("MyTV") == "My TV";
    assert Lower("My TV") == "my tv";
  }

  /** Lower-casing leaves spaces where they are. */
  lemma {:induction false} LowerSqueeze(s: string)
    ensures Squeeze(Lower(s)) == Lower(Squeeze(s))
  {
    if s != [] {
      LowerSqueeze(s[1..]);
      assert Lower(s) == [LowerChar(s[0])] + Lower(s[1..]);
      assert (if s[0] == ' ' then [] else [s[0]]) + Squeeze(s[1..]) == Squeeze(s);
      LowerAppend(if s[0] == ' ' then [] else [s[0]], Squeeze(s[1..]));
    }
  }

  // ---------------------------------------------------------------------
  // `extract_ranked_actor_info`
  // ---------------------------------------------------------------------

  /** Camera pose columns. */
  datatype Camera = Camera(x: real, y: real, z: real, pitch: real, yaw: real, roll: real)

  /** One row of `Screenshot_summary.csv`: an actor seen in a frame, its
      world position and size in centimetres, and the camera pose. The
      `ActorDescription` column is read but dropped by the final column
      selection, so it is not carried. */
  datatype Sighting = Sighting(
    frame: int, name: string, actorClass: string,
    x: real, y: real, z: real,
    sizeX: real, sizeY: real, sizeZ: real,
    camera: Camera)

  /** A `groupby(['ActorName', 'ActorClass'])` key. */
  datatype Key = Key(name: string, actorClass: string)

  function KeyOf(s: Sighting): Key {
    Key(s.name, s.actorClass)
  }

  /** The `ActorName`/`ActorClass` key of every row. */
  function KeysOf(rows: seq<Sighting>): seq<Key> {
    Enumerate.Map(KeyOf, rows)
  }

  /** The order `groupby` sorts its keys in: by `ActorName`, then by
      `ActorClass`, each with Python's `<` on strings. */
  predicate KeyLess(a: Key, b: Key) {
    StrLess(a.name, b.name) || (a.name == b.name && StrLess(a.actorClass, b.actorClass))
  }

  /** Every key is below every later one. */
  predicate Ascending(s: seq<Key>) {
    forall i, j :: 0 <= i < j < |s| ==> KeyLess(s[i], s[j])
  }

  lemma KeyLessTransitive(a: Key, b: Key, c: Key)
    requires KeyLess(a, b) && KeyLess(b, c)
    ensures KeyLess(a, c)
  {
    StrLessIrreflexive(a.name);
    StrLessIrreflexive(b.name);
    if StrLess(a.name, b.name) && StrLess(b.name, c.name) {
      StrLessTransitive(a.name, b.name, c.name);
    } else if a.name == b.name == c.name {
      StrLessTransitive(a.actorClass, b.actorClass, c.actorClass);
    }
  }

  lemma KeyLessTotal(a: Key, b: Key)
    requires a != b
    ensures KeyLess(a, b) || KeyLess(b, a)
  {
    if a.name != b.name {
      StrLessTotal(a.name, b.name);
    } else {
      StrLessTotal(a.actorClass, b.actorClass);
    }
  }

  /** Keys that ascend are all different. */
  lemma AscendingDistinct(s: seq<Key>)
    requires Ascending(s)
    ensures Distinct(s)
  {
    forall i, j | 0 <= i < j < |s|
      ensures s[i] != s[j]
    {
      StrLessIrreflexive(s[i].name);
      StrLessIrreflexive(s[i].actorClass);
    }
  }

  /** `k` put into its place among the ascending keys `s`. */
  function InsertKey(k: Key, s: seq<Key>): (r: seq<Key>)
    ensures |r| == |s| + 1
    ensures forall x :: x in r <==> x == k || x in s
  {
    if s == [] then [k]
    else if KeyLess(s[0], k) then [s[0]] + InsertKey(k, s[1..])
    else [k] + s
  }

  lemma {:induction false} InsertKeyAscending(k: Key, s: seq<Key>)
    requires Ascending(s) && k !in s
    ensures Ascending(InsertKey(k, s))
  {
    if s != [] {
      var r := InsertKey(k, s);
      if KeyLess(s[0], k) {
        InsertKeyAscending(k, s[1..]);
        forall j | 0 < j < |r|
          ensures KeyLess(r[0], r[j])
        {
          assert r[j] in InsertKey(k, s[1..]);
          if r[j] != k {
            var m :| 0 <= m < |s[1..]| && s[1..][m] == r[j];
            assert s[m + 1] == r[j];
          }
        }
      } else {
        KeyLessTotal(s[0], k);
        forall j | 0 < j < |r|
          ensures KeyLess(r[0], r[j])
        {
          if j > 1 {
            KeyLessTransitive(k, s[0], s[j - 1]);
          }
        }
      }
    }
  }

  /** Insertion sort of distinct keys into `groupby` order. */
  function SortKeys(s: seq<Key>): (r: seq<Key>)
    ensures |r| == |s|
    ensures forall x :: x in r <==> x in s
  {
    if s == [] then [] else InsertKey(s[0], SortKeys(s[1..]))
  }

  lemma {:induction false} SortKeysAscending(s: seq<Key>)
    requires Distinct(s)
    ensures Ascending(SortKeys(s))
  {
    if s != [] {
      DistinctCons(s[0], s[1..]);
      assert s == [s[0]] + s[1..];
      SortKeysAscending(s[1..]);
      InsertKeyAscending(s[0], SortKeys(s[1..]));
    }
  }

  /** The groups, each once, in `groupby`'s sorted key order. */
  function Groups(rows: seq<Sighting>): (r: seq<Key>)
    ensures Distinct(r)
    ensures forall k :: k in r <==> k in KeysOf(rows)
  {
    var u := Unique(KeysOf(rows));
    SortKeysAscending(u);
    AscendingDistinct(SortKeys(u));
    SortKeys(u)
  }

  /** The groups ascend by `ActorName`, then by `ActorClass`. */
  lemma GroupsAscending(rows: seq<Sighting>)
    ensures forall i, j :: 0 <= i < j < |Groups(rows)| ==> KeyLess(Groups(rows)[i], Groups(rows)[j])
  {
    SortKeysAscending(Unique(KeysOf(rows)));
  }

  /** The frame numbers of the rows of group `k`. */
  function FramesOf(rows: seq<Sighting>, k: Key): (r: seq<int>)
    ensures forall f :: f in r <==> exists i :: 0 <= i < |rows| && KeyOf(rows[i]) == k && rows[i].frame == f
  {
    if rows == [] then []
    else
      var rest := FramesOf(rows[1..], k);
      assert forall i :: 0 <= i < |rows| - 1 ==> rows[1..][i] == rows[i + 1];
      (if KeyOf(rows[0]) == k then [rows[0].frame] else []) + rest
  }

  /** Every group has a frame. */
  lemma GroupHasFrames(rows: seq<Sighting>, k: Key)
    requires k in Groups(rows)
    ensures FramesOf(rows, k) != []
  {
    var i :| 0 <= i < |rows| && KeysOf(rows)[i] == k;
    assert rows[i].frame in FramesOf(rows, k);
  }

  /** `FrameCount`: `nunique()` of the group's frame numbers. */
  function FrameCount(rows: seq<Sighting>, k: Key): nat {
    |Unique(FramesOf(rows, k))|
  }

  /** The smallest number of a non-empty list. */
  function MinOf(s: seq<int>): (m: int)
    requires s != []
    ensures m in s
    ensures forall x :: x in s ==> m <= x
  {
    if |s| == 1 then s[0]
    else
      var rest := MinOf(s[1..]);
      assert forall x :: x in s ==> x == s[0] || x in s[1..];
      if s[0] <= rest then s[0] else rest
  }

  /** `FirstFrame`: the group's smallest frame number. */
  function FirstFrame(rows: seq<Sighting>, k: Key): int
    requires k in Groups(rows)
  {
    GroupHasFrames(rows, k);
    MinOf(FramesOf(rows, k))
  }

  /** `df[(df['ActorName'] == name) & (df['FrameNumber'] == frame)].iloc[0]`:
      the first row with that name (of any class) and frame. */
  function FirstAt(rows: seq<Sighting>, name: string, frame: int): Option<Sighting> {
    if rows == [] then None
    else if rows[0].name == name && rows[0].frame == frame then Some(rows[0])
    else FirstAt(rows[1..], name, frame)
  }

  /** `FirstAt` finds nothing exactly when no row has that name and frame,
      and otherwise the earliest such row. */
  lemma {:induction false} FirstAtSpec(rows: seq<Sighting>, name: string, frame: int)
    ensures FirstAt(rows, name, frame).None? <==> forall i :: 0 <= i < |rows| ==> !(rows[i].name == name && rows[i].frame == frame)
    ensures FirstAt(rows, name, frame).Some? ==> exists i :: (0 <= i < |rows| && rows[i] == FirstAt(rows, name, frame).value &&
      rows[i].name == name && rows[i].frame == frame &&
      forall j :: 0 <= j < i ==> !(rows[j].name == name && rows[j].frame == frame))
  {
    if rows != [] && !(rows[0].name == name && rows[0].frame == frame) {
      FirstAtSpec(rows[1..], name, frame);
      assert forall i :: 0 <= i < |rows| - 1 ==> rows[1..][i] == rows[i + 1];
      if FirstAt(rows, name, frame).Some? {
        var i :| 0 <= i < |rows| - 1 && rows[1..][i] == FirstAt(rows, name, frame).value &&
          rows[1..][i].name == name && rows[1..][i].frame == frame &&
          forall j :: 0 <= j < i ==> !(rows[1..][j].name == name && rows[1..][j].frame == frame);
        assert rows[i + 1] == FirstAt(rows, name, frame).value;
      }
    }
  }

  /** A group's first frame has a row of the group's name, so the look-up
      that fetches the group's position never comes back empty. */
  lemma GroupSighted(rows: seq<Sighting>, k: Key)
    requires k in Groups(rows)
    ensures FirstAt(rows, k.name, FirstFrame(rows, k)).Some?
  {
    var f := FirstFrame(rows, k);
    assert f in FramesOf(rows, k);
    var i :| 0 <= i < |rows| && KeyOf(rows[i]) == k && rows[i].frame == f;
    assert rows[i].name == k.name;
    FirstAtSpec(rows, k.name, f);
  }

  /** One converted row of `actor_info`, with its group's first frame. */
  datatype Info = Info(
    key: Key, firstFrame: int,
    x: real, y: real, z: real,
    sizeX: real, sizeY: real, sizeZ: real,
    volume: real)

  /** Centimetres to metres with `WorldX -> -WorldX`; `Volume` is the
      product of the converted sizes. */
  function Convert(k: Key, firstFrame: int, s: Sighting): Info {
    var sx, sy, sz := s.sizeX / 100.0, s.sizeY / 100.0, s.sizeZ / 100.0;
    Info(k, firstFrame, -(s.x / 100.0), s.y / 100.0, s.z / 100.0, sx, sy, sz, sx * sy * sz)
  }

  /** Scaling back by 100 (and mirroring X again) recovers the source row;
      the volume is the centimetre volume in cubic metres. */
  lemma ConvertRoundTrip(k: Key, firstFrame: int, s: Sighting)
    ensures var i := Convert(k, firstFrame, s);
      -(i.x * 100.0) == s.x && i.y * 100.0 == s.y && i.z * 100.0 == s.z &&
      i.sizeX * 100.0 == s.sizeX && i.sizeY * 100.0 == s.sizeY && i.sizeZ * 100.0 == s.sizeZ &&
      i.volume * 1000000.0 == s.sizeX * s.sizeY * s.sizeZ
  {
    var sx, sy, sz := s.sizeX / 100.0, s.sizeY / 100.0, s.sizeZ / 100.0;
    assert sx * sy * sz * 1000000.0 == (sx * 100.0) * (sy * 100.0) * (sz * 100.0);
  }

  /** The converted row of group `k`: its first-frame row, in metres. */
  function GroupRow(rows: seq<Sighting>, k: Key): Info
    requires k in Groups(rows)
  {
    GroupSighted(rows, k);
    var f := FirstFrame(rows, k);
    Convert(k, f, FirstAt(rows, k.name, f).value)
  }

  /** What the loop over `first_appearance` appends for group `k`. */
  function InfoAt(rows: seq<Sighting>, k: Key): seq<Info>
    requires k in Groups(rows)
  {
    var f := FirstFrame(rows, k);
    match FirstAt(rows, k.name, f)
    case Some(s) => [Convert(k, f, s)]
    case None => []
  }

  /** The rows the loop has appended after visiting `ks`. */
  function Infos(rows: seq<Sighting>, ks: seq<Key>): seq<Info>
    requires forall k :: k in ks ==> k in Groups(rows)
  {
    if ks == [] then []
    else Infos(rows, ks[..|ks| - 1]) + InfoAt(rows, ks[|ks| - 1])
  }

  /** The loop appends a group's own converted row. */
  lemma InfoAtRow(rows: seq<Sighting>, k: Key)
    requires k in Groups(rows)
    ensures InfoAt(rows, k) == [GroupRow(rows, k)]
  {
    GroupSighted(rows, k);
  }

  /** Every visited group yields exactly its own converted row. */
  lemma {:induction false} InfosAligned(rows: seq<Sighting>, ks: seq<Key>)
    requires forall k :: k in ks ==> k in Groups(rows)
    ensures |Infos(rows, ks)| == |ks|
    ensures forall i :: 0 <= i < |ks| ==> Infos(rows, ks)[i] == GroupRow(rows, ks[i])
    decreases |ks|
  {
    if ks != [] {
      var init, k := ks[..|ks| - 1], ks[|ks| - 1];
      InfosAligned(rows, init);
      InfoAtRow(rows, k);
      var prev := Infos(rows, init);
      assert Infos(rows, ks) == prev + [GroupRow(rows, k)];
      forall i | 0 <= i < |ks| ensures Infos(rows, ks)[i] == GroupRow(rows, ks[i]) {
        if i < |init| {
          assert ks[i] == init[i];
        }
      }
    }
  }

  /** Lines 122-143: one converted row per group. */
  method CollectInfo(rows: seq<Sighting>) returns (infos: seq<Info>)
    ensures infos == Infos(rows, Groups(rows))
  {
    var groups := Groups(rows);
    infos := [];
    for n := 0 to |groups|
      invariant infos == Infos(rows, groups[..n])
    {
      var k := groups[n];
      var f := FirstFrame(rows, k);
      var found := FirstAt(rows, k.name, f);
      if found.Some? {
        infos := infos + [Convert(k, f, found.value)];
      }
      assert groups[..n + 1][..n] == groups[..n];
    }
    assert groups[..|groups|] == groups;
  }

  /** `actor_info['Volume'] >= min_volume`. */
  function Bulky(minVolume: real): Info -> bool {
    (i: Info) => i.volume >= minVolume
  }

  /** `frame_counts['FrameCount'] >= min_frame_count`. */
  function Frequent(rows: seq<Sighting>, minFrames: nat): Key -> bool {
    (k: Key) => FrameCount(rows, k) >= minFrames
  }

  /** A kept actor together with one qualified group's frame count. */
  datatype Merged = Merged(info: Info, frameCount: nat)

  /** The rows `pd.merge(..., qualified_actors[['ActorName', 'FrameCount']],
      on='ActorName')` makes from one kept actor: one per qualified group
      of the same name, whatever its class. */
  function Matches(rows: seq<Sighting>, i: Info, qualified: seq<Key>): (r: seq<Merged>)
    ensures forall m :: m in r <==> (m.info == i &&
      exists q :: q in qualified && q.name == i.key.name && m.frameCount == FrameCount(rows, q))
  {
    if qualified == [] then []
    else
      var q := qualified[0];
      var rest := Matches(rows, i, qualified[1..]);
      assert forall x :: x in qualified <==> x == q || x in qualified[1..];
      (if q.name == i.key.name then [Merged(i, FrameCount(rows, q))] else []) + rest
  }

  /** The join over all kept actors, in their order. */
  function JoinOnName(rows: seq<Sighting>, kept: seq<Info>, qualified: seq<Key>): (r: seq<Merged>)
    ensures forall m :: m in r <==> (m.info in kept &&
      exists q :: q in qualified && q.name == m.info.key.name && m.frameCount == FrameCount(rows, q))
  {
    if kept == [] then []
    else
      assert forall x :: x in kept <==> x == kept[0] || x in kept[1..];
      Matches(rows, kept[0], qualified) + JoinOnName(rows, kept[1..], qualified)
  }

  /** The camera columns of a frame: X mirrored and all positions in
      metres, angles unchanged. */
  function ConvertCamera(c: Camera): Camera {
    Camera(-(c.x / 100.0), c.y / 100.0, c.z / 100.0, c.pitch, c.yaw, c.roll)
  }

  /** The `camera_data` key of a merged row. */
  function NameOf(m: Merged): string {
    m.info.key.name
  }

  /** What `camera_data[actor_name]` is set to for a merged row; `None`
      stands for the NaN row used when the camera columns are missing. */
  function CameraFor(rows: seq<Sighting>, hasCamera: bool): Merged -> Option<Camera> {
    (m: Merged) =>
      match FirstAt(rows, m.info.key.name, m.info.firstFrame)
      case Some(s) => if hasCamera then Some(ConvertCamera(s.camera)) else None
      case None => None
  }

  /** `camera_data` after the loop over the merged rows: a later row of the
      same name overwrites an earlier one. */
  function CameraData(rows: seq<Sighting>, ms: seq<Merged>, hasCamera: bool): map<string, Option<Camera>> {
    Fill(ms, NameOf, CameraFor(rows, hasCamera))
  }

  /** Lines 178-200: fills `camera_data` row by row. */
  method FillCameraData(rows: seq<Sighting>, ms: seq<Merged>, hasCamera: bool) returns (data: map<string, Option<Camera>>)
    ensures data == CameraData(rows, ms, hasCamera)
  {
    data := map[];
    for n := 0 to |ms|
      invariant data == Fill(ms[..n], NameOf, CameraFor(rows, hasCamera))
    {
      var m := ms[n];
      var found := FirstAt(rows, m.info.key.name, m.info.firstFrame);
      var camera: Option<Camera> := None;
      if found.Some? && hasCamera {
        camera := Some(ConvertCamera(found.value.camera));
      }
      assert camera == CameraFor(rows, hasCamera)(m);
      data := data[m.info.key.name := camera];
      assert ms[..n + 1][..n] == ms[..n];
    }
    assert ms[..|ms|] == ms;
  }

  /** One output row, its fields in `column_order`. */
  datatype Ranked = Ranked(
    firstFrame: int, frameCount: nat,
    name: string, actorClass: string, shortName: string,
    x: real, y: real, z: real,
    sizeX: real, sizeY: real, sizeZ: real, volume: real,
    camera: Option<Camera>)

  function Finish(m: Merged, camera: Option<Camera>): Ranked {
    var i := m.info;
    Ranked(i.firstFrame, m.frameCount, i.key.name, i.key.actorClass, ShortActorName(i.key.name),
      i.x, i.y, i.z, i.sizeX, i.sizeY, i.sizeZ, i.volume, camera)
  }

  /** Adds the short name and the camera columns to every merged row. */
  function FinishAll(ms: seq<Merged>, data: map<string, Option<Camera>>): (r: seq<Ranked>)
    requires forall m :: m in ms ==> NameOf(m) in data
    ensures |r| == |ms|
    ensures forall i :: 0 <= i < |ms| ==> r[i] == Finish(ms[i], data[NameOf(ms[i])])
  {
    if ms == [] then []
    else [Finish(ms[0], data[NameOf(ms[0])])] + FinishAll(ms[1..], data)
  }

  /** The `sort_values('FirstFrame')` key. */
  function ByFirstFrame(r: Ranked): real {
    r.firstFrame as real
  }

  /** The qualified groups, in group order. */
  function Qualified(rows: seq<Sighting>, minFrames: nat): seq<Key> {
    Filter(Groups(rows), Frequent(rows, minFrames))
  }

  /** The kept converted rows, in group order. */
  function Kept(rows: seq<Sighting>, minVolume: real): seq<Info> {
    Filter(Infos(rows, Groups(rows)), Bulky(minVolume))
  }

  /** The merged rows before the camera columns and the sort. */
  function MergedRows(rows: seq<Sighting>, minFrames: nat, minVolume: real): seq<Merged> {
    JoinOnName(rows, Kept(rows, minVolume), Qualified(rows, minFrames))
  }

  /** Every merged row's name has a `camera_data` entry. */
  lemma CoveredByCameraData(rows: seq<Sighting>, ms: seq<Merged>, hasCamera: bool)
    ensures forall m :: m in ms ==> NameOf(m) in CameraData(rows, ms, hasCamera)
  {
    forall m | m in ms ensures NameOf(m) in CameraData(rows, ms, hasCamera) {
      var i :| 0 <= i < |ms| && ms[i] == m;
      FillLast(ms, NameOf, CameraFor(rows, hasCamera), NameOf(m));
    }
  }

  /** The table before the sort. */
  function Unsorted(rows: seq<Sighting>, minFrames: nat, minVolume: real, hasCamera: bool): seq<Ranked> {
    var ms := MergedRows(rows, minFrames, minVolume);
    CoveredByCameraData(rows, ms, hasCamera);
    FinishAll(ms, CameraData(rows, ms, hasCamera))
  }

  /** The whole table `extract_ranked_actor_info` writes, or `None` where
      pandas raises: with no input rows the empty `actor_info` has no
      `WorldX` column, and with no merged row the empty `apply` for
      `ShortActorName` yields a frame of several columns, which cannot be
      assigned to one column. */
  function Extract(rows: seq<Sighting>, minFrames: nat, minVolume: real, hasCamera: bool): Option<seq<Ranked>> {
    if rows == [] || MergedRows(rows, minFrames, minVolume) == [] then None
    else Some(Sorting.SortBy(Unsorted(rows, minFrames, minVolume, hasCamera), ByFirstFrame))
  }

  /** `extract_ranked_actor_info` with the file reading and writing taken
      out: the rows come in, the table comes out. */
  method ExtractRankedActorInfo(rows: seq<Sighting>, minFrames: nat, minVolume: real, hasCamera: bool)
    returns (table: Option<seq<Ranked>>)
    ensures table == Extract(rows, minFrames, minVolume, hasCamera)
  {
    if rows == [] {
      return None;
    }
    var infos := CollectInfo(rows);
    var kept := Filter(infos, Bulky(minVolume));
    var ms := JoinOnName(rows, kept, Qualified(rows, minFrames));
    if ms == [] {
      return None;
    }
    var data := FillCameraData(rows, ms, hasCamera);
    CoveredByCameraData(rows, ms, hasCamera);
    table := Some(Sorting.SortBy(FinishAll(ms, data), ByFirstFrame));
  }

  // ---------------------------------------------------------------------
  // What the table holds
  // ---------------------------------------------------------------------

  /** The rows appear in nondecreasing first frame, and they are exactly
      the rows before the sort, rearranged. */
  lemma ExtractSorted(rows: seq<Sighting>, minFrames: nat, minVolume: real, hasCamera: bool, t: seq<Ranked>)
    requires Extract(rows, minFrames, minVolume, hasCamera) == Some(t)
    ensures Sorting.SortedBy(t, ByFirstFrame)
    ensures multiset(t) == multiset(Unsorted(rows, minFrames, minVolume, hasCamera))
    ensures |t| == |MergedRows(rows, minFrames, minVolume)| > 0
  {
    var unsorted := Unsorted(rows, minFrames, minVolume, hasCamera);
    Sorting.SortBySorted(unsorted, ByFirstFrame);
    Sorting.SortByPermutes(unsorted, ByFirstFrame);
    assert |t| == |multiset(t)| == |multiset(unsorted)| == |unsorted|;
  }

  /** No table is written exactly when no actor passes both filters; an
      input without rows is one such case. */
  lemma ExtractFails(rows: seq<Sighting>, minFrames: nat, minVolume: real, hasCamera: bool)
    ensures Extract(rows, minFrames, minVolume, hasCamera) == None <==> MergedRows(rows, minFrames, minVolume) == []
  {
  }

  /** An actor seen in a single frame never reaches two frames, so with
      `--min_frames 2` a one-row input writes no table. */
  lemma LoneSightingWritesNothing(s: Sighting, minVolume: real, hasCamera: bool)
    ensures Extract([s], 2, minVolume, hasCamera) == None
  {
    var rows := [s];
    assert Groups(rows) == [KeyOf(s)];
    assert FramesOf(rows, KeyOf(s)) == [s.frame];
    assert FrameCount(rows, KeyOf(s)) == 1;
    assert Qualified(rows, 2) == [];
  }

  /** A converted row belongs to the loop's output exactly when it is the
      row of some group. */
  lemma InfosMember(rows: seq<Sighting>, i: Info)
    ensures i in Infos(rows, Groups(rows)) <==> exists k :: k in Groups(rows) && i == GroupRow(rows, k)
  {
    var groups := Groups(rows);
    InfosAligned(rows, groups);
    if exists k :: k in groups && i == GroupRow(rows, k) {
      var k :| k in groups && i == GroupRow(rows, k);
      var n :| 0 <= n < |groups| && groups[n] == k;
      assert Infos(rows, groups)[n] == i;
    }
  }

  /** Which rows come out of the joins: the converted row of an
      `(ActorName, ActorClass)` group that passes the volume filter, once
      for each group of the same name (of any class) that appears in at
      least `minFrames` distinct frames, with that group's frame count. */
  lemma MergedRowsExactly(rows: seq<Sighting>, minFrames: nat, minVolume: real, m: Merged)
    ensures m in MergedRows(rows, minFrames, minVolume) <==>
      (exists k :: k in Groups(rows) && m.info == GroupRow(rows, k)) && m.info.volume >= minVolume &&
      exists q :: q in Groups(rows) && FrameCount(rows, q) >= minFrames && q.name == m.info.key.name && m.frameCount == FrameCount(rows, q)
  {
    var groups := Groups(rows);
    InfosMember(rows, m.info);
    FilterMember(Infos(rows, groups), Bulky(minVolume), m.info);
    forall q ensures q in Qualified(rows, minFrames) <==> q in groups && FrameCount(rows, q) >= minFrames {
      FilterMember(groups, Frequent(rows, minFrames), q);
    }
  }

  /** Each name has one class: the usual case, where the two joins on the
      name alone behave like joins on the whole key. */
  predicate OneClassPerName(rows: seq<Sighting>) {
    forall i, j :: 0 <= i < |rows| && 0 <= j < |rows| && rows[i].name == rows[j].name ==> rows[i].actorClass == rows[j].actorClass
  }

  /** With one class per name, the groups are told apart by name alone. */
  lemma SameNameSameGroup(rows: seq<Sighting>, k: Key, q: Key)
    requires OneClassPerName(rows)
    requires k in Groups(rows) && q in Groups(rows) && q.name == k.name
    ensures q == k
  {
    var i :| 0 <= i < |rows| && KeysOf(rows)[i] == q;
    var j :| 0 <= j < |rows| && KeysOf(rows)[j] == k;
  }

  /** With one class per name, a group reaches the table exactly when it
      appears in at least `minFrames` distinct frames and its volume is at
      least `minVolume`, and then it carries its own frame count. */
  lemma KeptExactly(rows: seq<Sighting>, minFrames: nat, minVolume: real, k: Key)
    requires OneClassPerName(rows)
    requires k in Groups(rows)
    ensures Merged(GroupRow(rows, k), FrameCount(rows, k)) in MergedRows(rows, minFrames, minVolume) <==>
      FrameCount(rows, k) >= minFrames && GroupRow(rows, k).volume >= minVolume
    ensures forall m :: m in MergedRows(rows, minFrames, minVolume) && m.info.key == k ==>
      m == Merged(GroupRow(rows, k), FrameCount(rows, k))
  {
    var info := GroupRow(rows, k);
    MergedRowsExactly(rows, minFrames, minVolume, Merged(info, FrameCount(rows, k)));
    if Merged(info, FrameCount(rows, k)) in MergedRows(rows, minFrames, minVolume) {
      var q :| q in Groups(rows) && FrameCount(rows, q) >= minFrames && q.name == k.name && FrameCount(rows, k) == FrameCount(rows, q);
      SameNameSameGroup(rows, k, q);
    }
    forall m | m in MergedRows(rows, minFrames, minVolume) && m.info.key == k
      ensures m == Merged(info, FrameCount(rows, k))
    {
      MergedRowsExactly(rows, minFrames, minVolume, m);
      var g :| g in Groups(rows) && m.info == GroupRow(rows, g);
      var q :| q in Groups(rows) && FrameCount(rows, q) >= minFrames && q.name == m.info.key.name && m.frameCount == FrameCount(rows, q);
      SameNameSameGroup(rows, k, q);
    }
  }
}
