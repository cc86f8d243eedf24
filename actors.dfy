/** Rows of `ranked_unique_actor_anno.csv`, the table every question
    generator reads, and the pandas look-ups the generators make on it. */
module Actors {
  import opened Common
  import opened Text
  import opened Geometry
  import Choice

  /** One annotation row. `description` is `None` where pandas reads NaN. */
  datatype Actor = Actor(
    name: string,
    shortName: string,
    description: Option<string>,
    x: real, y: real, z: real,
    sizeX: real, sizeY: real, sizeZ: real,
    firstFrame: int)

  /** The `ActorName` column. */
  function Names(rows: seq<Actor>): (r: seq<string>)
    ensures |r| == |rows|
    ensures forall i :: 0 <= i < |rows| ==> r[i] == rows[i].name
  {
    seq(|rows|, i requires 0 <= i < |rows| => rows[i].name)
  }

  /** `df['ActorName'].unique()`: every name once, in order of first row. */
  function ActorNames(rows: seq<Actor>): (r: seq<string>)
    ensures Distinct(r)
    ensures forall n :: n in r <==> n in Names(rows)
  {
    Unique(Names(rows))
  }

  /** `df[df['ActorName'] == name].iloc[0]`: the first row with that name. */
  function Lookup(rows: seq<Actor>, name: string): (a: Actor)
    requires name in Names(rows)
    ensures a in rows && a.name == name
    ensures exists k :: 0 <= k < |rows| && rows[k] == a && forall j :: 0 <= j < k ==> rows[j].name != name
  {
    var k := Choice.IndexOf(Names(rows), name).value;
    rows[k]
  }

  /** The XY position of a row (`[['WorldX', 'WorldY']]`). */
  function Pos(a: Actor): Vec2 {
    Vec2(a.x, a.y)
  }

  /** The name a question shows: the description when it is present and not
      blank after stripping, the short name otherwise. */
  function Display(a: Actor): (r: string)
    ensures a.description.Some? && Strip(a.description.value) != [] ==> r == a.description.value
    ensures a.description.None? || Strip(a.description.value) == [] ==> r == a.shortName
  {
    match a.description
    case Some(d) => if Strip(d) != [] then d else a.shortName
    case None => a.shortName
  }
}
