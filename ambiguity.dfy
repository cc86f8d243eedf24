/** The room-size dependent ambiguity threshold shared by the relative
    direction and relative distance generators: 0.3 m in rooms larger than
    40 m², 0.15 m otherwise or when the room size is unavailable. */
module Threshold {
  import opened Common

  /** What reading `room_size_all.csv` yields. */
  datatype RoomSizeCsv =
    | Missing                             // FileNotFoundError
    | Unreadable                          // any other exception while reading
    | Parsed(answers: Option<seq<real>>)  // the 'Answer' column, if present

  const Large: real := 0.3
  const Small: real := 0.15
  const LargeRoomArea: real := 40.0

  /** The room area the threshold is decided from, when there is one. */
  function RoomArea(csv: RoomSizeCsv): Option<real> {
    if csv.Parsed? && csv.answers.Some? && |csv.answers.value| > 0 then Some(csv.answers.value[0])
    else None
  }

  /** `get_ambiguity_threshold` of the relative distance generator, which
      falls back to the small threshold on every exception. */
  function DistanceThreshold(csv: RoomSizeCsv): (t: real)
    ensures t == Large <==> RoomArea(csv).Some? && RoomArea(csv).value > LargeRoomArea
    ensures t == Large || t == Small
  {
    match RoomArea(csv)
    case Some(area) => if area > LargeRoomArea then Large else Small
    case None => Small
  }

  /** `get_ambiguity_threshold` of the relative direction generator, which
      catches only a missing file: any other read error escapes (`None`). */
  function DirectionThreshold(csv: RoomSizeCsv): (t: Option<real>)
    ensures t.None? <==> csv.Unreadable?
    ensures t.Some? ==> t.value == DistanceThreshold(csv)
  {
    if csv.Unreadable? then None
    else if csv.Missing? then Some(Small)
    else Some(DistanceThreshold(csv))
  }
}
