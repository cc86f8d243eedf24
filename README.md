# Spatial question synthesis, in Dafny

This project models the question generators of a synthetic-scene
visual-question-answering pipeline. The pipeline takes a table of 3D scene
objects ("actors": name, short name, description, position, size, first
frame seen) and a table of pairwise distances. From them it produces
multiple-choice questions about:

- relative direction (which quadrant, side or sector an actor lies in, seen
  from a standing actor facing another);
- relative distance (which of four object types is nearest to a primary);
- route plans (which turns lead from one actor to another);
- appearance order (in which order four actors first appear);
- longest dimension, object counts and room area.

Around the generators it models the annotation cleanup that builds the actor
table, the dataset builder that merges every table into one JSON dataset
with statistics, the quiz sampler, the batch step that re-inserts route-plan
questions, and the natural sort key that orders video frames.

Each source file is one module: `anno_extraction.dfy`,
`relative_direction.dfy`, `relative_distance.dfy`, `route_plan.dfy`,
`appearance_order.dfy`, `object_size.dfy`, `object_count.dfy`,
`room_size.dfy`, `vqa_dataset.dfy`, `quiz_sampler.dfy`, `route_batch.dfy`
and `frame_extraction.dfy`. Shared pieces live in their own modules:

- `Common`: options, counters as insertion-ordered association lists, and
  left-to-right scans;
- `Text`: `lower` on ASCII letters, `strip` on Python's white space,
  `split`, `join`, and `<` on strings;
- `Actors`: the actor table and its unique names;
- `Pairs`: distance rows;
- `Geometry`: 2D vectors and real-number facts;
- `Threshold`: the ambiguity threshold;
- `Choice`: the `"A. text"` option builder and its answer letter;
- `Enumerate`: `itertools.permutations` and `combinations`;
- `Sorting`: a stable sort by key.

Loops that build lists or update counters are methods with loop invariants,
each proved equal to a specification function. The properties the source
promises are proved as lemmas about those functions. Randomness
(`random.shuffle`, `random.sample`, `random.choice`, a seeded `rng`) enters
as an oracle parameter: a function from a draw number and a list to a
rearrangement of the list, or to a choice from it. Every property holds for
every such oracle. Floating-point geometry is modelled on exact reals. Where
the source divides by a vector norm, the normalising factor is a parameter
constrained to be one over the norm. The label rules are proved equal to
sign tests on the unnormalised vectors.

Where the code's behaviour departs from what its comments or docstrings
describe, the model follows the code:

- In `process_single_route` the turn-recording lines follow the `break`, so
  no route question is ever produced.
- In relative direction, a standing actor and a facing actor at the same
  XY position give NaN local coordinates. The triple is not skipped: NaN
  fails every comparison, so it gets the labels back-right / right / right
  and is never ambiguous.
- In `get_ambiguity_threshold` of the relative-direction generator, only a
  missing file falls back to the default. Any other read error escapes.

## Model

| member | source | states |
|---|---|---|
| Actors.ActorNames | m_object_size_tool/object_size_all.py:68 | the unique names: each ActorName of the table exactly once |
| Actors.Lookup | m_object_size_tool/object_size_all.py:78 | the row found for a name carries that name and is the first row that does |
| Actors.Display | m_object_size_tool/object_size_all.py:81-82 | the display name is the description when it is present and not blank after stripping, the short name otherwise |
| Threshold.DistanceThreshold | c_relative_distance_tool/relative_distance_all.py:66-87 | the threshold is 0.3 exactly when the room size file has a first Answer above 40, and 0.15 in every other case, read errors included |
| Threshold.DirectionThreshold | c_relative_direction_tool/relative_direction_all.py:116-134 | only a missing file falls back to 0.15; any other read error escapes (no threshold); otherwise it agrees with the distance generator's rule |
| Choice.Sample | c_relative_distance_tool/relative_distance_all.py:182 | a sample of k draws k of the values; a sample of all of them rearranges them |
| Choice.LetterRoundTrip | c_relative_distance_tool/relative_distance_all.py:185-190 | chr(65 + i) is an upper-case letter that reads back as option index i |
| Choice.FormatRoundTrip | c_relative_distance_tool/relative_distance_all.py:185 | a formatted option starts with its letter and reads back as its text after the "X. " prefix |
| Choice.FormatAll | c_relative_distance_tool/relative_distance_all.py:185 | option i starts with the i-th letter and carries the i-th text |
| Choice.TextsOfFormatAll | c_relative_distance_tool/relative_distance_all.py:185 | formatting the options loses no text: stripping the prefixes gives back the list |
| Choice.IndexOf | c_relative_distance_tool/relative_distance_all.py:190 | list.index: no position exactly when the value is absent, which is where Python raises; otherwise the first position holding it |
| Choice.Build | c_relative_distance_tool/relative_distance_all.py:185-193 | a question is built exactly when the correct text is among the shuffled options; its options are the formatted shuffle and its letter designates the correct text |
| Choice.BuildFromShuffle | c_relative_distance_tool/relative_distance_all.py:182-190 | when the options rearrange a pool that holds the correct text, the question is always built, has one option per pool entry, and its letter designates the correct text |
| Choice.BuildUnique | c_relative_distance_tool/relative_distance_all.py:182-190 | when the correct text occurs once in the pool, the answer letter is the only option carrying it |
| Common.Unique | m_object_size_tool/object_size_all.py:68 | `unique()` lists each value of the column once, and exactly the values of the column |
| Common.TallyFacts | c_object_count_tool/object_count_all.py:63 | the counter's counts add up to the number of values, each key's count is its number of occurrences, and the keys are exactly the values present |
| Sorting.SortByPermutes | 0_data_cleanup_tool/anno_extraction.py:207 | sorting reorders the rows without adding or dropping any |
| Sorting.SortBySorted | 0_data_cleanup_tool/anno_extraction.py:207 | the sorted rows are in ascending key order |
| Sorting.SortByStable | 0_data_cleanup_tool/anno_extraction.py:207 | rows with equal keys keep their input order |
| Sorting.SortBySortedIsIdentity | 0_data_cleanup_tool/anno_extraction.py:207 | rows already in key order are left as they are |
| Enumerate.Permutations3 | c_route_plan_tool/route_plan_all.py:206 | `itertools.permutations(_, 3)` yields every ordered triple of distinct positions, each once, in lexicographic order |
| Enumerate.Combinations | s_appearance_order_tool/appearance_order_all.py:64 | `combinations(_, 4)` yields only strictly increasing position lists of the given length within range |
| Enumerate.CombinationsComplete | s_appearance_order_tool/appearance_order_all.py:64 | every strictly increasing position list of that length is yielded |
| Enumerate.PermutationsSound | s_appearance_order_tool/appearance_order_all.py:95 | each permutation is a rearrangement of the names |
| Enumerate.PermutationsComplete | s_appearance_order_tool/appearance_order_all.py:95 | every rearrangement of the names is among the permutations |
| Text.Lower | sample_quiz_from_output_json.py:61 | `lower()` on ASCII letters: each ASCII capital becomes its small letter and every other character is kept |
| Text.Strip | create_simplified_vqa_dataset.py:39 | `strip()` removes exactly the leading and trailing white space, as `str.isspace` defines it (the ASCII controls, NEL, NBSP and the Unicode spaces and separators), leaving a contiguous slice that neither starts nor ends with white space |
| Text.StrLessTransitive | 0_data_cleanup_tool/anno_extraction.py:111 | Python's `<` on strings, which orders the `groupby` keys, is transitive |
| Text.StrLessTotal | 0_data_cleanup_tool/anno_extraction.py:111 | two different strings are ordered one way or the other |
| Text.Split | create_simplified_vqa_dataset.py:51 | `split(sep)` yields at least one part, none containing the separator |
| Text.JoinSplit | create_simplified_vqa_dataset.py:51 | joining the parts with the separator gives back the string |
| Text.SplitCount | create_simplified_vqa_dataset.py:51 | there is one more part than separators |
| AnnoExtraction.SpaceCamelHead | 0_data_cleanup_tool/anno_extraction.py:84 | the spaced name starts with the name's first character (no space is inserted at the start) |
| AnnoExtraction.SpaceCamelLength | 0_data_cleanup_tool/anno_extraction.py:84 | the substitution adds exactly one character per lower-case-then-upper-case boundary |
| AnnoExtraction.SpaceCamelSeparates | 0_data_cleanup_tool/anno_extraction.py:84 | after the substitution no lower-case letter is directly followed by an upper-case one |
| AnnoExtraction.SpaceCamelKeepsText | 0_data_cleanup_tool/anno_extraction.py:84 | apart from the inserted spaces, the text is unchanged and in the same order |
| AnnoExtraction.BaseSegmentPlace | 0_data_cleanup_tool/anno_extraction.py:72-80 | without an underscore the base is the whole name; otherwise the base is the underscore-free part that sits just before the last underscore |
| AnnoExtraction.ShortNameShape | 0_data_cleanup_tool/anno_extraction.py:65-89 | the short name is the base segment lower-cased, with one space per boundary, and it holds no upper-case letter |
| AnnoExtraction.CapitalRunKept | 0_data_cleanup_tool/anno_extraction.py:82-84 | a run of capitals is not split: "TVStand" is left as it is |
| AnnoExtraction.LowerBeforeCapitalsSpaced | 0_data_cleanup_tool/anno_extraction.py:82-87 | a lower-case letter before capitals does get a space: "MyTV" becomes "my tv", whatever the comment at line 83 says |
| AnnoExtraction.LowerSqueeze | 0_data_cleanup_tool/anno_extraction.py:87 | lower-casing neither adds nor moves spaces |
| AnnoExtraction.Groups | 0_data_cleanup_tool/anno_extraction.py:111 | the groupby keys: each (ActorName, ActorClass) pair present in the input appears exactly once |
| AnnoExtraction.GroupsAscending | 0_data_cleanup_tool/anno_extraction.py:111 | the groups come in `groupby`'s sorted order: ascending by ActorName, then by ActorClass |
| AnnoExtraction.FramesOf | 0_data_cleanup_tool/anno_extraction.py:111 | the frame numbers of a group are exactly the frames of the rows with that key |
| AnnoExtraction.GroupHasFrames | 0_data_cleanup_tool/anno_extraction.py:111-118 | every group has at least one frame, so its minimum exists |
| AnnoExtraction.MinOf | 0_data_cleanup_tool/anno_extraction.py:118 | the first frame is a frame of the group and no frame of the group is smaller |
| AnnoExtraction.FirstAtSpec | 0_data_cleanup_tool/anno_extraction.py:129-132 | the lookup finds nothing exactly when no row has that name and frame; otherwise it returns the first such row |
| AnnoExtraction.GroupSighted | 0_data_cleanup_tool/anno_extraction.py:129-131 | for every group the first-frame lookup is non-empty, so the loop appends a row for it |
| AnnoExtraction.ConvertRoundTrip | 0_data_cleanup_tool/anno_extraction.py:147-158 | scaling back by 100 (and mirroring X again) recovers the input position and sizes; the volume is the cubic-centimetre product divided by 10^6 |
| AnnoExtraction.InfoAtRow | 0_data_cleanup_tool/anno_extraction.py:123-143 | each group's loop turn appends exactly its own converted first-frame row |
| AnnoExtraction.InfosAligned | 0_data_cleanup_tool/anno_extraction.py:123-143 | after the loop, row i is the converted row of group i |
| AnnoExtraction.CollectInfo | 0_data_cleanup_tool/anno_extraction.py:122-143 | the loop builds the converted rows of all groups, in group order |
| AnnoExtraction.InfosMember | 0_data_cleanup_tool/anno_extraction.py:122-145 | a row is in actor_info exactly when it is the converted first-frame row of some group |
| AnnoExtraction.Matches | 0_data_cleanup_tool/anno_extraction.py:166 | the merge on ActorName pairs a row with every qualified group of the same name, taking that group's frame count |
| AnnoExtraction.JoinOnName | 0_data_cleanup_tool/anno_extraction.py:164-166 | a merged row is exactly a kept row paired with a qualified group of the same name and its frame count |
| AnnoExtraction.MergedRowsExactly | 0_data_cleanup_tool/anno_extraction.py:111-166 | a merged row comes from some group's converted row with volume at least the minimum, paired with a group of the same name seen in at least the minimum number of frames, and every such pairing is present |
| AnnoExtraction.SameNameSameGroup | 0_data_cleanup_tool/anno_extraction.py:111 | when each name has one class, two groups with the same name are the same group |
| AnnoExtraction.KeptExactly | 0_data_cleanup_tool/anno_extraction.py:111-166 | with one class per name, an actor reaches the table exactly when its frame count is at least the minimum and its volume is at least the minimum, and then it appears once with its own frame count |
| AnnoExtraction.FillCameraData | 0_data_cleanup_tool/anno_extraction.py:178-200 | the loop sets the camera entry of each name, with later rows overriding earlier ones |
| AnnoExtraction.CoveredByCameraData | 0_data_cleanup_tool/anno_extraction.py:203-204 | every merged row's name has a camera entry, so the per-column lookup cannot fail |
| AnnoExtraction.FinishAll | 0_data_cleanup_tool/anno_extraction.py:170-204 | one output row per merged row, each with its short name and its name's camera columns |
| AnnoExtraction.ExtractRankedActorInfo | 0_data_cleanup_tool/anno_extraction.py:92-213 | the whole pipeline: no table when there are no input rows (no `WorldX` column, line 149) or when no actor passes both filters (the empty `apply` cannot be assigned, lines 170-172), otherwise the merged rows sorted by first frame |
| AnnoExtraction.ExtractSorted | 0_data_cleanup_tool/anno_extraction.py:207 | a written table is non-empty, has one row per merged row, is in non-decreasing FirstFrame order and is a permutation of the rows before the sort |
| AnnoExtraction.ExtractFails | 0_data_cleanup_tool/anno_extraction.py:145-172 | no table is written exactly when no actor passes both filters, which includes an input without rows |
| AnnoExtraction.LoneSightingWritesNothing | 0_data_cleanup_tool/anno_extraction.py:115-172 | a single sighting with `--min_frames 2` leaves no qualified actor, so no table is written |
| AppearanceOrder.ItemsOf | s_appearance_order_tool/appearance_order_all.py:67-76 | one item per actor of the combination, in combination order, each from the actor's first table row |
| AppearanceOrder.Frames | s_appearance_order_tool/appearance_order_all.py:126-129 | the ActorN_FirstFrame columns: the first frame of each combination actor's first row, in combination order |
| AppearanceOrder.ComboNames | s_appearance_order_tool/appearance_order_all.py:64 | a combination of positions names the unique actor names at those positions, in order |
| AppearanceOrder.CorrectIsByFirstFrame | s_appearance_order_tool/appearance_order_all.py:78-91 | the correct sequence is the display names of the items rearranged into non-decreasing first frame, with ties kept in combination order (a stable sort) |
| AppearanceOrder.ReshuffleDiffers | s_appearance_order_tool/appearance_order_all.py:82-84 | when the reshuffle loop ends, the presented order differs from the sorted order and rearranges it |
| AppearanceOrder.PresentOrder | s_appearance_order_tool/appearance_order_all.py:82-84 | the while loop produces the reshuffled order, or nothing when the bounded number of shuffles runs out |
| AppearanceOrder.PresentedRearranges | s_appearance_order_tool/appearance_order_all.py:82-87 | the presented names rearrange the correct names |
| AppearanceOrder.IncorrectMember | s_appearance_order_tool/appearance_order_all.py:103 | an incorrect option is exactly a permutation of the presented names other than the correct one |
| AppearanceOrder.OptionTuplesFacts | s_appearance_order_tool/appearance_order_all.py:106-111 | the option list holds the correct sequence exactly once and min(3, number of incorrect options) incorrect ones, each from the incorrect list |
| AppearanceOrder.EnoughIncorrect | s_appearance_order_tool/appearance_order_all.py:103-106 | for four distinct names there are at least three incorrect permutations, so three are always sampled |
| AppearanceOrder.AskSound | s_appearance_order_tool/appearance_order_all.py:95-117 | for presented names that rearrange the correct ones a question is always built; its letter designates the correct sequence, it has 1 + min(3, incorrect) options (four for distinct names), and every option is a permutation of the presented names |
| AppearanceOrder.Joined | s_appearance_order_tool/appearance_order_all.py:114 | each option text is its names joined by ", " |
| AppearanceOrder.ComboInTable | s_appearance_order_tool/appearance_order_all.py:64-69 | every actor of a combination has a table row, so the lookup at line 69 cannot fail |
| AppearanceOrder.AskRecord | s_appearance_order_tool/appearance_order_all.py:95-133 | the record built from a question carries its possibility number, actors, first frames and presented names, and its answer letter designates the correct sequence |
| AppearanceOrder.VisitSound | s_appearance_order_tool/appearance_order_all.py:65-135 | one combination yields at most one record; it yields one exactly when the reshuffle loop ends, and that record states the facts above |
| AppearanceOrder.StepSound | s_appearance_order_tool/appearance_order_all.py:65-135 | the loop body as a function value keeps the same facts |
| AppearanceOrder.CollectItems | s_appearance_order_tool/appearance_order_all.py:67-76 | the loop over the combination's actors builds exactly their items, in order |
| AppearanceOrder.ProcessCombination | s_appearance_order_tool/appearance_order_all.py:65-135 | the body of the loop over combinations computes exactly the record of that combination, or nothing |
| AppearanceOrder.AppendCombination | s_appearance_order_tool/appearance_order_all.py:64-135 | one more loop turn appends that combination's records to those of the combinations before it |
| AppearanceOrder.GenerateAppearance | s_appearance_order_tool/appearance_order_all.py:49-140 | the whole loop over combinations of four actors produces exactly the modelled records; nothing when there are fewer than four actors |
| AppearanceOrder.GeneratedAppearance | s_appearance_order_tool/appearance_order_all.py:53-140 | no records with fewer than four unique actors; otherwise one record per presentable 4-combination, in combination order, numbered 1, 2, 3, ..., each stating its combination's facts |
| RelativeDistance.CreateDistanceDict | c_relative_distance_tool/relative_distance_all.py:51-64 | the loop stores every row's distance under both orders of its pair |
| RelativeDistance.DistancesSymmetric | c_relative_distance_tool/relative_distance_all.py:60-62 | the dictionary is symmetric: (a, b) and (b, a) are both present with the same distance, or both absent |
| RelativeDistance.DistancesKeys | c_relative_distance_tool/relative_distance_all.py:55-62 | a pair is a key exactly when some row mentions it, in either order |
| RelativeDistance.DistancesLast | c_relative_distance_tool/relative_distance_all.py:55-62 | a pair's distance is the one of the last row that mentions it |
| RelativeDistance.PrimaryRows | c_relative_distance_tool/relative_distance_all.py:100-104 | a row is a primary candidate exactly when its ShortActorName occurs once in the table |
| RelativeDistance.CandidatesMember | c_relative_distance_tool/relative_distance_all.py:130-138 | a candidate is exactly another actor of the table that has a distance from the primary, with that distance and that actor's short name |
| RelativeDistance.CollectCandidates | c_relative_distance_tool/relative_distance_all.py:130-138 | the loop collects exactly those candidates, in table order |
| RelativeDistance.ClosestPerType | c_relative_distance_tool/relative_distance_all.py:144-147 | the loop keeps the first (closest) candidate of each short name |
| RelativeDistance.RepresentativeIsCandidate | c_relative_distance_tool/relative_distance_all.py:144-150 | every representative is a candidate |
| RelativeDistance.RepresentativeTypes | c_relative_distance_tool/relative_distance_all.py:144-150 | the representatives have distinct short names and cover every short name among the candidates |
| RelativeDistance.RepresentativeFirst | c_relative_distance_tool/relative_distance_all.py:146-147 | a representative is the first candidate of its short name |
| RelativeDistance.RepresentativesSorted | c_relative_distance_tool/relative_distance_all.py:141-150 | taken from a distance-sorted list, the representatives are sorted by distance |
| RelativeDistance.RepresentativeNearest | c_relative_distance_tool/relative_distance_all.py:141-147 | a representative is no farther than any candidate of its short name |
| RelativeDistance.RepresentativesBeyondFour | c_relative_distance_tool/relative_distance_all.py:150-159 | a candidate whose type is not among the four options is no nearer than the fourth option |
| RelativeDistance.ResortIsIdentity | c_relative_distance_tool/relative_distance_all.py:150-151 | the second sort leaves the representatives as they are |
| RelativeDistance.ChooseSkips | c_relative_distance_tool/relative_distance_all.py:153-167 | a primary is skipped exactly when it has fewer than four types or its two nearest options are closer than the threshold; otherwise its options are the first four representatives |
| RelativeDistance.TopFour | c_relative_distance_tool/relative_distance_all.py:140-159 | the four options are candidates sorted by distance with distinct types, each the nearest of its type, and no other type is nearer than the fourth |
| RelativeDistance.ChooseOptions | c_relative_distance_tool/relative_distance_all.py:130-167 | a chosen primary has four such options, and its two nearest differ by at least the threshold |
| RelativeDistance.ChosenNamed | c_relative_distance_tool/relative_distance_all.py:173-174 | every option names a row of the table, so the display lookup cannot fail |
| RelativeDistance.SelectOptions | c_relative_distance_tool/relative_distance_all.py:129-167 | the candidate, representative and threshold steps together compute the modelled choice |
| RelativeDistance.CollectDisplays | c_relative_distance_tool/relative_distance_all.py:172-177 | the loop yields each option's display name, nearest first |
| RelativeDistance.EmitSpec | c_relative_distance_tool/relative_distance_all.py:123-213 | a primary yields at most one record; it yields one exactly when it is chosen; that record names the four options and their distances, its options rearrange their display names, and its letter designates the nearest |
| RelativeDistance.ProcessPrimary | c_relative_distance_tool/relative_distance_all.py:124-213 | the loop body computes exactly that record, or nothing |
| RelativeDistance.LoopBody | c_relative_distance_tool/relative_distance_all.py:124-213 | the loop body as a function value does what the per-primary step does and yields at most one record |
| RelativeDistance.EmitNext | c_relative_distance_tool/relative_distance_all.py:212-213 | a turn appends the body's record and keeps the possibility counter one past the number of records |
| RelativeDistance.GenerateDistances | c_relative_distance_tool/relative_distance_all.py:89-215 | the loop over primaries yields each primary's record in turn |
| RelativeDistance.GeneratedDistances | c_relative_distance_tool/relative_distance_all.py:89-215 | one record per chosen primary, in table order, numbered 1, 2, 3, ..., each stating its primary's facts |
| Geometry.RightAxis | c_relative_direction_tool/relative_direction_all.py:46-48 | the x axis is perpendicular to the forward axis, as long, and clockwise of it (to the right when facing forward) |
| Geometry.ProjectionLength | c_relative_direction_tool/relative_direction_all.py:50-55 | projecting onto the two axes keeps the squared length, scaled by the forward axis's squared length |
| RelativeDirection.Classify | c_relative_direction_tool/relative_direction_all.py:65-89 | every label comes from its option pool; the quadrant number goes with the hard label; the easy label is "right" exactly for the two right quadrants; "back" only for back quadrants, and any other medium label equals the easy label |
| RelativeDirection.BackSectorByCosine | c_relative_direction_tool/relative_direction_all.py:58-89 | the back sector (angle beyond ±135 degrees) is where the cosine to the facing direction is below -1/√2 |
| RelativeDirection.DetermineQuadrant | c_relative_direction_tool/relative_direction_all.py:23-103 | the local coordinates are undefined (NaN) exactly when standing and facing share their XY position |
| RelativeDirection.Unnormalised | c_relative_direction_tool/relative_direction_all.py:43-55 | the unnormalised projections are undefined under the same condition |
| RelativeDirection.QuadrantSigns | c_relative_direction_tool/relative_direction_all.py:43-89 | dividing the forward axis by its norm changes no label: the normalised and unnormalised frames classify alike |
| RelativeDirection.ScaledLabels | c_relative_direction_tool/relative_direction_all.py:65-89 | scaling both coordinates by a positive factor leaves all labels unchanged |
| RelativeDirection.ScaledBackSector | c_relative_direction_tool/relative_direction_all.py:84 | scaling both coordinates by a positive factor leaves the back sector unchanged |
| RelativeDirection.DistancePreserved | c_relative_direction_tool/relative_direction_all.py:50-55 | the distance in the observer's frame equals the XY distance between standing and located actor |
| RelativeDirection.AmbiguousByNorm | c_relative_direction_tool/relative_direction_all.py:181-186 | the ambiguity test compares the norm of the local coordinates with the threshold |
| RelativeDirection.AmbiguityIsDistance | c_relative_direction_tool/relative_direction_all.py:178-186 | a triple is ambiguous exactly when the located actor is closer to the standing actor than the threshold (never, with NaN coordinates) |
| RelativeDirection.Visited | c_relative_direction_tool/relative_direction_all.py:168-174 | the nested loops visit exactly the ordered triples of distinct actor positions |
| RelativeDirection.Ask | c_relative_direction_tool/relative_direction_all.py:214-250 | when the correct label is in the pool, the question is present, its options rearrange the pool and its letter designates the correct label |
| RelativeDirection.Visit | c_relative_direction_tool/relative_direction_all.py:176-282 | a triple yields at most one record, exactly when it is not too close; the record names the three actors, their positions, the quadrant number and three questions whose letters designate the labels |
| RelativeDirection.Kept | c_relative_direction_tool/relative_direction_all.py:184-256 | the kept triples are exactly the visited ones that are not too close |
| RelativeDirection.RecordsMatchKept | c_relative_direction_tool/relative_direction_all.py:168-282 | record q is the sound record for the q-th kept triple, numbered q + 1 |
| RelativeDirection.GeneratedRecords | c_relative_direction_tool/relative_direction_all.py:136-287 | an unreadable room size file stops the run with no records; otherwise one record per admissible triple that is not too close, in loop order, numbered 1, 2, 3, ... |
| RelativeDirection.SameName | c_relative_direction_tool/relative_direction_all.py:170-173 | among the unique names, two positions name the same actor exactly when they are equal |
| RelativeDirection.LoopBody | c_relative_direction_tool/relative_direction_all.py:176-287 | the loop body as a function value does what the per-triple step does and yields at most one record |
| RelativeDirection.LoopsWriteRecords | c_relative_direction_tool/relative_direction_all.py:168-287 | the three nested loops, run with that body, produce the modelled records |
| RelativeDirection.RecordsByStep | c_relative_direction_tool/relative_direction_all.py:176-287 | a body that does what the per-triple step does builds the modelled records |
| RelativeDirection.GenerateDirections | c_relative_direction_tool/relative_direction_all.py:136-287 | the generator computes exactly the modelled records |
| RelativeDirection.VisitFacings | c_relative_direction_tool/relative_direction_all.py:169-171 | the loop over facing actors appends the records of one standing actor's plane |
| RelativeDirection.FaceOne | c_relative_direction_tool/relative_direction_all.py:169-171 | one facing actor appends its row of records, or nothing when it is the standing actor |
| RelativeDirection.VisitLocations | c_relative_direction_tool/relative_direction_all.py:172-174 | the loop over located actors appends one row of records |
| RelativeDirection.LocateOne | c_relative_direction_tool/relative_direction_all.py:172-282 | one located actor appends its record, or nothing when it repeats the standing or facing actor |
| ObjectCount.Present | c_object_count_tool/object_count_all.py:63 | the counted values are exactly the short names present in the column, missing cells skipped |
| ObjectCount.ValueCountsFacts | c_object_count_tool/object_count_all.py:63 | `value_counts` has one entry per distinct present short name, each holding that name's number of occurrences, sorted largest count first, the counts adding up to the number of present cells |
| ObjectCount.CountRecordsAt | c_object_count_tool/object_count_all.py:67-88 | row i is the i-th count entry, numbered i + 1, with its count as the answer |
| ObjectCount.TalliedRecords | c_object_count_tool/object_count_all.py:72-88 | the counts written to the rows add up to the counts of the entries |
| ObjectCount.ObjectCountsNames | c_object_count_tool/object_count_all.py:57-88 | one row per distinct short name present and no other, and no rows when the `ShortActorName` column is missing |
| ObjectCount.ObjectCountsCounts | c_object_count_tool/object_count_all.py:63-88 | rows are numbered from 1; each row's count and answer are the number of actors with that short name; counts never increase down the rows and add up to the number of actors with a short name |
| ObjectCount.GenerateCounts | c_object_count_tool/object_count_all.py:57-88 | the loop over the counts builds exactly the rows described above (none when the column is missing) |
| ObjectSize.LongestIsMax | m_object_size_tool/object_size_all.py:43 | the chosen side is at least every other side, and every key before it is strictly shorter: ties go to the earliest of length, width, height |
| ObjectSize.DimensionNamesDistinct | m_object_size_tool/object_size_all.py:36-40 | the three dictionary keys are distinct, so the written name identifies the side |
| ObjectSize.FindLongestDimensionSound | m_object_size_tool/object_size_all.py:30-49 | the result names one side and holds its length, which is at least each of the three sizes; the centimetre value is 100 times the metre value |
| ObjectSize.SizeRecordsAt | m_object_size_tool/object_size_all.py:72-104 | row i describes the i-th distinct actor name, numbered i + 1, using that name's first annotation row |
| ObjectSize.SizeRecordsShape | m_object_size_tool/object_size_all.py:68-104 | one row per distinct actor name, in first-appearance order, numbered from 1, each with a longest side no shorter than any of the actor's sizes |
| ObjectSize.GenerateSizes | m_object_size_tool/object_size_all.py:68-109 | the loop over the unique actor names builds exactly those rows |
| RoomSize.FirstResultFileSpec | m_room_size_tool/room_size_all.py:46-51 | no file is found exactly when no listed name starts with `result` and ends with `.json`; otherwise the first such name in listing order is used |
| RoomSize.FindResultFile | m_room_size_tool/room_size_all.py:46-51 | the loop with `break` returns that first matching name |
| RoomSize.SizeListExactly | m_room_size_tool/room_size_all.py:124-138 | the size list is found exactly when `room_status` is a non-empty list whose first entry's `transforms` is a non-empty list whose first entry has a `size` list of at least three items |
| RoomSize.FromJsonSound | m_room_size_tool/room_size_all.py:118-162 | a row is produced exactly when the size list is found and its first and third items are numbers; it is row 1, keeps those two values as centimetres, divides them by 100 for metres, and its area is their product in square metres |
| RoomSize.FromJsonIgnoresHeight | m_room_size_tool/room_size_all.py:138-140 | the second size entry (the height) never affects the row |
| RoomSize.Least | m_room_size_tool/room_size_all.py:72-73 | the column minimum is one of the values and no value is smaller |
| RoomSize.Greatest | m_room_size_tool/room_size_all.py:72-73 | the column maximum is one of the values and no value is larger |
| RoomSize.SideBounds | m_room_size_tool/room_size_all.py:76-81 | a side is the spread plus the 2 m margin, raised to 5 m when smaller |
| RoomSize.Spread | m_room_size_tool/room_size_all.py:72-77 | maximum minus minimum bounds every difference of two values and is attained by one |
| RoomSize.EstimateSize | m_room_size_tool/room_size_all.py:66-97 | a row is estimated exactly when there are positions; it is row 1, each side is at least 5 m, the area is width times depth and at least 25 m², and the centimetre values are 100 times the metre values |
| RoomSize.EstimateEncloses | m_room_size_tool/room_size_all.py:72-81 | every pair of positions fits within each side less its margin, and each side is either the 5 m floor or attained by a pair of positions |
| RoomSize.RoomSizesAtMostOne | m_room_size_tool/room_size_all.py:45-171 | at most one row, numbered 1, taken from the JSON file exactly when a result file is listed |
| RoomSize.RoomSizeMain | m_room_size_tool/room_size_all.py:31-171 | `main` produces exactly the rows of the model above |
| RoutePlan.GetDistanceSymmetric | c_route_plan_tool/route_plan_all.py:89-93 | the look-up matches the pair in either order, so swapping the two names never changes the distance |
| RoutePlan.GetDistanceFirst | c_route_plan_tool/route_plan_all.py:78-97 | no distance exactly when no row mentions the pair; otherwise the distance of the first row that does |
| RoutePlan.CheckXyOverlap | c_route_plan_tool/route_plan_all.py:107-133 | the footprints overlap exactly when the centres are no farther apart than the half-sums of the sizes along both x and y |
| RoutePlan.CheckXyOverlapSymmetric | c_route_plan_tool/route_plan_all.py:107-133 | overlap does not depend on the order of the two actors |
| RoutePlan.FindNearest | c_route_plan_tool/route_plan_all.py:135-160 | `None` exactly when no candidate other than the current actor has a known distance within the limit; otherwise never the current actor, and the first candidate at the smallest such distance |
| RoutePlan.TurnBySigns | c_route_plan_tool/route_plan_all.py:162-193 | the turn is always one of the three turn labels |
| RoutePlan.ScaledProducts | c_route_plan_tool/route_plan_all.py:172-180 | scaling the two vectors scales their dot and cross products by the product of the factors |
| RoutePlan.UnitProduct | c_route_plan_tool/route_plan_all.py:172-180 | the product of the two normalising factors normalises the product of the squared lengths |
| RoutePlan.BehindByNorm | c_route_plan_tool/route_plan_all.py:188 | a normalised dot product below -0.5 means a negative dot product whose square is more than a quarter of the squared lengths' product |
| RoutePlan.TurnNormalisation | c_route_plan_tool/route_plan_all.py:162-193 | turning on the normalised vectors gives the same label as the sign test on the raw vectors: behind beyond 120 degrees, otherwise left exactly when the cross product is positive |
| RoutePlan.StraightAheadIsRight | c_route_plan_tool/route_plan_all.py:190-193 | a target straight ahead (cross product zero) yields "Turn Right" |
| RoutePlan.Grow | c_route_plan_tool/route_plan_all.py:369-374 | drawing never takes a set of at most four options past four |
| RoutePlan.GrowFacts | c_route_plan_tool/route_plan_all.py:366-376 | the option set stays duplicate-free and at most four, keeps what it held, and gains only joined draws |
| RoutePlan.SingleTurnOptions | c_route_plan_tool/route_plan_all.py:351-361 | one turn gives a question exactly when the turn is one of the three labels; the options are the three labels shuffled and the letter points at the turn |
| RoutePlan.SeveralTurnOptions | c_route_plan_tool/route_plan_all.py:363-383 | several turns give four distinct options holding the joined correct sequence once, the others being joined draws, and the letter points at the correct sequence |
| RoutePlan.GrowOptions | c_route_plan_tool/route_plan_all.py:366-376 | the `while` loop builds the option set of the model |
| RoutePlan.BuildRouteOptions | c_route_plan_tool/route_plan_all.py:346-386 | the options and letter are those of the model, or none where the source returns early |
| RoutePlan.RouteSequencesShape | c_route_plan_tool/route_plan_all.py:243-274 | the direct route comes first, and every other route has exactly one stop: a name that is none of the three route actors and lies within 2 m of the begin and of the end actor |
| RoutePlan.RouteSequencesComplete | c_route_plan_tool/route_plan_all.py:260-272 | every name that qualifies as a stop gets its single-stop route |
| RoutePlan.GenerateRouteSequences | c_route_plan_tool/route_plan_all.py:243-274 | the loop builds exactly the route list of the model |
| RoutePlan.RecordRoute | c_route_plan_tool/route_plan_all.py:334-397 | nothing is appended unless the route is valid with at least one recorded turn; then one question with the route's names and the built options, when the options are built |
| RoutePlan.ProcessSingleRoute | c_route_plan_tool/route_plan_all.py:276-397 | as written, no turn is ever recorded (the recording lines follow the `break`), so the question list comes back unchanged |
| RoutePlan.JobsOf | c_route_plan_tool/route_plan_all.py:230-231 | one job per route sequence, in order, with the triple's three actors |
| RoutePlan.RouteJobsSound | c_route_plan_tool/route_plan_all.py:206-231 | a route is processed only for three distinct named actors with begin and end at least 1 m apart and facing within 2 m of begin, and only with no stop or one valid stop |
| RoutePlan.RoutesNamed | c_route_plan_tool/route_plan_all.py:260-272 | every stop of every route is one of the actor names |
| RoutePlan.JobsOfNext | c_route_plan_tool/route_plan_all.py:230-231 | one more route sequence adds exactly its job |
| RoutePlan.ProcessRoutesFor | c_route_plan_tool/route_plan_all.py:227-231 | every route sequence of the triple is handed on, in order, and the question list is unchanged |
| RoutePlan.ProcessTriple | c_route_plan_tool/route_plan_all.py:206-231 | one permutation is skipped unless it passes the filters, and otherwise hands on its route sequences |
| RoutePlan.ProcessRoutes | c_route_plan_tool/route_plan_all.py:195-241 | the routes handed on are exactly the model's, over all ordered triples, and, as written, no question is generated |
| RouteBatch.PairsOf | batch_process_route_plan.py:117-125 | one QA pair per CSV row |
| RouteBatch.PairsOfAt | batch_process_route_plan.py:117-125 | pair i carries row i's question and answer, type `c_route_plan` and difficulty `hard` |
| RouteBatch.RoutePlanPairsShape | batch_process_route_plan.py:103-132 | a missing or unreadable CSV gives no pairs; otherwise one pair per row, in row order, each with the row's question and answer, type `c_route_plan` and difficulty `hard` |
| RouteBatch.ExtractRoutePlanQaPairs | batch_process_route_plan.py:103-132 | the loop over the rows builds exactly those pairs |
| RouteBatch.FilterNone | batch_process_route_plan.py:151 | a filter that no pair passes yields the empty list, as when every old pair is a route-plan pair |
| RouteBatch.MergeSplits | batch_process_route_plan.py:148-154 | after the merge the route-plan pairs are exactly the new ones, the other pairs are the old non-route-plan pairs in their order, and nothing else is present |
| RouteBatch.MergeDropsOld | batch_process_route_plan.py:151-154 | no old route-plan pair survives the merge |
| RouteBatch.MergeIdempotent | batch_process_route_plan.py:148-157 | merging the same new pairs a second time changes nothing |
| RouteBatch.UpdateJsonSound | batch_process_route_plan.py:134-168 | the update succeeds exactly when the JSON document exists and the write succeeds; the other keys are kept, the route-plan pairs become the new ones and the other pairs are kept (the new ones alone when there was no `qa_pairs` key) |
| RouteBatch.ProcessSingleFolder | batch_process_route_plan.py:170-217 | the folder's result record and the JSON written are those of the model |
| RouteBatch.ScriptFailureStops | batch_process_route_plan.py:187-195 | a failed script run makes the folder fail with only the script error, and nothing is extracted or written |
| RouteBatch.NoPairsStillSucceeds | batch_process_route_plan.py:198-204 | no pairs extracted still counts as success with the "no pairs" error, and the JSON is not touched |
| RouteBatch.FolderOutcomeSound | batch_process_route_plan.py:170-217 | success exactly when the script ran and either there were no pairs or the JSON update succeeded; the JSON counts as updated exactly when no error is recorded; the extracted count is the CSV's row count; a write happens exactly when the JSON is updated, and it holds the extracted pairs as the route-plan pairs |
| RouteBatch.AllOutcomes | batch_process_route_plan.py:219-233 | one result per folder |
| RouteBatch.AllOutcomesAt | batch_process_route_plan.py:228-233 | result i is folder i's outcome |
| RouteBatch.ProcessAllFolders | batch_process_route_plan.py:219-233 | the loop over the folders builds exactly those results, none when there are no folders |
| RouteBatch.SummaryBounds | batch_process_route_plan.py:240-247 | for consistent results, the summary counts every folder, and updated ≤ successful ≤ generated ≤ total |
| RouteBatch.AllOutcomesSummary | batch_process_route_plan.py:219-247 | the summary of a whole run satisfies those bounds |
| FrameExtraction.SplitRunsAlternates | 0_original_ue_anno/frame_extraction.py:34 | `re.split` with a capturing group yields an odd number of parts alternating digit-free text and maximal digit runs; inner text parts are never empty, and the first part is empty exactly when the name starts with a digit |
| FrameExtraction.SplitRunsConcat | 0_original_ue_anno/frame_extraction.py:34 | joining the parts gives back the name: the split loses nothing |
| FrameExtraction.SplitRunsAppend | 0_original_ue_anno/frame_extraction.py:34 | splitting a name followed by text that starts with a non-digit glues the two splits at the shared text part |
| FrameExtraction.NoDigitsPrefix | 0_original_ue_anno/frame_extraction.py:34 | digit-free text in front of a name joins the split's first text part |
| FrameExtraction.DigitRunThen | 0_original_ue_anno/frame_extraction.py:34 | a digit run followed by text splits as an empty text part, the run, then the split of the text |
| FrameExtraction.NumberedSplit | 0_original_ue_anno/frame_extraction.py:34 | text, one digit run, text splits into exactly those three parts |
| FrameExtraction.ChunkKeysAppend | 0_original_ue_anno/frame_extraction.py:33-34 | the key of concatenated parts is the concatenation of their keys |
| FrameExtraction.NaturalSortKeyShape | 0_original_ue_anno/frame_extraction.py:31-34 | a key alternates strings and integers, starting and ending with a string, so comparing two keys never compares an integer with a string |
| FrameExtraction.KeyLessPrefix | 0_original_ue_anno/frame_extraction.py:51 | list comparison ignores a shared leading part |
| FrameExtraction.NumberedKey | 0_original_ue_anno/frame_extraction.py:31-34 | the key of a path ending in text, number, text is the path's key with the number as an integer between the lower-cased text parts |
| FrameExtraction.NumberedKeys | 0_original_ue_anno/frame_extraction.py:33 | digit runs become integers and the other parts lower-cased strings |
| FrameExtraction.NumberedOrder | 0_original_ue_anno/frame_extraction.py:31-51 | two names differing only in one number sort by the number's integer value |
| FrameExtraction.FramesInNumericOrder | 0_original_ue_anno/frame_extraction.py:51 | frames `Screenshot_<n>.png` of one directory sort exactly by `int(n)` |
| FrameExtraction.TwoBeforeTen | 0_original_ue_anno/frame_extraction.py:51 | plain string order puts frame 10 before frame 2; the key puts frame 2 first |
| FrameExtraction.StrLessPrefix | 0_original_ue_anno/frame_extraction.py:51 | string comparison ignores a shared prefix |
| FrameExtraction.NormalizeSubdir | 0_original_ue_anno/frame_extraction.py:20-22 | one leading `data/` is removed when present, and the name is otherwise unchanged |
| FrameExtraction.InputDataRootForms | 0_original_ue_anno/frame_extraction.py:20-24 | `x` and `data/x` name the same input directory, and an empty name or a bare `data/` reads from the data root |
| FrameExtraction.NormalizeSubdirOnce | 0_original_ue_anno/frame_extraction.py:21-22 | only one `data/` is removed |
| QuizSampler.GroupByCategoryKeys | sample_quiz_from_output_json.py:31-36 | the dict's keys are listed once each, in first-seen order, and are exactly the categories of the items (`unknown` when the type is absent) |
| QuizSampler.GroupByCategoryMembers | sample_quiz_from_output_json.py:31-36 | each category's list is the items of that category in input order, and is never empty |
| QuizSampler.GroupItems | sample_quiz_from_output_json.py:31-36 | the loop with `setdefault(...).append` builds that grouping |
| QuizSampler.Choose | sample_quiz_from_output_json.py:44 | `rng.choice` returns one of the items it is given |
| QuizSampler.PickOne | sample_quiz_from_output_json.py:39-45 | the loop over the dict picks one item per key, in key order |
| QuizSampler.PickOneAligned | sample_quiz_from_output_json.py:39-45 | one pick per category, in the dict's key order, each an input item of that category |
| QuizSampler.PickOneDistinct | sample_quiz_from_output_json.py:39-45 | the picks are input items of pairwise different categories |
| QuizSampler.PickOneCovers | sample_quiz_from_output_json.py:39-45 | every category of the input has a pick |
| QuizSampler.AddForMissing | sample_quiz_from_output_json.py:59-64 | the loop over the missing difficulties builds exactly the model's additions |
| QuizSampler.CoverDifficulties | sample_quiz_from_output_json.py:48-64 | `ensure_difficulty_coverage` returns exactly the model's additions |
| QuizSampler.AdditionsFromPrefix | sample_quiz_from_output_json.py:59-64 | the loop only appends, at most one question per missing difficulty |
| QuizSampler.AdditionsFromSound | sample_quiz_from_output_json.py:59-64 | each addition comes from the pool with a missing difficulty, and no two have the same difficulty |
| QuizSampler.AdditionsFromReach | sample_quiz_from_output_json.py:60-63 | a missing difficulty that some pool question has gets an addition |
| QuizSampler.AdditionsSound | sample_quiz_from_output_json.py:59-64 | at most one addition per missing difficulty, each from the pool with that difficulty, no difficulty twice |
| QuizSampler.AdditionsReach | sample_quiz_from_output_json.py:60-63 | every missing difficulty available in the pool is added |
| QuizSampler.CoverageNotNeeded | sample_quiz_from_output_json.py:50-54 | nothing is added when hard, medium and easy are already present |
| QuizSampler.CoverageSound | sample_quiz_from_output_json.py:48-64 | at most three additions, each an input question not yet picked whose difficulty is needed and absent from the picks, with no difficulty twice |
| QuizSampler.CoverageComplete | sample_quiz_from_output_json.py:48-64 | whenever an unpicked input question has a needed difficulty, that difficulty is present after the additions |
| QuizSampler.TopUpToTenSound | sample_quiz_from_output_json.py:67-73 | nothing when ten are picked; otherwise as many as are missing to reach ten, as far as the remaining questions allow, each an input question not yet picked and none twice |
| QuizSampler.Cut | sample_quiz_from_output_json.py:92 | the cut keeps at most ten questions |
| QuizSampler.CutKeeps | sample_quiz_from_output_json.py:92 | the first ten questions survive the cut in place |
| QuizSampler.FlattenAll | sample_quiz_from_output_json.py:96-105 | one flattened question per pick, in order, each with the video's id and path and the pick's fields ("" when absent) |
| QuizSampler.FlattenQuestions | sample_quiz_from_output_json.py:96-105 | the loop builds exactly those flattened questions |
| QuizSampler.PickQuestions | sample_quiz_from_output_json.py:83-92 | the four steps produce exactly the model's draft |
| QuizSampler.BuildQuizMain | sample_quiz_from_output_json.py:76-106 | `build_quiz` returns exactly the model's quiz |
| QuizSampler.DraftFromItems | sample_quiz_from_output_json.py:83-92 | every picked question, before and after the cut, is an input question |
| QuizSampler.UncutFromItems | sample_quiz_from_output_json.py:83-89 | every question picked before the cut is an input question |
| QuizSampler.BuildQuizStamped | sample_quiz_from_output_json.py:76-106 | at most ten questions, each stamped with the video id and the stored or default video path |
| QuizSampler.BuildQuizFromItems | sample_quiz_from_output_json.py:92-105 | quiz question i is the flattened form of an input question |
| QuizSampler.DraftCoversCategories | sample_quiz_from_output_json.py:83-92 | with at most ten categories, every category of the input appears in the quiz |
| QuizSampler.CoveredLevels | sample_quiz_from_output_json.py:83-87 | after the additions there are at most three more picks than categories, and every needed difficulty present in the input is present |
| QuizSampler.DraftCoversLevels | sample_quiz_from_output_json.py:83-92 | with at most seven categories, every needed difficulty present in the input survives the cut |
| QuizSampler.PicksDistinct | sample_quiz_from_output_json.py:84-87 | picks of distinct categories followed by additions of distinct difficulties not already picked repeat no question |
| QuizSampler.CoveredDistinct | sample_quiz_from_output_json.py:83-87 | after the additions no question is picked twice, and all are input questions |
| QuizSampler.RemainingLength | sample_quiz_from_output_json.py:70 | for duplicate-free questions, the remaining ones and the picked ones together number the input |
| QuizSampler.DraftDistinct | sample_quiz_from_output_json.py:83-92 | for duplicate-free input, the quiz repeats no question |
| QuizSampler.UncutDistinct | sample_quiz_from_output_json.py:83-89 | for duplicate-free input, no question is picked twice before the cut |
| QuizSampler.DraftFull | sample_quiz_from_output_json.py:83-92 | for duplicate-free input, the quiz has ten questions, or all of them when there are fewer |
| VqaDataset.StrippedParts | create_simplified_vqa_dataset.py:51 | the kept parts are never empty and start and end without white space |
| VqaDataset.StrippedPartsMembers | create_simplified_vqa_dataset.py:51 | the kept parts are exactly the non-empty stripped forms of the parts |
| VqaDataset.StrippedPartsAvoid | create_simplified_vqa_dataset.py:51-55 | stripping adds no character, so a separator absent from the parts stays absent |
| VqaDataset.SplitOptionsSpec | create_simplified_vqa_dataset.py:50-55 | no options exactly when every part strips to nothing; otherwise at most one more option than separators, each free of the separator, non-empty and stripped |
| VqaDataset.ParseOptions | create_simplified_vqa_dataset.py:33-56 | parsed options, when any, are never an empty list |
| VqaDataset.ParseTextCases | create_simplified_vqa_dataset.py:39-56 | a blank cell gives no options; a cell that parses as a non-empty list gives that list; otherwise a cell with `;` splits on `;`, and only a cell with `,` and at least two `.` splits on `,`, each option free of the separator and stripped |
| VqaDataset.MergeUnchanged | create_simplified_vqa_dataset.py:58-65 | the question is left unchanged exactly when every option strips to nothing |
| VqaDataset.StrippedPartsBlank | create_simplified_vqa_dataset.py:62-64 | options that all strip to nothing leave nothing to merge |
| VqaDataset.OccursAfter | create_simplified_vqa_dataset.py:65 | text found in a suffix is found in the whole string, shifted by the prefix |
| VqaDataset.StrippedPartsHas | create_simplified_vqa_dataset.py:62 | every option with content is kept in stripped form |
| VqaDataset.MergeAppends | create_simplified_vqa_dataset.py:58-65 | a merged question starts with the question and a space, and every option with content appears, stripped, after it |
| VqaDataset.WithOptionsKeeps | create_simplified_vqa_dataset.py:114-117 | merging options changes only the question, never removes it, and does nothing without an options cell |
| VqaDataset.LevelPair | create_simplified_vqa_dataset.py:128-143 | a level's pair names the folder, its video and type `c_relative_direction`, carries the level's difficulty and answer cell, and has a question |
| VqaDataset.LevelNamesDistinct | create_simplified_vqa_dataset.py:128-173 | the three difficulty names are distinct |
| VqaDataset.DirectionPairsOrder | create_simplified_vqa_dataset.py:126-173 | a row gives at most three pairs, in the order hard, medium, easy, each for the folder with type `c_relative_direction` |
| VqaDataset.DirectionPairsPresent | create_simplified_vqa_dataset.py:128-172 | a level yields a pair exactly when both its question and answer cells hold values, and the pair carries that level's answer |
| VqaDataset.AppendDirectionPairs | create_simplified_vqa_dataset.py:126-173 | the three level blocks append exactly the row's pairs |
| VqaDataset.ProcessRelativeDirection | create_simplified_vqa_dataset.py:122-175 | the loop over the rows produces exactly the rows' pairs in order |
| VqaDataset.ProcessCsvToQaPairs | create_simplified_vqa_dataset.py:78-120 | a missing or unreadable CSV gives no pairs; otherwise the category's branch produces exactly the model's pairs |
| VqaDataset.CsvPairsTagged | create_simplified_vqa_dataset.py:78-200 | every pair names the folder and its video and has a difficulty exactly when its type is `c_relative_direction` or `c_route_plan`; a relative-direction table gives at most three pairs per row, any other table at most one |
| VqaDataset.Difficulties | create_simplified_vqa_dataset.py:230-233 | at most one difficulty counted per pair |
| VqaDataset.Types | create_simplified_vqa_dataset.py:235-238 | one type counted per pair |
| VqaDataset.StatisticsSound | create_simplified_vqa_dataset.py:222-238 | the total is the number of pairs; the category counts are the number of pairs of each type and add up to the total; the difficulty counts are the number of pairs with each difficulty and have exactly those keys |
| VqaDataset.ComputeStatistics | create_simplified_vqa_dataset.py:222-238 | the two counting loops produce exactly the model's statistics |
| VqaDataset.CountDifficulties | create_simplified_vqa_dataset.py:228-233 | the difficulty loop counts exactly the pairs' difficulties |
| VqaDataset.CountTypes | create_simplified_vqa_dataset.py:234-238 | the category loop counts exactly the pairs' types |
| VqaDataset.GenerateVqaDataset | create_simplified_vqa_dataset.py:202-246 | the dataset is the folder's pairs from every mapped CSV, in mapping order, with their statistics |
| VqaDataset.DifficultiesOfTagged | create_simplified_vqa_dataset.py:228-238 | for a folder's pairs, the difficulties counted number exactly the relative-direction and route-plan pairs, and each is hard, medium or easy |
| VqaDataset.DatasetTagged | create_simplified_vqa_dataset.py:202-246 | every pair of a dataset names the folder and carries a difficulty exactly for the two graded types |
| VqaDataset.TaggedStatistics | create_simplified_vqa_dataset.py:222-238 | difficulty keys are hard, medium or easy, and they add up to the count of the two graded types |
| VqaDataset.TallyKeys | create_simplified_vqa_dataset.py:232 | every counted key occurs in the input |
| VqaDataset.TallyTotal | create_simplified_vqa_dataset.py:232 | the counts add up to the input length |
| VqaDataset.TallyGet | create_simplified_vqa_dataset.py:232 | each count is the number of occurrences |
| VqaDataset.DatasetDifficulties | create_simplified_vqa_dataset.py:202-246 | in every dataset, the difficulty counts use only hard, medium and easy and add up to the relative-direction and route-plan counts |
| VqaDataset.Overall | create_simplified_vqa_dataset.py:294-319 | the accumulated counters have one entry per key |
| VqaDataset.OverallTotal | create_simplified_vqa_dataset.py:294-311 | the overall total is the sum of the totals of the folders whose JSON exists |
| VqaDataset.OverallCategories | create_simplified_vqa_dataset.py:317-319 | each overall category count is the sum of that category's counts over the folders |
| VqaDataset.OverallDifficulties | create_simplified_vqa_dataset.py:313-315 | each overall difficulty count is the sum of that difficulty's counts over the folders |
| VqaDataset.OverallConsistent | create_simplified_vqa_dataset.py:294-319 | when each folder's category counts add up to its total, the overall ones add up to the overall total |
| VqaDataset.AddCounts | create_simplified_vqa_dataset.py:313-319 | the `get(k, 0) + count` loop adds one folder's counts into the overall counter |
| VqaDataset.GenerateSummary | create_simplified_vqa_dataset.py:277-327 | no summary without folders; otherwise exactly the model's summary |

## Left out

- File, CSV and JSON reading and writing, directory listing, `os.path` handling beyond the frame sub-directory rule, and all printing and logging. Tables come in as sequences of records, and "file missing" or "read failed" are `None` inputs.
- The order of `os.listdir` and `iterdir` (data folders, result files) is a parameter: the model takes the listing as given.
- Question sentences. Templates are plain string formatting; only the `"X. text"` options and the answer letters are modelled.
- `round(...)` of the size and area answers. The model keeps the unrounded values.
- Floating-point arithmetic, `np.linalg.norm`, `np.degrees` and `arctan2`: the model uses exact reals and the equivalent sign tests. NaN is modelled only where the source visibly produces it: coincident standing and facing actors in relative direction, and NaN cells as `None`.
- RoomSize.Estimate: an empty actor table gives no row. The source would compute NaN sizes.
- AnnoExtraction.Extract: `None` stands for the errors pandas raises on an input with no rows and on a merged table with no rows. The error itself is not modelled.
- Ties in `sort_values('FirstFrame')` and `value_counts()` are broken stably. Tied annotation rows stay in the sorted (ActorName, ActorClass) order of the groups, and tied counts stay in order of first appearance. pandas' default sort does not promise a tie order for these calls.
- Text.Lower: only the ASCII capitals are lower-cased. Python's `lower()` also maps other Unicode capitals, such as 'É', which the model keeps unchanged.
- `ast.literal_eval` in `_parse_options` is an opaque parameter returning the list it parses or nothing.
- Values read from CSV cells are kept as the text `str` shows. The model does not reproduce pandas' numeric type inference.
- The iteration order of the Python set `missing` in `ensure_difficulty_coverage` is a parameter (`needOrder`), because it depends on string hashing. The model requires it to enumerate hard, medium and easy once each.
- Keys of the quiz's `qa_pairs` entries other than the six the sampler reads are not represented.
- The `while` loops that end only with probability 1 are bounded. The appearance-order reshuffle takes a `fuel` bound, and a combination whose reshuffles run out is not emitted. The route-plan option set takes a finite list of random draws, and yields no question when the draws run out before four distinct options.
- The appearance-order `try`/`except` around each combination is not modelled: no modelled step of the loop body raises.
- ObjectSize.GenerateSizes: the `try`/`except` around each actor is not modelled. Looking up an actor's row and sizes in its own table cannot fail, so every actor gets a row.
- Actor descriptions are taken as given. The annotation cleanup drops the `ActorDescription` column, and the display name falls back to the short name.
- batch_process_route_plan.py: the subprocess call that runs the route-plan script is a `scriptOk` parameter. Timeouts and the script's own output are not modelled.
- The `elapsed_time` and total-time fields of the batch results and summary are not modelled.
- RouteBatch.UpdateJsonSound: the JSON contents after a failed write are not modelled. A failed write yields no document.
- `load_dataset` raising `FileNotFoundError`, `save_quiz`, and the command-line parsing of the quiz sampler are not modelled. `build_quiz` starts from the loaded `qa_pairs` and the stored `video_path`.
- FrameExtraction: `isdigit` and `int` are modelled on ASCII digits only. Python also accepts other Unicode digits.
- FrameExtraction: `sorted()` itself is not modelled. The lemmas state the key comparison it uses.
- FrameExtraction: the symlinks, the ffmpeg video creation and the frame metadata of `create_video_from_frames` are not modelled.
- Route plan: `get_actor_coords` is deprecated and unused, and `load_data` is file reading. Neither is modelled.
- Lemmas whose body is empty (for example QuizSampler.BuildQuizStamped, RouteBatch.ScriptFailureStops, RouteBatch.NoPairsStillSucceeds and RoutePlan.JobsOfNext) are stated for the reader. The verifier proves them directly from the definitions.
