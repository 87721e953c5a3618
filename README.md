# nuts2pin round state, in Dafny

A model of the round-keeping core of the nuts2pin golf companion. It covers:

- the course data records (holes, tee boxes, hazards, shots, courses and the course's total par);
- the two tee-box enumerations with their names, colours and order;
- the built-in Pebble Beach course as data;
- the score-to-par label and colour of the scorecard screen;
- the `CourseViewModel`, which holds the loaded course, the current hole, practice mode, the last GPS fix and the selected hazard, and derives the front-nine, back-nine and total scores and the distances to the pin and to the hazard.

Modules, one per source file:

- `Wrappers`: Swift optionals (`Option`).
- `CourseModel`: nuts2pin/Models/Course.swift.
- `TeeBoxModel`: nuts2pin/Models/TeeBox.swift.
- `SampleCourses`: nuts2pin/Data/SampleCourses.swift.
- `ScoringView`: the pure helpers of nuts2pin/Views/ScoringView.swift.
- `ViewModel`: nuts2pin/ViewModels/CourseViewModel.swift. The class `CourseViewModel` has the view-model's published fields, and each of its methods is proved against the pure functions defined before it in the module.
- `Scenarios`: rounds played through the class's methods, on Pebble Beach or on any course meeting the stated conditions.

How the model reads the code:

- **Current hole.** `currentHole` is a copy of a hole. It is taken when a course is loaded and when the player moves. `updateScore`, `updatePinLocation` and `updateTeeLocation` replace the hole inside the course but not this copy. So the distances computed right after a pin or tee edit still use the copy's pin and tees. `Scenarios.StalePinRound` proves this for a course with unique hole numbers and at least two holes, whose first hole has an entry for the selected tee and no custom pin. `Scenarios.PebbleBeachStalePin` proves it for hole 1 of Pebble Beach.
- **Lookup by number.** Holes are looked up by `number` with Swift's `firstIndex`. Navigation steps by list position from the first hole with the current number. The code does not require hole numbers to be unique. When a number repeats, `nextHole` from a later copy steps from the first copy and so jumps back (`ViewModel.RepeatedNumberStepsFromFirst`). The navigation lemmas therefore assume unique numbers, which `Scenarios.PebbleBeachUniqueNumbers` proves for the built-in course.
- **Scores.** `Hole` gains the `score: Option<int>` field that the view-model reads and writes.
- **Front and back nine.** `frontNineScore` is summed over `prefix(9)` and `backNineScore` over `suffix(9)`. A course of fewer than 18 holes counts the overlap twice. A course of more than 18 skips the middle holes. The `Aggregates*` lemmas state each case.
- **`recordShot`.** It appends to a local copy of the hole and drops it, so it changes nothing.
- **Distance.** `Coordinate.distance`, CoreLocation's geodesic distance converted to yards, is the class's `distance` constant. It is an arbitrary function supplied to the constructor. No property of it (symmetry, zero at equal points) is assumed.
- **Two tee-box enumerations.** Course.swift and TeeBox.swift each declare one, with different raw values ("Black" and "black"). Both are modelled over the one datatype `CourseModel.TeeBox`. `CourseModel.RawValue` and `TeeColor` come from Course.swift. `TeeBoxModel.LowerRawValue`, `DisplayName`, `ColorName` and `Order` come from TeeBox.swift. `updateTeeLocation` names a new entry after Course.swift's raw value.
- **Where the code differs from its design description, the model follows the code:**
  - `loadCourse` keeps whatever scores the loaded course carries.
  - Front and back nine are by list position, not by hole-number range.
  - `nextHole` and `previousHole` do not recompute distances.
  - A GPS update with an empty list of fixes clears the stored fix.
  - The tee-info lookup falls back to `.white` only when no course is loaded.
  - `updateScore`, `updatePinLocation` and `updateTeeLocation` assign through `let` fields (`Course.holes`, `Hole.teeBoxes`, `TeeBoxInfo.location`; CourseViewModel.swift:90, 117, 139, 144), and `updateTeeLocation` unwraps the non-optional `selectedTeeBox` with `guard let` (line 129). The model takes the evident update of the copied course and treats the selected tee as always present.
  - With no hazard selected, `updateDistances` keeps the previous hazard distance (lines 194-196) instead of clearing it.

## Model

| member | source | states |
|---|---|---|
| CourseModel.RawValue | nuts2pin/Models/Course.swift:36-41 | the raw values of Course.swift's tee boxes, "Black" to "Red"; `AllTeeBoxesComplete` states they are pairwise different |
| CourseModel.TeeColor | nuts2pin/Models/Course.swift:43-51 | every tee box is drawn in its namesake colour, except gold, which is the only one drawn yellow |
| CourseModel.AllTeeBoxesComplete | nuts2pin/Models/Course.swift:36-41 | `allCases` holds all five tee boxes, and their raw values "Black" … "Red" are pairwise different |
| CourseModel.HazardRawValue | nuts2pin/Models/Course.swift:76-82 | the raw values of the hazard kinds; `HazardRawValuesDistinct` states they tell the kinds apart |
| CourseModel.HazardRawValuesDistinct | nuts2pin/Models/Course.swift:76-82 | two hazard kinds have the same raw value exactly when they are the same kind |
| CourseModel.ClubRawValue | nuts2pin/Models/Course.swift:93-109 | the raw values of the fifteen clubs; `ClubRawValuesDistinct` states they tell the clubs apart |
| CourseModel.ClubRawValuesDistinct | nuts2pin/Models/Course.swift:93-109 | two clubs have the same raw value exactly when they are the same club |
| CourseModel.NewHole | nuts2pin/Models/Course.swift:16-26 | a new hole keeps the given number, par, distance, tee boxes, pin and hazards, and has no custom pin, no shots and no score |
| CourseModel.NewCourse | nuts2pin/Models/Course.swift:5-9 | a new course keeps its name and holes and starts with the white tee selected |
| CourseModel.SumPars | nuts2pin/Models/Course.swift:11-13 | the sum of the pars of a hole list; its properties are `SumParsConcat` and `SumParsSamePars` |
| CourseModel.TotalPar | nuts2pin/Models/Course.swift:11-13 | `totalPar` is the sum of the course's pars; `TotalParEmpty`, `TotalParIgnoresTeeSelection`, `PebbleBeachPar` and `EditsKeepTotalPar` state its properties |
| CourseModel.TotalParEmpty | nuts2pin/Models/Course.swift:11-13 | a course without holes has total par 0 |
| CourseModel.SumParsConcat | nuts2pin/Models/Course.swift:11-13 | total par distributes over concatenation of hole lists |
| CourseModel.SumParsSamePars | nuts2pin/Models/Course.swift:11-13 | hole lists whose pars agree hole by hole have the same total par, whatever their pins, tees, shots or scores |
| CourseModel.TotalParIgnoresTeeSelection | nuts2pin/Models/Course.swift:9-13 | changing the selected tee box leaves the total par unchanged |
| CourseModel.PrefixSuffixShape | nuts2pin/ViewModels/CourseViewModel.swift:99-102 | `prefix(k)` is the first min(k, n) elements, `suffix(k)` the last min(k, n), and on 2k elements the two together are the whole sequence |
| CourseModel.NinesSplitEighteen | nuts2pin/ViewModels/CourseViewModel.swift:99-102 | on 18 elements the first nine followed by the last nine give back the whole list |
| TeeBoxModel.LowerRawValue | nuts2pin/Models/TeeBox.swift:3-8 | the lower-case raw values of TeeBox.swift; `DisplayNameCapitalizesRaw` relates them to the display names |
| TeeBoxModel.DisplayName | nuts2pin/Models/TeeBox.swift:10-12 | `displayName` is the capitalised raw value; `DisplayNameCapitalizesRaw` and `ColorNameIsDisplayName` state what it is for every case |
| TeeBoxModel.ColorName | nuts2pin/Models/TeeBox.swift:13-21 | `color` is a colour name; `ColorNameIsDisplayName` states it equals the display name and Course.swift's raw value |
| TeeBoxModel.Capitalized | nuts2pin/Models/TeeBox.swift:10-12 | a capitalised word has the same length, an upper-cased first letter and lower-cased remaining letters |
| TeeBoxModel.Order | nuts2pin/Models/TeeBox.swift:24-32 | the order of a tee box lies in 0..4 |
| TeeBoxModel.DisplayNameCapitalizesRaw | nuts2pin/Models/TeeBox.swift:3-12 | the display name is the raw value with its first letter upper-cased and the rest unchanged ("gold" gives "Gold") |
| TeeBoxModel.ColorNameIsDisplayName | nuts2pin/Models/TeeBox.swift:10-22 | the colour name equals the display name for every case, and both equal Course.swift's raw value |
| TeeBoxModel.OrderInjective | nuts2pin/Models/TeeBox.swift:24-32 | two tee boxes have the same order exactly when they are the same |
| TeeBoxModel.OrderIsDeclarationPosition | nuts2pin/Models/TeeBox.swift:3-32 | the order of each case is its position in declaration order (black 0 … red 4), and the other way round |
| SampleCourses.PebbleBeachNumbering | nuts2pin/Data/SampleCourses.swift:4-204 | Pebble Beach has exactly 18 holes, and the hole at index i has number i+1 |
| SampleCourses.PebbleBeachParRange | nuts2pin/Data/SampleCourses.swift:8-202 | every par is between 3 and 5 |
| SampleCourses.PebbleBeachPar | nuts2pin/Data/SampleCourses.swift:8-202 | the first nine pars sum to 36, the last nine to 36, and the total par is 72 |
| SampleCourses.FirstHolesTees | nuts2pin/Data/SampleCourses.swift:8-41 | holes 1 and 2 have all five tee boxes; their tee distances fall by 20 yards at each step from black to red; the black tee is the hole's nominal length |
| SampleCourses.CatalogueIsPebbleBeach | nuts2pin/Data/SampleCourses.swift:4-206 | `allCourses` is exactly `[pebbleBeach]`, with the white tee selected and no hole scored or re-pinned |
| ScoringView.NatToDecimal | nuts2pin/Views/ScoringView.swift:165 | the decimal form of a number is a non-empty string of digits with no leading zero |
| ScoringView.NatToDecimalRoundTrip | nuts2pin/Views/ScoringView.swift:165 | reading the digits back gives the number |
| ScoringView.Decimal | nuts2pin/Views/ScoringView.swift:165 | an interpolated `Int` starts with "-" exactly when it is negative |
| ScoringView.DecimalRoundTrip | nuts2pin/Views/ScoringView.swift:165 | an interpolated `Int` reads back as the same integer |
| ScoringView.FormatScoreToPar | nuts2pin/Views/ScoringView.swift:134-140 | `formatScoreToPar` puts "+" before a positive number and prints the others as they are; `FormatScoreToParMeaning` states what the label means |
| ScoringView.FormatScoreToParMeaning | nuts2pin/Views/ScoringView.swift:134-140 | the label starts with "+" exactly when over par and with "-" exactly when under par, is "0" exactly at par, and reads back as the score |
| ScoringView.ScoreColor | nuts2pin/Views/ScoringView.swift:142-150 | red exactly under par, blue exactly over par, primary exactly at par |
| ScoringView.ScorecardRow | nuts2pin/Views/ScoringView.swift:161-174 | without a score both the score and +/- columns show "-" with no colour; with a score the +/- column is score - par, formatted and coloured as the totals are |
| ScoringView.DashMeansNoScore | nuts2pin/Views/ScoringView.swift:165-174 | a row shows "-" in its score column, and in its +/- column, exactly when no score is recorded |
| ScoringView.FrontNineSection | nuts2pin/Views/ScoringView.swift:47 | the front-nine section lists `prefix(9)` of the holes; `PrefixSuffixShape` and `SectionsCoverEighteen` state which holes those are |
| ScoringView.BackNineSection | nuts2pin/Views/ScoringView.swift:75 | the back-nine section lists `suffix(9)` of the holes; `PrefixSuffixShape` and `SectionsCoverEighteen` state which holes those are |
| ScoringView.SectionsCoverEighteen | nuts2pin/Views/ScoringView.swift:47-75 | on 18 holes the front section is the first nine positions and the back section the last nine, which together list every hole once in order |
| ViewModel.FirstIndex | nuts2pin/ViewModels/CourseViewModel.swift:68 | the index found is the first with the given number; none means no hole has it |
| ViewModel.First | nuts2pin/ViewModels/CourseViewModel.swift:61 | `first` is none exactly for an empty list, else the first hole |
| ViewModel.FirstIndexSameNumbers | nuts2pin/ViewModels/CourseViewModel.swift:68 | the lookup depends on the hole numbers only |
| ViewModel.FirstIndexOfUnique | nuts2pin/ViewModels/CourseViewModel.swift:68 | with unique numbers the lookup of a hole's number finds that hole |
| ViewModel.NextHoleOf | nuts2pin/ViewModels/CourseViewModel.swift:65-71 | the hole `nextHole` moves to; `NavigationNoops`, `NavigationClamped` and `PreviousUndoesNext` state where that is |
| ViewModel.PreviousHoleOf | nuts2pin/ViewModels/CourseViewModel.swift:73-79 | the hole `previousHole` moves to; `NavigationNoops`, `NavigationClamped` and `PreviousUndoesNext` state where that is |
| ViewModel.NavigationNoops | nuts2pin/ViewModels/CourseViewModel.swift:65-79 | without a course, a current hole, or a matching number, neither step moves |
| ViewModel.NavigationClamped | nuts2pin/ViewModels/CourseViewModel.swift:65-79 | on a course with unique hole numbers, from any copy of the hole at index i, next goes to i+1 and previous to i-1, each a no-op at the last or first hole |
| ViewModel.PreviousUndoesNext | nuts2pin/ViewModels/CourseViewModel.swift:65-79 | on a course with unique hole numbers, stepping back after a step forward returns to the starting hole |
| ViewModel.RepeatedNumberStepsFromFirst | nuts2pin/ViewModels/CourseViewModel.swift:65-71 | when the hole at index j repeats the number first used at index i < j, `nextHole` from it goes to index i+1, at or before j |
| ViewModel.AdvanceTimesClamped | nuts2pin/ViewModels/CourseViewModel.swift:65-71 | on a course with unique hole numbers, k steps forward from index i land on index min(i+k, n-1) |
| ViewModel.LoadThenAdvanceReachesLast | nuts2pin/ViewModels/CourseViewModel.swift:59-71 | on a course with unique hole numbers, after loading, n-1 steps reach the last hole and one more step stays there |
| ViewModel.CountScored | nuts2pin/ViewModels/CourseViewModel.swift:36-39 | the count of scored holes is at most the number of holes; it is 0 exactly when none is scored, and all of them exactly when all are |
| ViewModel.CountScoredIsScoredPositions | nuts2pin/ViewModels/CourseViewModel.swift:36-39 | the count is the size of the set of positions whose hole has a score |
| ViewModel.CountScoredAfterScore | nuts2pin/ViewModels/CourseViewModel.swift:87-93 | recording a score on a found hole adds one to the number of scored holes when that hole had no score, and nothing when it had one |
| ViewModel.SumScores | nuts2pin/ViewModels/CourseViewModel.swift:99-102 | the sum of the recorded scores, an unscored hole counting 0; the `SumScores*` lemmas state its properties |
| ViewModel.FrontNineScore | nuts2pin/ViewModels/CourseViewModel.swift:99 | the front nine's score is the sum over `prefix(9)`; the `Aggregates*` lemmas say which holes that covers for each course length |
| ViewModel.BackNineScore | nuts2pin/ViewModels/CourseViewModel.swift:102 | the back nine's score is the sum over `suffix(9)`; the `Aggregates*` lemmas say which holes that covers for each course length |
| ViewModel.SumScoresConcat | nuts2pin/ViewModels/CourseViewModel.swift:99-102 | the sum of recorded scores distributes over concatenation |
| ViewModel.SumScoresUnscored | nuts2pin/ViewModels/CourseViewModel.swift:99-102 | holes without a score contribute nothing |
| ViewModel.SumScoresSameScores | nuts2pin/ViewModels/CourseViewModel.swift:99-102 | hole lists whose scores agree hole by hole have the same sum |
| ViewModel.SumScoresReplace | nuts2pin/ViewModels/CourseViewModel.swift:90-102 | replacing one hole changes the sum by the difference of the two holes' scores |
| ViewModel.AggregatesShortCourse | nuts2pin/ViewModels/CourseViewModel.swift:95-106 | with at most nine holes both nines are the sum of all scores |
| ViewModel.AggregatesOverlap | nuts2pin/ViewModels/CourseViewModel.swift:95-106 | with 9 to 18 holes, front plus back is the sum of all scores plus the scores in the overlap |
| ViewModel.AggregatesEighteen | nuts2pin/ViewModels/CourseViewModel.swift:95-106 | with 18 holes, front plus back is the sum of all recorded scores |
| ViewModel.AggregatesLongCourse | nuts2pin/ViewModels/CourseViewModel.swift:95-106 | with more than 18 holes, the holes between the two nines are left out of the total |
| ViewModel.WithScore | nuts2pin/ViewModels/CourseViewModel.swift:87-93 | only the first hole with the number gets the score, all other holes and all numbers stay; no match changes nothing |
| ViewModel.WithCustomPin | nuts2pin/ViewModels/CourseViewModel.swift:113-124 | only the matching hole gets the custom pin, with its default pin kept; all other holes stay |
| ViewModel.MovedTeeInfo | nuts2pin/ViewModels/CourseViewModel.swift:131-142 | a moved tee has the new location and keeps name, distance, rating and slope, or has the tee's raw value as name and zeros when it is new |
| ViewModel.TeeEntry | nuts2pin/ViewModels/CourseViewModel.swift:131 | a hole's entry for a tee exists exactly when the tee is a key of its tee-box map |
| ViewModel.WithTeeLocation | nuts2pin/ViewModels/CourseViewModel.swift:126-147 | only the given tee of the matching hole changes; all other holes stay |
| ViewModel.TeeMoveKeepsOtherTees | nuts2pin/ViewModels/CourseViewModel.swift:131-144 | moving a tee adds at most that tee's key and keeps every other tee entry |
| ViewModel.ScoreOverwrite | nuts2pin/ViewModels/CourseViewModel.swift:87-93 | a later score for the same hole replaces the earlier one |
| ViewModel.SumScoresAfterScore | nuts2pin/ViewModels/CourseViewModel.swift:87-102 | recording a score on a found hole changes the sum by the new score less that hole's previous score; with no match nothing changes (`WithScore`) |
| ViewModel.EditsKeepTotalPar | nuts2pin/ViewModels/CourseViewModel.swift:87-147 | score, pin and tee edits leave the total par unchanged |
| ViewModel.GeometryEditsKeepScores | nuts2pin/ViewModels/CourseViewModel.swift:113-147 | pin and tee edits leave both nines' scores unchanged |
| ViewModel.LoadEstablishesInvariant | nuts2pin/ViewModels/CourseViewModel.swift:59-63 | loading a course and computing its nines establishes the round invariant, with the first hole (if any) current |
| ViewModel.ScoreEditKeepsInvariant | nuts2pin/ViewModels/CourseViewModel.swift:87-106 | recording a score and recomputing the aggregates keeps the round invariant, including the current hole's lookup |
| ViewModel.PinEditKeepsInvariant | nuts2pin/ViewModels/CourseViewModel.swift:113-124 | a pin edit keeps the round invariant |
| ViewModel.TeeEditKeepsInvariant | nuts2pin/ViewModels/CourseViewModel.swift:126-147 | a tee edit keeps the round invariant |
| ViewModel.SelectedTeeInfo | nuts2pin/ViewModels/CourseViewModel.swift:169-170 | the tee info exists exactly when there is a current hole that has an entry for the selected tee (white without a course) |
| ViewModel.Recompute | nuts2pin/ViewModels/CourseViewModel.swift:168-197 | the two distances `updateDistances` publishes; `RecomputeNeedsTee`, `RecomputeWithTee`, `PracticeIgnoresGps` and `GpsIgnoresPractice` state them |
| ViewModel.RecomputeNeedsTee | nuts2pin/ViewModels/CourseViewModel.swift:168-174 | a pin distance is published exactly when there is tee info; without it both distances are cleared |
| ViewModel.RecomputeWithTee | nuts2pin/ViewModels/CourseViewModel.swift:176-196 | distances are measured from practice location or GPS fix, falling back to the tee, to the custom pin or else the default pin; the hazard distance is refreshed only when a hazard is selected |
| ViewModel.PracticeIgnoresGps | nuts2pin/ViewModels/CourseViewModel.swift:178-187 | in practice mode the GPS fix does not affect the distances |
| ViewModel.GpsIgnoresPractice | nuts2pin/ViewModels/CourseViewModel.swift:178-187 | outside practice mode the practice location does not affect the distances |
| ViewModel.CourseViewModel.constructor | nuts2pin/ViewModels/CourseViewModel.swift:8-21 | a new view-model has no course, hole, fix, hazard or distances, zero scores, practice mode off, and satisfies the round invariant |
| ViewModel.CourseViewModel.ScoreToPar | nuts2pin/ViewModels/CourseViewModel.swift:26-29 | 0 without a course; with a course, the front nine's plus the back nine's score less the total par, which on an 18-hole course is the sum of all recorded scores less the total par |
| ViewModel.CourseViewModel.HolesInProgress | nuts2pin/ViewModels/CourseViewModel.swift:36-39 | 0 without a course, else exactly the number of holes that have a score (the size of the set of their positions) |
| ViewModel.CourseViewModel.LoadCourse | nuts2pin/ViewModels/CourseViewModel.swift:59-63 | the course becomes current, its first hole (none if empty) the current hole, and the aggregates are its nines |
| ViewModel.CourseViewModel.NextHole | nuts2pin/ViewModels/CourseViewModel.swift:65-71 | the current hole becomes the hole after the first hole with the current number, clamped at the last hole; nothing else changes |
| ViewModel.CourseViewModel.PreviousHole | nuts2pin/ViewModels/CourseViewModel.swift:73-79 | the current hole becomes the hole before the first hole with the current number, clamped at the first hole; nothing else changes |
| ViewModel.CourseViewModel.RecordShot | nuts2pin/ViewModels/CourseViewModel.swift:81-85 | nothing observable changes |
| ViewModel.CourseViewModel.UpdateScore | nuts2pin/ViewModels/CourseViewModel.swift:87-93 | the course's matching hole gets the score, the aggregates are recomputed, the current hole copy is untouched |
| ViewModel.CourseViewModel.UpdateScores | nuts2pin/ViewModels/CourseViewModel.swift:95-106 | front and back are the nines' sums and total is their sum; without a course nothing changes |
| ViewModel.CourseViewModel.SelectTeeBox | nuts2pin/ViewModels/CourseViewModel.swift:108-111 | a loaded course gets the tee, then the distances are recomputed |
| ViewModel.CourseViewModel.UpdatePinLocation | nuts2pin/ViewModels/CourseViewModel.swift:113-124 | the matching hole gets the custom pin and distances are recomputed from the unrefreshed current hole; without a match nothing changes |
| ViewModel.CourseViewModel.UpdateTeeLocation | nuts2pin/ViewModels/CourseViewModel.swift:126-147 | the selected tee of the matching hole moves and distances are recomputed; without a match nothing changes |
| ViewModel.CourseViewModel.TogglePracticeMode | nuts2pin/ViewModels/CourseViewModel.swift:149-161 | the flag flips; entering seeds the practice location from the current tee if there is one, leaving clears it; distances are recomputed |
| ViewModel.CourseViewModel.UpdatePracticeLocation | nuts2pin/ViewModels/CourseViewModel.swift:163-166 | the practice location is set and distances are recomputed |
| ViewModel.CourseViewModel.UpdateDistances | nuts2pin/ViewModels/CourseViewModel.swift:168-197 | the published distances are those the fallback chain gives for the current state |
| ViewModel.CourseViewModel.LocationUpdate | nuts2pin/ViewModels/CourseViewModel.swift:199-204 | the last fix is stored; distances are recomputed outside practice mode and untouched in it |
| ViewModel.CourseViewModel.SelectHazard | nuts2pin/ViewModels/CourseViewModel.swift:206-207 | the hazard of interest is set or cleared |
| Scenarios.PebbleBeachUniqueNumbers | nuts2pin/Data/SampleCourses.swift:8-202 | no two Pebble Beach holes share a number |
| Scenarios.PebbleBeachWalk | nuts2pin/ViewModels/CourseViewModel.swift:59-71 | 17 steps from the first hole of Pebble Beach reach hole 18, and an 18th step stays there |
| Scenarios.ScoreOverwriteRound | nuts2pin/ViewModels/CourseViewModel.swift:87-106 | scoring hole 3 as 5 then as 4 gives a total of 4 and a score to par of -68 |
| Scenarios.PracticeRound | nuts2pin/ViewModels/CourseViewModel.swift:149-204 | entering practice mode seeds the white tee of hole 1; a GPS fix in practice mode leaves the pin distance as it was |
| Scenarios.StalePinRound | nuts2pin/ViewModels/CourseViewModel.swift:113-124 | on a course with unique hole numbers and at least two holes, whose first hole has an entry for the selected tee and no custom pin, a pin moved on the first hole while it is current is not used until the player steps away and back |
| Scenarios.StepAwayAndBack | nuts2pin/ViewModels/CourseViewModel.swift:65-111 | on a course with unique hole numbers and at least two holes, from the first hole, whose selected tee has an entry on it, outside practice mode and with no GPS fix: stepping to the second hole and back refreshes the current hole from the course, so re-selecting the tee measures from that tee to the course's pin for the first hole |
| Scenarios.ScoreRaisesProgress | nuts2pin/ViewModels/CourseViewModel.swift:36-39 | after `updateScore` on a hole of the loaded course, `holesInProgress` is one more when the hole had no score and the same when it had one |
| Scenarios.PebbleBeachStalePin | nuts2pin/ViewModels/CourseViewModel.swift:113-124 | on hole 1 of Pebble Beach from the white tee: the distance first uses the old pin, then the new one |

## Left out

- `Coordinate.distance` (Course.swift:62-66) is CoreLocation's geodesic distance on doubles, times 1.09361 yards per metre. It is the abstract `distance` constant, and no symmetry or zero-distance property is claimed.
- Floating point: coordinates, ratings and distances are `real`, so double rounding is not modelled.
- Location services: the `CLLocationManager` setup and the Combine subscription in `init` (CourseViewModel.swift:41-57) are I/O. The constructor models only the initial field values.
- `averageScore` (CourseViewModel.swift:31-34) is a floating-point division. It is not modelled.
- `SelectHazard`: the refresh through `locationManager.location` calls an `updateDistances(with:)` that does not exist, so only the assignment is modelled.
- `RecordShot`: `Shot()` has no matching initialiser, and the shot goes onto a copy that is dropped, so no shot is built.
- Three published fields are never read or written by the view-model's own methods, so they are not modelled: `selectedTeeBox` as a string, `customPinLocation` on the view-model, and `isMapRealistic`.
- Sample holes 3 to 18 pass `teeLocation:` and a hazard `radius:`, which the `Hole` and `Hazard` records do not have. These holes have no tee-box entries, and their hazards have an empty description. So distances on them are none.
- `Capitalized` models Foundation's `capitalized` on one ASCII word only. That is all the tee-box raw values need.
- Methods the scorecard view calls but the view-model never defines are not modelled: `getScore`, `getTotalScore`, `getScoreToPar`, and `Course.frontNinePar` and `backNinePar`. Putts, fairway, green-in-regulation and notes statistics are not modelled either.
- View builders, map views, region and annotation computation, the course search filter, splash animation and navigation are presentation, not modelled.
- `id = UUID()` and `Date()` timestamps carry no behaviour. The records have no identity field.
- Integers are unbounded. Swift's `Int` traps on overflow, which only sums beyond 2^63 would reach.
