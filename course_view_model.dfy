/**
 * The round state of nuts2pin/ViewModels/CourseViewModel.swift: the loaded
 * course, the current hole, the score aggregates, practice mode and the
 * derived distances.
 *
 * The functions before the class are the specification its methods are
 * proved against; the lemmas after them state what those functions promise.
 */
module ViewModel {
  import opened Wrappers
  import opened CourseModel

  // ---------------------------------------------------------------------
  // Looking holes up by number
  // ---------------------------------------------------------------------

  /** Swift's `firstIndex(where: { $0.number == number })`. */
  function FirstIndex(holes: seq<Hole>, number: int): (r: Option<nat>)
    ensures r.Some? ==> r.value < |holes| && holes[r.value].number == number
    ensures r.Some? ==> forall j :: 0 <= j < r.value ==> holes[j].number != number
    ensures r.None? ==> forall j :: 0 <= j < |holes| ==> holes[j].number != number
  {
    if holes == [] then None
    else if holes[0].number == number then Some(0)
    else match FirstIndex(holes[1..], number)
      case None => None
      case Some(i) => Some(i + 1)
  }

  /** Swift's `first`: the first hole, or none for a course without holes. */
  function First(holes: seq<Hole>): (r: Option<Hole>)
    ensures r.None? <==> holes == []
    ensures r.Some? ==> r.value == holes[0]
  {
    if holes == [] then None else Some(holes[0])
  }

  /** No two holes of the course share a number. */
  predicate UniqueNumbers(holes: seq<Hole>)
  {
    forall i, j :: 0 <= i < j < |holes| ==> holes[i].number != holes[j].number
  }

  /** Two hole lists that agree on the number at every position. */
  predicate SameNumbers(a: seq<Hole>, b: seq<Hole>)
  {
    |a| == |b| && forall i :: 0 <= i < |a| ==> a[i].number == b[i].number
  }

  /** The lookup depends on the hole numbers only. */
  lemma FirstIndexSameNumbers(a: seq<Hole>, b: seq<Hole>, number: int)
    requires SameNumbers(a, b)
    ensures FirstIndex(a, number) == FirstIndex(b, number)
  {
  }

  /** With unique numbers, looking a hole's number up finds that hole. */
  lemma FirstIndexOfUnique(holes: seq<Hole>, i: nat, number: int)
    requires UniqueNumbers(holes) && i < |holes| && holes[i].number == number
    ensures FirstIndex(holes, number) == Some(i)
  {
  }

  // ---------------------------------------------------------------------
  // Navigation
  // ---------------------------------------------------------------------

  /** The current hole after `nextHole`. */
  function NextHoleOf(course: Option<Course>, hole: Option<Hole>): Option<Hole>
  {
    if course.None? || hole.None? then hole
    else
      var holes := course.value.holes;
      match FirstIndex(holes, hole.value.number)
      case None => hole
      case Some(i) => if i + 1 < |holes| then Some(holes[i + 1]) else hole
  }

  /** The current hole after `previousHole`. */
  function PreviousHoleOf(course: Option<Course>, hole: Option<Hole>): Option<Hole>
  {
    if course.None? || hole.None? then hole
    else
      var holes := course.value.holes;
      match FirstIndex(holes, hole.value.number)
      case None => hole
      case Some(i) => if i > 0 then Some(holes[i - 1]) else hole
  }

  /** Without a course, without a current hole, or when its number is not on the course, navigation does nothing. */
  lemma NavigationNoops(course: Option<Course>, hole: Option<Hole>)
    requires course.None? || hole.None? || FirstIndex(course.value.holes, hole.value.number).None?
    ensures NextHoleOf(course, hole) == hole
    ensures PreviousHoleOf(course, hole) == hole
  {
  }

  /**
   * On a course with unique numbers, from any copy of the hole at index i,
   * `nextHole` goes to index i+1 and `previousHole` to i-1, clamped at the
   * last and the first hole.
   */
  lemma NavigationClamped(course: Course, i: nat, current: Hole)
    requires UniqueNumbers(course.holes) && i < |course.holes|
    requires current.number == course.holes[i].number
    ensures NextHoleOf(Some(course), Some(current)) ==
              if i + 1 < |course.holes| then Some(course.holes[i + 1]) else Some(current)
    ensures PreviousHoleOf(Some(course), Some(current)) ==
              if i > 0 then Some(course.holes[i - 1]) else Some(current)
  {
    FirstIndexOfUnique(course.holes, i, current.number);
  }

  /** Stepping back after a step forward returns to the hole we started from. */
  lemma PreviousUndoesNext(course: Course, i: nat)
    requires UniqueNumbers(course.holes) && i + 1 < |course.holes|
    ensures PreviousHoleOf(Some(course), NextHoleOf(Some(course), Some(course.holes[i]))) == Some(course.holes[i])
  {
    NavigationClamped(course, i, course.holes[i]);
    NavigationClamped(course, i + 1, course.holes[i + 1]);
  }

  /**
   * When a number repeats, `nextHole` from a later copy steps from the first
   * hole with that number, so it lands at or before the later copy.
   */
  lemma RepeatedNumberStepsFromFirst(course: Course, i: nat, j: nat)
    requires i < j < |course.holes|
    requires course.holes[j].number == course.holes[i].number
    requires forall k :: 0 <= k < i ==> course.holes[k].number != course.holes[i].number
    ensures NextHoleOf(Some(course), Some(course.holes[j])) == Some(course.holes[i + 1])
  {
  }

  /** The current hole after k calls of `nextHole`. */
  function AdvanceTimes(course: Option<Course>, hole: Option<Hole>, k: nat): Option<Hole>
    decreases k
  {
    if k == 0 then hole else AdvanceTimes(course, NextHoleOf(course, hole), k - 1)
  }

  /** k calls of `nextHole` from the hole at index i reach index min(i+k, n-1). */
  lemma {:induction false} AdvanceTimesClamped(course: Course, i: nat, k: nat)
    requires UniqueNumbers(course.holes) && i < |course.holes|
    ensures AdvanceTimes(Some(course), Some(course.holes[i]), k) ==
              Some(course.holes[Min(i + k, |course.holes| - 1)])
    decreases k
  {
    if k > 0 {
      NavigationClamped(course, i, course.holes[i]);
      if i + 1 < |course.holes| {
        AdvanceTimesClamped(course, i + 1, k - 1);
      } else {
        AdvanceTimesClamped(course, i, k - 1);
      }
    }
  }

  /**
   * After loading an n-hole course, n-1 calls of `nextHole` reach the last
   * hole, and one more call leaves it there.
   */
  lemma LoadThenAdvanceReachesLast(course: Course)
    requires UniqueNumbers(course.holes) && |course.holes| > 0
    ensures AdvanceTimes(Some(course), First(course.holes), |course.holes| - 1) == Some(course.holes[|course.holes| - 1])
    ensures AdvanceTimes(Some(course), First(course.holes), |course.holes|) == Some(course.holes[|course.holes| - 1])
  {
    AdvanceTimesClamped(course, 0, |course.holes| - 1);
    AdvanceTimesClamped(course, 0, |course.holes|);
  }

  // ---------------------------------------------------------------------
  // Scores
  // ---------------------------------------------------------------------

  /** A hole's contribution to a total: its score, or nothing when none is recorded. */
  function ScoreOf(h: Hole): int
  {
    h.score.GetOr(0)
  }

  /** `compactMap { $0.score }.reduce(0, +)`. */
  function SumScores(holes: seq<Hole>): int
  {
    if holes == [] then 0 else ScoreOf(holes[0]) + SumScores(holes[1..])
  }

  function FrontNineScore(holes: seq<Hole>): int
  {
    SumScores(Prefix(holes, 9))
  }

  function BackNineScore(holes: seq<Hole>): int
  {
    SumScores(Suffix(holes, 9))
  }

  /** The number of holes with a recorded score (`holesInProgress`). */
  function CountScored(holes: seq<Hole>): (r: nat)
    ensures r <= |holes|
    ensures r == 0 <==> forall i :: 0 <= i < |holes| ==> holes[i].score.None?
    ensures r == |holes| <==> forall i :: 0 <= i < |holes| ==> holes[i].score.Some?
  {
    if holes == [] then 0
    else (if holes[0].score.Some? then 1 else 0) + CountScored(holes[1..])
  }

  /** The positions of the holes that have a score. */
  ghost function ScoredPositions(holes: seq<Hole>): set<int>
  {
    set i | 0 <= i < |holes| && holes[i].score.Some?
  }

  /** `holesInProgress` is exactly the number of scored holes. */
  lemma {:induction false} CountScoredIsScoredPositions(holes: seq<Hole>)
    ensures CountScored(holes) == |ScoredPositions(holes)|
  {
    CountScoredFrom(holes, 0);
    assert holes[0..] == holes;
  }

  lemma {:induction false} CountScoredFrom(holes: seq<Hole>, k: nat)
    requires k <= |holes|
    ensures CountScored(holes[k..]) == |set i | k <= i < |holes| && holes[i].score.Some?|
    decreases |holes| - k
  {
    var all := set i | k <= i < |holes| && holes[i].score.Some?;
    if k == |holes| {
      assert all == {};
    } else {
      CountScoredFrom(holes, k + 1);
      assert holes[k..][1..] == holes[k + 1..];
      var rest := set i | k + 1 <= i < |holes| && holes[i].score.Some?;
      if holes[k].score.Some? {
        assert all == rest + {k};
      } else {
        assert all == rest;
      }
    }
  }

  /** Scoring a hole that had no score adds one to the number of scored holes; scoring it again adds nothing. */
  lemma {:induction false} CountScoredAfterScore(holes: seq<Hole>, number: int, score: int)
    requires FirstIndex(holes, number).Some?
    ensures CountScored(WithScore(holes, number, score)) ==
              CountScored(holes) + (if holes[FirstIndex(holes, number).value].score.None? then 1 else 0)
  {
    var i := FirstIndex(holes, number).value;
    var after := WithScore(holes, number, score);
    CountScoredIsScoredPositions(holes);
    CountScoredIsScoredPositions(after);
    ScoredPositionsAfterScore(holes, after, i);
    AddOneSize(ScoredPositions(holes), i);
  }

  lemma AddOneSize(s: set<int>, i: int)
    ensures |s + {i}| == |s| + (if i in s then 0 else 1)
  {
    if i in s {
      assert s + {i} == s;
    }
  }

  /** Giving hole `i` a score and changing nothing else adds `i` to the scored positions. */
  lemma ScoredPositionsAfterScore(holes: seq<Hole>, after: seq<Hole>, i: int)
    requires |after| == |holes| && 0 <= i < |holes|
    requires after[i].score.Some?
    requires forall j :: 0 <= j < |after| && j != i ==> after[j] == holes[j]
    ensures ScoredPositions(after) == ScoredPositions(holes) + {i}
  {
  }

  lemma {:induction false} SumScoresConcat(a: seq<Hole>, b: seq<Hole>)
    ensures SumScores(a + b) == SumScores(a) + SumScores(b)
  {
    if a == [] {
      assert a + b == b;
    } else {
      assert (a + b)[1..] == a[1..] + b;
      SumScoresConcat(a[1..], b);
    }
  }

  /** Holes without a score add nothing. */
  lemma {:induction false} SumScoresUnscored(holes: seq<Hole>)
    requires forall i :: 0 <= i < |holes| ==> holes[i].score.None?
    ensures SumScores(holes) == 0
  {
    if holes != [] {
      SumScoresUnscored(holes[1..]);
    }
  }

  /** Two hole lists whose scores agree hole by hole have the same total. */
  lemma {:induction false} SumScoresSameScores(a: seq<Hole>, b: seq<Hole>)
    requires |a| == |b|
    requires forall i :: 0 <= i < |a| ==> a[i].score == b[i].score
    ensures SumScores(a) == SumScores(b)
  {
    if a != [] {
      SumScoresSameScores(a[1..], b[1..]);
    }
  }

  /** Replacing one hole changes the total by the difference of the two holes' scores. */
  lemma {:induction false} SumScoresReplace(holes: seq<Hole>, i: nat, h: Hole)
    requires i < |holes|
    ensures SumScores(holes[i := h]) == SumScores(holes) - ScoreOf(holes[i]) + ScoreOf(h)
  {
    if i > 0 {
      assert holes[i := h][1..] == holes[1..][i - 1 := h];
      SumScoresReplace(holes[1..], i - 1, h);
    }
  }

  /** On a course of at most nine holes each nine covers every hole, so the total counts every score twice. */
  lemma {:induction false} AggregatesShortCourse(holes: seq<Hole>)
    requires |holes| <= 9
    ensures FrontNineScore(holes) == SumScores(holes)
    ensures BackNineScore(holes) == SumScores(holes)
  {
    assert Prefix(holes, 9) == holes && Suffix(holes, 9) == holes;
  }

  /** With nine holes or more the nines are the first and the last nine positions. */
  lemma {:induction false} NineSums(holes: seq<Hole>)
    requires |holes| >= 9
    ensures FrontNineScore(holes) == SumScores(holes[..9])
    ensures BackNineScore(holes) == SumScores(holes[|holes| - 9..])
  {
    assert Prefix(holes, 9) == holes[..9];
    assert Suffix(holes, 9) == holes[|holes| - 9..];
  }

  lemma {:induction false} SumScoresThree(a: seq<Hole>, b: seq<Hole>, c: seq<Hole>)
    ensures SumScores(a + b + c) == SumScores(a) + SumScores(b) + SumScores(c)
  {
    SumScoresConcat(a, b);
    SumScoresConcat(a + b, c);
  }

  /** With 9 to 18 holes the nines overlap, and the holes in the overlap are counted twice. */
  lemma {:induction false} AggregatesOverlap(holes: seq<Hole>)
    requires 9 <= |holes| <= 18
    ensures FrontNineScore(holes) + BackNineScore(holes) ==
              SumScores(holes) + SumScores(holes[|holes| - 9..9])
  {
    var n := |holes|;
    NineSums(holes);
    var a, b, c := holes[..n - 9], holes[n - 9..9], holes[9..];
    assert holes[..9] == a + b;
    assert holes[n - 9..] == b + c;
    assert holes == a + b + c;
    SumScoresConcat(a, b);
    SumScoresConcat(b, c);
    SumScoresThree(a, b, c);
  }

  /** On an 18-hole course the front and back nines add up to the sum of all recorded scores. */
  lemma {:induction false} AggregatesEighteen(holes: seq<Hole>)
    requires |holes| == 18
    ensures FrontNineScore(holes) + BackNineScore(holes) == SumScores(holes)
  {
    AggregatesOverlap(holes);
    assert holes[9..9] == [];
  }

  /** With more than 18 holes the holes between the two nines are not counted at all. */
  lemma {:induction false} AggregatesLongCourse(holes: seq<Hole>)
    requires |holes| >= 18
    ensures FrontNineScore(holes) + BackNineScore(holes) + SumScores(holes[9..|holes| - 9]) == SumScores(holes)
  {
    var n := |holes|;
    NineSums(holes);
    var a, b, c := holes[..9], holes[9..n - 9], holes[n - 9..];
    assert holes == a + b + c;
    SumScoresThree(a, b, c);
  }

  // ---------------------------------------------------------------------
  // Edits to one hole
  // ---------------------------------------------------------------------

  /** The holes after `updateScore`: the first hole with that number gets the score, no other hole changes. */
  function WithScore(holes: seq<Hole>, number: int, score: int): (r: seq<Hole>)
    ensures SameNumbers(holes, r)
    ensures FirstIndex(holes, number).None? ==> r == holes
    ensures FirstIndex(holes, number).Some? ==>
              var i := FirstIndex(holes, number).value;
              && r[i] == holes[i].(score := Some(score))
              && forall j :: 0 <= j < |r| && j != i ==> r[j] == holes[j]
  {
    match FirstIndex(holes, number)
    case None => holes
    case Some(i) => holes[i := holes[i].(score := Some(score))]
  }

  /** The holes after `updatePinLocation`: only the matching hole gets the custom pin. */
  function WithCustomPin(holes: seq<Hole>, number: int, location: Coordinate): (r: seq<Hole>)
    ensures SameNumbers(holes, r)
    ensures FirstIndex(holes, number).None? ==> r == holes
    ensures FirstIndex(holes, number).Some? ==>
              var i := FirstIndex(holes, number).value;
              && r[i] == holes[i].(customPinLocation := Some(location))
              && forall j :: 0 <= j < |r| && j != i ==> r[j] == holes[j]
  {
    match FirstIndex(holes, number)
    case None => holes
    case Some(i) => holes[i := holes[i].(customPinLocation := Some(location))]
  }

  /**
   * The tee-box entry after a tee move: the new location, keeping name,
   * distance, rating and slope from an existing entry, or the tee's raw
   * value as name and zeros when there was none.
   */
  function MovedTeeInfo(existing: Option<TeeBoxInfo>, tee: TeeBox, location: Coordinate): (r: TeeBoxInfo)
    ensures r.location == location
    ensures existing.Some? ==>
              r.name == existing.value.name && r.distance == existing.value.distance
              && r.rating == existing.value.rating && r.slope == existing.value.slope
    ensures existing.None? ==> r.name == RawValue(tee) && r.distance == 0 && r.rating == 0.0 && r.slope == 0
  {
    var info := existing.GetOr(TeeBoxInfo(RawValue(tee), 0, Coordinate(0.0, 0.0), 0.0, 0));
    info.(location := location)
  }

  /** The tee-box entry for `tee`, if the hole has one. */
  function TeeEntry(h: Hole, tee: TeeBox): (r: Option<TeeBoxInfo>)
    ensures r.Some? <==> tee in h.teeBoxes
    ensures r.Some? ==> r.value == h.teeBoxes[tee]
  {
    if tee in h.teeBoxes then Some(h.teeBoxes[tee]) else None
  }

  /** The holes after `updateTeeLocation`: only the given tee of the matching hole moves. */
  function WithTeeLocation(holes: seq<Hole>, number: int, tee: TeeBox, location: Coordinate): (r: seq<Hole>)
    ensures SameNumbers(holes, r)
    ensures FirstIndex(holes, number).None? ==> r == holes
    ensures FirstIndex(holes, number).Some? ==>
              var i := FirstIndex(holes, number).value;
              && r[i] == holes[i].(teeBoxes := holes[i].teeBoxes[tee := MovedTeeInfo(TeeEntry(holes[i], tee), tee, location)])
              && forall j :: 0 <= j < |r| && j != i ==> r[j] == holes[j]
  {
    match FirstIndex(holes, number)
    case None => holes
    case Some(i) =>
      var h := holes[i];
      holes[i := h.(teeBoxes := h.teeBoxes[tee := MovedTeeInfo(TeeEntry(h, tee), tee, location)])]
  }

  /** Moving a tee keeps every other tee entry of every hole. */
  lemma {:induction false} TeeMoveKeepsOtherTees(holes: seq<Hole>, number: int, tee: TeeBox, location: Coordinate, j: nat, other: TeeBox)
    requires j < |holes| && other != tee
    ensures WithTeeLocation(holes, number, tee, location)[j].teeBoxes.Keys == holes[j].teeBoxes.Keys + (if FirstIndex(holes, number) == Some(j) then {tee} else {})
    ensures other in holes[j].teeBoxes ==> WithTeeLocation(holes, number, tee, location)[j].teeBoxes[other] == holes[j].teeBoxes[other]
  {
  }

  /** A later score for the same hole replaces the earlier one. */
  lemma {:induction false} ScoreOverwrite(holes: seq<Hole>, number: int, first: int, second: int)
    ensures WithScore(WithScore(holes, number, first), number, second) == WithScore(holes, number, second)
  {
    FirstIndexSameNumbers(holes, WithScore(holes, number, first), number);
  }

  /** Recording a score changes the sum of scores by the difference to the hole's previous score. */
  lemma {:induction false} SumScoresAfterScore(holes: seq<Hole>, number: int, score: int)
    requires FirstIndex(holes, number).Some?
    ensures SumScores(WithScore(holes, number, score)) ==
              SumScores(holes) - ScoreOf(holes[FirstIndex(holes, number).value]) + score
  {
    var i := FirstIndex(holes, number).value;
    SumScoresReplace(holes, i, holes[i].(score := Some(score)));
  }

  /** No edit the view-model makes to a hole changes the course's total par. */
  lemma {:induction false} EditsKeepTotalPar(holes: seq<Hole>, number: int, score: int, tee: TeeBox, location: Coordinate)
    ensures SumPars(WithScore(holes, number, score)) == SumPars(holes)
    ensures SumPars(WithCustomPin(holes, number, location)) == SumPars(holes)
    ensures SumPars(WithTeeLocation(holes, number, tee, location)) == SumPars(holes)
  {
    SumParsSamePars(WithScore(holes, number, score), holes);
    SumParsSamePars(WithCustomPin(holes, number, location), holes);
    SumParsSamePars(WithTeeLocation(holes, number, tee, location), holes);
  }

  /** Pin and tee edits keep every recorded score, so the aggregates stay as they were. */
  lemma {:induction false} GeometryEditsKeepScores(holes: seq<Hole>, number: int, tee: TeeBox, location: Coordinate)
    ensures FrontNineScore(WithCustomPin(holes, number, location)) == FrontNineScore(holes)
    ensures BackNineScore(WithCustomPin(holes, number, location)) == BackNineScore(holes)
    ensures FrontNineScore(WithTeeLocation(holes, number, tee, location)) == FrontNineScore(holes)
    ensures BackNineScore(WithTeeLocation(holes, number, tee, location)) == BackNineScore(holes)
  {
    var p := WithCustomPin(holes, number, location);
    var t := WithTeeLocation(holes, number, tee, location);
    SumScoresSameScores(Prefix(p, 9), Prefix(holes, 9));
    SumScoresSameScores(Suffix(p, 9), Suffix(holes, 9));
    SumScoresSameScores(Prefix(t, 9), Prefix(holes, 9));
    SumScoresSameScores(Suffix(t, 9), Suffix(holes, 9));
  }

  // ---------------------------------------------------------------------
  // Distances
  // ---------------------------------------------------------------------

  /** `currentCourse?.selectedTeeBox ?? .white`. */
  function SelectedTee(course: Option<Course>): TeeBox
  {
    if course.Some? then course.value.selectedTeeBox else TeeBox.White
  }

  /** The current hole's entry for the selected tee, if there is a current hole and it has one. */
  function SelectedTeeInfo(course: Option<Course>, hole: Option<Hole>): (r: Option<TeeBoxInfo>)
    ensures r.Some? <==> hole.Some? && SelectedTee(course) in hole.value.teeBoxes
    ensures r.Some? ==> r.value == hole.value.teeBoxes[SelectedTee(course)]
  {
    if hole.None? then None else TeeEntry(hole.value, SelectedTee(course))
  }

  /** Where distances are measured from: practice location, else GPS fix, each falling back to the tee. */
  function ReferencePoint(isPracticeMode: bool, practiceLocation: Option<Coordinate>,
                          userLocation: Option<Coordinate>, tee: Coordinate): Coordinate
  {
    if isPracticeMode then practiceLocation.GetOr(tee) else userLocation.GetOr(tee)
  }

  /** The pin distances are measured to: the custom pin when set, else the hole's pin. */
  function PinTarget(h: Hole): Coordinate
  {
    h.customPinLocation.GetOr(h.pinLocation)
  }

  /** The inputs of the distance computation other than course and hole. */
  datatype Positioning = Positioning(
    isPracticeMode: bool,
    practiceLocation: Option<Coordinate>,
    userLocation: Option<Coordinate>,
    selectedHazard: Option<Hazard>)

  datatype Distances = Distances(toPin: Option<real>, toHazard: Option<real>)

  /**
   * The distances `updateDistances` publishes. `distance` is the geodesic
   * distance in yards; `previousToHazard` is the distance to a hazard
   * published before, which stays when no hazard is selected.
   */
  function Recompute(distance: (Coordinate, Coordinate) -> real, course: Option<Course>, hole: Option<Hole>,
                     pos: Positioning, previousToHazard: Option<real>): Distances
  {
    match SelectedTeeInfo(course, hole)
    case None => Distances(None, None)
    case Some(info) =>
      var from := ReferencePoint(pos.isPracticeMode, pos.practiceLocation, pos.userLocation, info.location);
      Distances(
        Some(distance(from, PinTarget(hole.value))),
        if pos.selectedHazard.Some? then Some(distance(from, pos.selectedHazard.value.location)) else previousToHazard)
  }

  /** A distance to the pin is published exactly when there is a current hole with an entry for the selected tee. */
  lemma RecomputeNeedsTee(distance: (Coordinate, Coordinate) -> real, course: Option<Course>, hole: Option<Hole>,
                          pos: Positioning, previousToHazard: Option<real>)
    ensures Recompute(distance, course, hole, pos, previousToHazard).toPin.Some? <==> SelectedTeeInfo(course, hole).Some?
    ensures SelectedTeeInfo(course, hole).None? ==> Recompute(distance, course, hole, pos, previousToHazard) == Distances(None, None)
  {
  }

  /**
   * With a current hole and tee: the pin distance is measured from the
   * reference point to the custom pin if set, else the default pin; the
   * hazard distance is refreshed only when a hazard is selected.
   */
  lemma RecomputeWithTee(distance: (Coordinate, Coordinate) -> real, course: Option<Course>, hole: Option<Hole>,
                         pos: Positioning, previousToHazard: Option<real>)
    requires SelectedTeeInfo(course, hole).Some?
    ensures var tee := SelectedTeeInfo(course, hole).value.location;
            var from := if pos.isPracticeMode then pos.practiceLocation.GetOr(tee) else pos.userLocation.GetOr(tee);
            var d := Recompute(distance, course, hole, pos, previousToHazard);
            && (hole.value.customPinLocation.Some? ==> d.toPin == Some(distance(from, hole.value.customPinLocation.value)))
            && (hole.value.customPinLocation.None? ==> d.toPin == Some(distance(from, hole.value.pinLocation)))
            && (pos.selectedHazard.Some? ==> d.toHazard == Some(distance(from, pos.selectedHazard.value.location)))
            && (pos.selectedHazard.None? ==> d.toHazard == previousToHazard)
  {
  }

  /** In practice mode the GPS fix plays no part. */
  lemma PracticeIgnoresGps(distance: (Coordinate, Coordinate) -> real, course: Option<Course>, hole: Option<Hole>,
                           pos: Positioning, gps: Option<Coordinate>, previousToHazard: Option<real>)
    requires pos.isPracticeMode
    ensures Recompute(distance, course, hole, pos.(userLocation := gps), previousToHazard) ==
            Recompute(distance, course, hole, pos, previousToHazard)
  {
  }

  /** Outside practice mode the practice location plays no part. */
  lemma GpsIgnoresPractice(distance: (Coordinate, Coordinate) -> real, course: Option<Course>, hole: Option<Hole>,
                           pos: Positioning, practice: Option<Coordinate>, previousToHazard: Option<real>)
    requires !pos.isPracticeMode
    ensures Recompute(distance, course, hole, pos.(practiceLocation := practice), previousToHazard) ==
            Recompute(distance, course, hole, pos, previousToHazard)
  {
  }

  // ---------------------------------------------------------------------
  // The view-model
  // ---------------------------------------------------------------------

  /**
   * The round invariant: the aggregates are those of the loaded course (all
   * zero before one is loaded), and there is a current hole exactly when the
   * course has holes, with a number that is on the course.
   */
  ghost predicate RoundInvariant(course: Option<Course>, hole: Option<Hole>, front: int, back: int, total: int)
  {
    && total == front + back
    && (course.None? ==> front == 0 && back == 0 && hole.None?)
    && (course.Some? ==>
          var holes := course.value.holes;
          && front == FrontNineScore(holes)
          && back == BackNineScore(holes)
          && (hole.Some? <==> |holes| > 0)
          && (hole.Some? ==> FirstIndex(holes, hole.value.number).Some?))
  }

  /** Loading a course and computing its aggregates establishes the round invariant. */
  lemma {:induction false} LoadEstablishesInvariant(course: Course)
    ensures var holes := course.holes;
            RoundInvariant(Some(course), First(holes), FrontNineScore(holes), BackNineScore(holes),
                           FrontNineScore(holes) + BackNineScore(holes))
  {
    if course.holes != [] {
      assert FirstIndex(course.holes, course.holes[0].number) == Some(0);
    }
  }

  /** Recording a score and recomputing the aggregates keeps the round invariant. */
  lemma {:induction false} ScoreEditKeepsInvariant(course: Course, number: int, score: int,
                                hole: Option<Hole>, front: int, back: int, total: int)
    requires RoundInvariant(Some(course), hole, front, back, total)
    ensures var holes := WithScore(course.holes, number, score);
            RoundInvariant(Some(course.(holes := holes)), hole, FrontNineScore(holes), BackNineScore(holes),
                           FrontNineScore(holes) + BackNineScore(holes))
  {
    KeepsCurrentHole(course.holes, WithScore(course.holes, number, score), hole);
  }

  /** Moving a pin keeps the round invariant. */
  lemma {:induction false} PinEditKeepsInvariant(course: Course, number: int, location: Coordinate,
                              hole: Option<Hole>, front: int, back: int, total: int)
    requires RoundInvariant(Some(course), hole, front, back, total)
    ensures RoundInvariant(Some(course.(holes := WithCustomPin(course.holes, number, location))), hole, front, back, total)
  {
    GeometryEditsKeepScores(course.holes, number, TeeBox.White, location);
    KeepsCurrentHole(course.holes, WithCustomPin(course.holes, number, location), hole);
  }

  /** Moving a tee keeps the round invariant. */
  lemma {:induction false} TeeEditKeepsInvariant(course: Course, number: int, tee: TeeBox, location: Coordinate,
                              hole: Option<Hole>, front: int, back: int, total: int)
    requires RoundInvariant(Some(course), hole, front, back, total)
    ensures RoundInvariant(Some(course.(holes := WithTeeLocation(course.holes, number, tee, location))), hole, front, back, total)
  {
    GeometryEditsKeepScores(course.holes, number, tee, location);
    KeepsCurrentHole(course.holes, WithTeeLocation(course.holes, number, tee, location), hole);
  }

  class CourseViewModel {
    var currentCourse: Option<Course>
    /** A copy of a hole taken when a course is loaded or the player moves; edits to the course do not refresh it. */
    var currentHole: Option<Hole>
    var userLocation: Option<Coordinate>
    var totalScore: int
    var frontNineScore: int
    var backNineScore: int
    var selectedHazard: Option<Hazard>
    var distanceToPin: Option<real>
    var distanceToHazard: Option<real>
    var isPracticeMode: bool
    var practiceLocation: Option<Coordinate>
    /** `Coordinate.distance`: CoreLocation's geodesic distance in yards, left abstract. */
    const distance: (Coordinate, Coordinate) -> real

    ghost predicate Valid()
      reads this`currentCourse, this`currentHole, this`frontNineScore, this`backNineScore, this`totalScore
    {
      RoundInvariant(currentCourse, currentHole, frontNineScore, backNineScore, totalScore)
    }

    function CurrentPositioning(): Positioning
      reads this`isPracticeMode, this`practiceLocation, this`userLocation, this`selectedHazard
    {
      Positioning(isPracticeMode, practiceLocation, userLocation, selectedHazard)
    }

    /** The distances `updateDistances` would publish now. */
    function RecomputedDistances(previousToHazard: Option<real>): Distances
      reads this`currentCourse, this`currentHole, this`isPracticeMode, this`practiceLocation, this`userLocation, this`selectedHazard
    {
      Recompute(distance, currentCourse, currentHole, CurrentPositioning(), previousToHazard)
    }

    constructor (distance: (Coordinate, Coordinate) -> real)
      ensures Valid() && this.distance == distance
      ensures currentCourse.None? && currentHole.None? && userLocation.None? && selectedHazard.None?
      ensures totalScore == 0 && frontNineScore == 0 && backNineScore == 0
      ensures distanceToPin.None? && distanceToHazard.None?
      ensures !isPracticeMode && practiceLocation.None?
    {
      this.distance := distance;
      currentCourse, currentHole, userLocation, selectedHazard := None, None, None, None;
      totalScore, frontNineScore, backNineScore := 0, 0, 0;
      distanceToPin, distanceToHazard := None, None;
      isPracticeMode, practiceLocation := false, None;
    }

    /** `scoreToPar`: the total score less the course par, 0 without a course. */
    function ScoreToPar(): (r: int)
      reads this
      ensures currentCourse.None? ==> r == 0
      ensures Valid() && currentCourse.Some? ==>
                r == FrontNineScore(currentCourse.value.holes) + BackNineScore(currentCourse.value.holes) - TotalPar(currentCourse.value)
      ensures Valid() && currentCourse.Some? && |currentCourse.value.holes| == 18 ==>
                r == SumScores(currentCourse.value.holes) - TotalPar(currentCourse.value)
    {
      if currentCourse.None? then 0
      else
        AggregatesEighteenIfSo(currentCourse.value.holes);
        totalScore - TotalPar(currentCourse.value)
    }

    /** `holesInProgress`: how many holes have a score, between 0 and the number of holes. */
    function HolesInProgress(): (r: nat)
      reads this
      ensures currentCourse.None? ==> r == 0
      ensures currentCourse.Some? ==> r == |ScoredPositions(currentCourse.value.holes)|
      ensures currentCourse.Some? ==> r <= |currentCourse.value.holes|
      ensures currentCourse.Some? ==>
                (r == 0 <==> forall i :: 0 <= i < |currentCourse.value.holes| ==> currentCourse.value.holes[i].score.None?)
    {
      if currentCourse.None? then 0
      else
        CountScoredIsScoredPositions(currentCourse.value.holes);
        CountScored(currentCourse.value.holes)
    }

    /** `loadCourse`: the course becomes current, its first hole the current hole, and the aggregates are recomputed. */
    method LoadCourse(course: Course)
      requires Valid()
      modifies this`currentCourse, this`currentHole, this`frontNineScore, this`backNineScore, this`totalScore
      ensures Valid()
      ensures currentCourse == Some(course)
      ensures currentHole == First(course.holes)
      ensures frontNineScore == FrontNineScore(course.holes) && backNineScore == BackNineScore(course.holes)
      ensures totalScore == frontNineScore + backNineScore
    {
      LoadEstablishesInvariant(course);
      currentCourse := Some(course);
      currentHole := First(course.holes);
      UpdateScores();
    }

    /** `nextHole`: one hole on in play order, unless the current hole is the last. */
    method NextHole()
      requires Valid()
      modifies this`currentHole
      ensures Valid()
      ensures currentHole == NextHoleOf(currentCourse, old(currentHole))
    {
      if currentCourse.None? || currentHole.None? {
        return;
      }
      var course := currentCourse.value;
      var index := FirstIndex(course.holes, currentHole.value.number);
      if index.None? || index.value + 1 >= |course.holes| {
        return;
      }
      currentHole := Some(course.holes[index.value + 1]);
    }

    /** `previousHole`: one hole back in play order, unless the current hole is the first. */
    method PreviousHole()
      requires Valid()
      modifies this`currentHole
      ensures Valid()
      ensures currentHole == PreviousHoleOf(currentCourse, old(currentHole))
    {
      if currentCourse.None? || currentHole.None? {
        return;
      }
      var course := currentCourse.value;
      var index := FirstIndex(course.holes, currentHole.value.number);
      if index.None? || index.value == 0 {
        return;
      }
      currentHole := Some(course.holes[index.value - 1]);
    }

    /**
     * `recordShot`: the shot goes onto a copy of the current hole that is
     * then dropped, and the aggregates are recomputed, so nothing changes.
     */
    method RecordShot()
      requires Valid()
      modifies this`frontNineScore, this`backNineScore, this`totalScore
      ensures Valid()
      ensures frontNineScore == old(frontNineScore) && backNineScore == old(backNineScore)
      ensures totalScore == old(totalScore)
    {
      if currentHole.None? {
        return;
      }
      UpdateScores();
    }

    /** `updateScore`: the score goes onto the course's hole with that number; the aggregates follow. */
    method UpdateScore(hole: Hole, score: int)
      requires Valid()
      modifies this`currentCourse, this`frontNineScore, this`backNineScore, this`totalScore
      ensures Valid()
      ensures old(currentCourse).None? ==> currentCourse.None?
      ensures old(currentCourse).Some? ==>
                currentCourse == Some(old(currentCourse).value.(holes := WithScore(old(currentCourse).value.holes, hole.number, score)))
      ensures currentCourse.Some? ==>
                frontNineScore == FrontNineScore(currentCourse.value.holes)
                && backNineScore == BackNineScore(currentCourse.value.holes)
                && totalScore == frontNineScore + backNineScore
    {
      if currentCourse.None? {
        return;
      }
      var course := currentCourse.value;
      if FirstIndex(course.holes, hole.number).None? {
        return;
      }
      ScoreEditKeepsInvariant(course, hole.number, score, currentHole, frontNineScore, backNineScore, totalScore);
      course := course.(holes := WithScore(course.holes, hole.number, score));
      currentCourse := Some(course);
      UpdateScores();
    }

    /** `updateScores`: front nine over the first nine holes, back nine over the last nine. */
    method UpdateScores()
      modifies this`frontNineScore, this`backNineScore, this`totalScore
      ensures currentCourse.None? ==>
                frontNineScore == old(frontNineScore) && backNineScore == old(backNineScore) && totalScore == old(totalScore)
      ensures currentCourse.Some? ==>
                frontNineScore == FrontNineScore(currentCourse.value.holes)
                && backNineScore == BackNineScore(currentCourse.value.holes)
                && totalScore == frontNineScore + backNineScore
    {
      if currentCourse.None? {
        return;
      }
      var holes := currentCourse.value.holes;
      frontNineScore := SumScores(Prefix(holes, 9));
      backNineScore := SumScores(Suffix(holes, 9));
      totalScore := frontNineScore + backNineScore;
    }

    /** `selectTeeBox`: a loaded course gets the new tee, and the distances are recomputed. */
    method SelectTeeBox(teeBox: TeeBox)
      requires Valid()
      modifies this`currentCourse, this`distanceToPin, this`distanceToHazard
      ensures Valid()
      ensures old(currentCourse).None? ==> currentCourse.None?
      ensures old(currentCourse).Some? ==> currentCourse == Some(old(currentCourse).value.(selectedTeeBox := teeBox))
      ensures Distances(distanceToPin, distanceToHazard) == RecomputedDistances(old(distanceToHazard))
    {
      if currentCourse.Some? {
        currentCourse := Some(currentCourse.value.(selectedTeeBox := teeBox));
      }
      UpdateDistances();
    }

    /**
     * `updatePinLocation`: the custom pin goes onto the course's hole with
     * that number. The current hole is a copy and keeps its old pin.
     */
    method UpdatePinLocation(hole: Hole, newLocation: Coordinate)
      requires Valid()
      modifies this`currentCourse, this`distanceToPin, this`distanceToHazard
      ensures Valid()
      ensures old(currentCourse).None? ==> currentCourse.None?
      ensures old(currentCourse).Some? ==>
                currentCourse == Some(old(currentCourse).value.(holes := WithCustomPin(old(currentCourse).value.holes, hole.number, newLocation)))
      ensures (old(currentCourse).Some? && FirstIndex(old(currentCourse).value.holes, hole.number).Some?) ==>
                Distances(distanceToPin, distanceToHazard) == RecomputedDistances(old(distanceToHazard))
      ensures (old(currentCourse).None? || FirstIndex(old(currentCourse).value.holes, hole.number).None?) ==>
                distanceToPin == old(distanceToPin) && distanceToHazard == old(distanceToHazard)
    {
      if currentCourse.None? {
        return;
      }
      var course := currentCourse.value;
      if FirstIndex(course.holes, hole.number).None? {
        return;
      }
      PinEditKeepsInvariant(course, hole.number, newLocation, currentHole, frontNineScore, backNineScore, totalScore);
      course := course.(holes := WithCustomPin(course.holes, hole.number, newLocation));
      currentCourse := Some(course);
      UpdateDistances();
    }

    /**
     * `updateTeeLocation`: the selected tee of the course's hole with that
     * number moves, keeping its other fields or starting from zeros.
     */
    method UpdateTeeLocation(hole: Hole, newLocation: Coordinate)
      requires Valid()
      modifies this`currentCourse, this`distanceToPin, this`distanceToHazard
      ensures Valid()
      ensures old(currentCourse).None? ==> currentCourse.None?
      ensures old(currentCourse).Some? ==>
                var c := old(currentCourse).value;
                currentCourse == Some(c.(holes := WithTeeLocation(c.holes, hole.number, c.selectedTeeBox, newLocation)))
      ensures (old(currentCourse).Some? && FirstIndex(old(currentCourse).value.holes, hole.number).Some?) ==>
                Distances(distanceToPin, distanceToHazard) == RecomputedDistances(old(distanceToHazard))
      ensures (old(currentCourse).None? || FirstIndex(old(currentCourse).value.holes, hole.number).None?) ==>
                distanceToPin == old(distanceToPin) && distanceToHazard == old(distanceToHazard)
    {
      if currentCourse.None? {
        return;
      }
      var course := currentCourse.value;
      if FirstIndex(course.holes, hole.number).None? {
        return;
      }
      var teeBox := course.selectedTeeBox;
      TeeEditKeepsInvariant(course, hole.number, teeBox, newLocation, currentHole, frontNineScore, backNineScore, totalScore);
      course := course.(holes := WithTeeLocation(course.holes, hole.number, teeBox, newLocation));
      currentCourse := Some(course);
      UpdateDistances();
    }

    /**
     * `togglePracticeMode`: entering seeds the practice location from the
     * current hole's selected tee when it has one; leaving clears it.
     */
    method TogglePracticeMode()
      requires Valid()
      modifies this`isPracticeMode, this`practiceLocation, this`distanceToPin, this`distanceToHazard
      ensures Valid()
      ensures isPracticeMode == !old(isPracticeMode)
      ensures isPracticeMode && SelectedTeeInfo(currentCourse, currentHole).Some? ==>
                practiceLocation == Some(SelectedTeeInfo(currentCourse, currentHole).value.location)
      ensures isPracticeMode && SelectedTeeInfo(currentCourse, currentHole).None? ==>
                practiceLocation == old(practiceLocation)
      ensures !isPracticeMode ==> practiceLocation.None?
      ensures Distances(distanceToPin, distanceToHazard) == RecomputedDistances(old(distanceToHazard))
    {
      isPracticeMode := !isPracticeMode;
      if isPracticeMode {
        var teeBox := SelectedTeeInfo(currentCourse, currentHole);
        if teeBox.Some? {
          practiceLocation := Some(teeBox.value.location);
        }
      } else {
        practiceLocation := None;
      }
      UpdateDistances();
    }

    /** `updatePracticeLocation`: the simulated position moves and the distances follow. */
    method UpdatePracticeLocation(location: Coordinate)
      requires Valid()
      modifies this`practiceLocation, this`distanceToPin, this`distanceToHazard
      ensures Valid()
      ensures practiceLocation == Some(location)
      ensures Distances(distanceToPin, distanceToHazard) == RecomputedDistances(old(distanceToHazard))
    {
      practiceLocation := Some(location);
      UpdateDistances();
    }

    /** `updateDistances`. */
    method UpdateDistances()
      modifies this`distanceToPin, this`distanceToHazard
      ensures Distances(distanceToPin, distanceToHazard) == RecomputedDistances(old(distanceToHazard))
    {
      var teeBox := SelectedTeeInfo(currentCourse, currentHole);
      if teeBox.None? {
        distanceToPin := None;
        distanceToHazard := None;
        return;
      }
      var hole := currentHole.value;
      var currentLocation: Coordinate;
      if isPracticeMode {
        currentLocation := practiceLocation.GetOr(teeBox.value.location);
      } else if userLocation.Some? {
        currentLocation := userLocation.value;
      } else {
        currentLocation := teeBox.value.location;
      }
      var pinLocation := hole.customPinLocation.GetOr(hole.pinLocation);
      distanceToPin := Some(distance(currentLocation, pinLocation));
      if selectedHazard.Some? {
        distanceToHazard := Some(distance(currentLocation, selectedHazard.value.location));
      }
    }

    /**
     * `locationManager(_:didUpdateLocations:)`: the last fix (none for an
     * empty list) is stored; the distances follow only outside practice mode.
     */
    method LocationUpdate(locations: seq<Coordinate>)
      requires Valid()
      modifies this`userLocation, this`distanceToPin, this`distanceToHazard
      ensures Valid()
      ensures userLocation == (if locations == [] then None else Some(locations[|locations| - 1]))
      ensures !isPracticeMode ==> Distances(distanceToPin, distanceToHazard) == RecomputedDistances(old(distanceToHazard))
      ensures isPracticeMode ==> distanceToPin == old(distanceToPin) && distanceToHazard == old(distanceToHazard)
    {
      userLocation := if locations == [] then None else Some(locations[|locations| - 1]);
      if !isPracticeMode {
        UpdateDistances();
      }
    }

    /** `selectHazard`: the hazard of interest is set or cleared. */
    method SelectHazard(hazard: Option<Hazard>)
      requires Valid()
      modifies this`selectedHazard
      ensures Valid()
      ensures selectedHazard == hazard
    {
      selectedHazard := hazard;
    }
  }

  /** Helper for the editing methods: a current hole found on the course is still found after an edit. */
  lemma {:induction false} KeepsCurrentHole(before: seq<Hole>, after: seq<Hole>, current: Option<Hole>)
    requires SameNumbers(before, after)
    ensures current.Some? ==> FirstIndex(after, current.value.number) == FirstIndex(before, current.value.number)
  {
    if current.Some? {
      FirstIndexSameNumbers(before, after, current.value.number);
    }
  }

  /** Helper for ScoreToPar: on 18 holes the nines add up to all scores. */
  lemma {:induction false} AggregatesEighteenIfSo(holes: seq<Hole>)
    ensures |holes| == 18 ==> FrontNineScore(holes) + BackNineScore(holes) == SumScores(holes)
  {
    if |holes| == 18 {
      AggregatesEighteen(holes);
    }
  }
}
