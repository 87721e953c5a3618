/**
 * Rounds played on the built-in Pebble Beach course through the view-model's
 * operations, as a client would call them.
 */
module Scenarios {
  import opened Wrappers
  import opened CourseModel
  import opened SampleCourses
  import opened ViewModel

  lemma PebbleBeachUniqueNumbers()
    ensures UniqueNumbers(PebbleBeach.holes)
  {
    PebbleBeachNumbering();
  }

  /** From the first hole, 17 calls of `nextHole` reach hole 18, and an 18th call stays there. */
  lemma PebbleBeachWalk()
    ensures AdvanceTimes(Some(PebbleBeach), First(PebbleBeach.holes), 17) == Some(PebbleBeach.holes[17])
    ensures AdvanceTimes(Some(PebbleBeach), First(PebbleBeach.holes), 18) == Some(PebbleBeach.holes[17])
    ensures PebbleBeach.holes[17].number == 18
  {
    PebbleBeachNumbering();
    PebbleBeachUniqueNumbers();
    LoadThenAdvanceReachesLast(PebbleBeach);
  }

  /**
   * Scoring hole 3 as 5 and then as 4 leaves a total of 4 (only the later
   * score counts) and a score to par of 4 - 72.
   */
  method ScoreOverwriteRound(distance: (Coordinate, Coordinate) -> real) returns (total: int, toPar: int)
    ensures total == 4
    ensures toPar == 4 - 72
  {
    var vm := new CourseViewModel(distance);
    vm.LoadCourse(PebbleBeach);
    vm.UpdateScore(Hole3, 5);
    vm.UpdateScore(Hole3, 4);
    PebbleBeachNumbering();
    PebbleBeachPar();
    CatalogueIsPebbleBeach();
    var holes := PebbleBeach.holes;
    assert FirstIndex(holes, 3) == Some(2) by {
      PebbleBeachUniqueNumbers();
      FirstIndexOfUnique(holes, 2, 3);
    }
    ScoreOverwrite(holes, 3, 5, 4);
    SumScoresUnscored(holes);
    SumScoresAfterScore(holes, 3, 4);
    assert |WithScore(holes, 3, 4)| == 18;
    AggregatesEighteen(WithScore(holes, 3, 4));
    EditsKeepTotalPar(holes, 3, 4, TeeBox.White, Coordinate(0.0, 0.0));
    total := vm.totalScore;
    toPar := vm.ScoreToPar();
  }

  /**
   * Recording a score on a loaded course's hole raises `holesInProgress` by one
   * when the hole had no score, and leaves it when the hole is scored again.
   */
  method ScoreRaisesProgress(vm: CourseViewModel, hole: Hole, score: int)
    requires vm.Valid() && vm.currentCourse.Some?
    requires FirstIndex(vm.currentCourse.value.holes, hole.number).Some?
    modifies vm`currentCourse, vm`frontNineScore, vm`backNineScore, vm`totalScore
    ensures vm.Valid()
    ensures var i := FirstIndex(old(vm.currentCourse).value.holes, hole.number).value;
            vm.HolesInProgress() ==
              old(vm.HolesInProgress()) + (if old(vm.currentCourse).value.holes[i].score.None? then 1 else 0)
  {
    var holes := vm.currentCourse.value.holes;
    CountScoredAfterScore(holes, hole.number, score);
    vm.UpdateScore(hole, score);
  }

  /**
   * Entering practice mode on hole 1 seeds the practice location with the
   * white tee; a GPS fix arriving in practice mode leaves the distance to the
   * pin as it was.
   */
  method PracticeRound(distance: (Coordinate, Coordinate) -> real, gps: Coordinate)
    returns (seeded: Option<Coordinate>, before: Option<real>, after: Option<real>)
    ensures seeded == Some(Hole1.teeBoxes[TeeBox.White].location)
    ensures before == Some(distance(Hole1.teeBoxes[TeeBox.White].location, Hole1.pinLocation))
    ensures after == before
  {
    var vm := new CourseViewModel(distance);
    vm.LoadCourse(PebbleBeach);
    assert PebbleBeach.holes[0] == Hole1;
    vm.TogglePracticeMode();
    seeded := vm.practiceLocation;
    before := vm.distanceToPin;
    vm.LocationUpdate([gps]);
    after := vm.distanceToPin;
  }

  /**
   * Moving the pin of the first hole while on it does not move the pin the
   * distance is measured to, because the current hole is a copy; after
   * stepping to the second hole and back, a recomputation measures to the
   * new pin.
   */
  method StalePinRound(distance: (Coordinate, Coordinate) -> real, course: Course, pin: Coordinate)
    returns (onEdit: Option<real>, afterReturn: Option<real>)
    requires |course.holes| >= 2 && UniqueNumbers(course.holes)
    requires course.selectedTeeBox in course.holes[0].teeBoxes
    requires course.holes[0].customPinLocation.None?
    ensures var first := course.holes[0];
            onEdit == Some(distance(first.teeBoxes[course.selectedTeeBox].location, first.pinLocation))
    ensures var first := course.holes[0];
            afterReturn == Some(distance(first.teeBoxes[course.selectedTeeBox].location, pin))
  {
    var vm := new CourseViewModel(distance);
    vm.LoadCourse(course);
    var holes := course.holes;
    var first := holes[0];
    FirstIndexOfUnique(holes, 0, first.number);
    vm.UpdatePinLocation(first, pin);
    onEdit := vm.distanceToPin;
    var edited := WithCustomPin(holes, first.number, pin);
    assert edited[0] == first.(customPinLocation := Some(pin));
    assert UniqueNumbers(edited);
    afterReturn := StepAwayAndBack(vm);
  }

  /**
   * From the first hole, `nextHole`, `previousHole` and a re-selection of
   * the tee: the current hole is refreshed from the course, and the distance
   * to the pin is measured from the tee to the course's own pin for it.
   */
  method StepAwayAndBack(vm: CourseViewModel) returns (toPin: Option<real>)
    requires vm.Valid() && vm.currentCourse.Some? && vm.currentHole.Some?
    requires var holes := vm.currentCourse.value.holes;
             |holes| >= 2 && UniqueNumbers(holes) && vm.currentHole.value.number == holes[0].number
    requires vm.currentCourse.value.selectedTeeBox in vm.currentCourse.value.holes[0].teeBoxes
    requires !vm.isPracticeMode && vm.userLocation.None?
    modifies vm`currentHole, vm`currentCourse, vm`distanceToPin, vm`distanceToHazard
    ensures var c := old(vm.currentCourse.value);
            toPin == Some(vm.distance(c.holes[0].teeBoxes[c.selectedTeeBox].location, PinTarget(c.holes[0])))
  {
    var holes := vm.currentCourse.value.holes;
    FirstIndexOfUnique(holes, 0, vm.currentHole.value.number);
    vm.NextHole();
    NavigationClamped(vm.currentCourse.value, 0, old(vm.currentHole.value));
    vm.PreviousHole();
    NavigationClamped(vm.currentCourse.value, 1, holes[1]);
    vm.SelectTeeBox(vm.currentCourse.value.selectedTeeBox);
    toPin := vm.distanceToPin;
  }

  /** The same round on hole 1 of Pebble Beach, from the white tee. */
  method PebbleBeachStalePin(distance: (Coordinate, Coordinate) -> real, pin: Coordinate)
    returns (onEdit: Option<real>, afterReturn: Option<real>)
    ensures onEdit == Some(distance(Hole1.teeBoxes[TeeBox.White].location, Hole1.pinLocation))
    ensures afterReturn == Some(distance(Hole1.teeBoxes[TeeBox.White].location, pin))
  {
    PebbleBeachNumbering();
    PebbleBeachUniqueNumbers();
    assert PebbleBeach.holes[0] == Hole1;
    onEdit, afterReturn := StalePinRound(distance, PebbleBeach, pin);
  }
}
