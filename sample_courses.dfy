/**
 * The built-in course catalogue (nuts2pin/Data/SampleCourses.swift): Pebble
 * Beach Golf Links with 18 holes. Holes 1 and 2 carry all five tee boxes.
 * Holes 3 to 18 are written against a Hole initialiser with a single
 * `teeLocation` and hazards with a `radius`, neither of which the Hole and
 * Hazard records have; here those holes have no tee-box entries and their
 * hazards have an empty description.
 */
module SampleCourses {
  import opened CourseModel

  const Hole1: Hole :=
    NewHole(1, 4, 380,
            map[
              TeeBox.Black := TeeBoxInfo("Black", 380, Coordinate(36.5682, -121.9497), 74.7, 145),
              TeeBox.Blue := TeeBoxInfo("Blue", 360, Coordinate(36.5683, -121.9498), 72.8, 140),
              TeeBox.White := TeeBoxInfo("White", 340, Coordinate(36.5684, -121.9499), 70.5, 135),
              TeeBox.Gold := TeeBoxInfo("Gold", 320, Coordinate(36.5685, -121.9500), 68.2, 130),
              TeeBox.Red := TeeBoxInfo("Red", 300, Coordinate(36.5686, -121.9501), 65.9, 125)
            ],
            Coordinate(36.5687, -121.9502),
            [Hazard(HazardType.Bunker, Coordinate(36.5688, -121.9503), "Front right bunker"),
             Hazard(HazardType.Water, Coordinate(36.5689, -121.9504), "Ocean on the right")])

  const Hole2: Hole :=
    NewHole(2, 5, 516,
            map[
              TeeBox.Black := TeeBoxInfo("Black", 516, Coordinate(36.5690, -121.9505), 75.2, 146),
              TeeBox.Blue := TeeBoxInfo("Blue", 496, Coordinate(36.5691, -121.9506), 73.3, 141),
              TeeBox.White := TeeBoxInfo("White", 476, Coordinate(36.5692, -121.9507), 71.0, 136),
              TeeBox.Gold := TeeBoxInfo("Gold", 456, Coordinate(36.5693, -121.9508), 68.7, 131),
              TeeBox.Red := TeeBoxInfo("Red", 436, Coordinate(36.5694, -121.9509), 66.4, 126)
            ],
            Coordinate(36.5695, -121.9510),
            [Hazard(HazardType.Bunker, Coordinate(36.5696, -121.9511), "Fairway bunker"),
             Hazard(HazardType.Water, Coordinate(36.5697, -121.9512), "Ocean on the left")])

  const Hole3: Hole :=
    NewHole(3, 4, 404, map[], Coordinate(36.5665, -121.9465),
            [Hazard(HazardType.Bunker, Coordinate(36.5668, -121.9468), "")])

  const Hole4: Hole :=
    NewHole(4, 4, 331, map[], Coordinate(36.5655, -121.9455),
            [Hazard(HazardType.Water, Coordinate(36.5658, -121.9458), "")])

  const Hole5: Hole :=
    NewHole(5, 3, 195, map[], Coordinate(36.5645, -121.9445),
            [Hazard(HazardType.Bunker, Coordinate(36.5648, -121.9448), "")])

  const Hole6: Hole :=
    NewHole(6, 5, 523, map[], Coordinate(36.5635, -121.9435),
            [Hazard(HazardType.Water, Coordinate(36.5638, -121.9438), "")])

  const Hole7: Hole :=
    NewHole(7, 3, 109, map[], Coordinate(36.5625, -121.9425),
            [Hazard(HazardType.Bunker, Coordinate(36.5628, -121.9428), "")])

  const Hole8: Hole :=
    NewHole(8, 4, 428, map[], Coordinate(36.5615, -121.9415),
            [Hazard(HazardType.Water, Coordinate(36.5618, -121.9418), "")])

  const Hole9: Hole :=
    NewHole(9, 4, 526, map[], Coordinate(36.5605, -121.9405),
            [Hazard(HazardType.Water, Coordinate(36.5608, -121.9408), "")])

  const Hole10: Hole :=
    NewHole(10, 4, 495, map[], Coordinate(36.5595, -121.9395),
            [Hazard(HazardType.Water, Coordinate(36.5598, -121.9398), "")])

  const Hole11: Hole :=
    NewHole(11, 4, 390, map[], Coordinate(36.5585, -121.9385),
            [Hazard(HazardType.Bunker, Coordinate(36.5588, -121.9388), "")])

  const Hole12: Hole :=
    NewHole(12, 3, 202, map[], Coordinate(36.5575, -121.9375),
            [Hazard(HazardType.Water, Coordinate(36.5578, -121.9378), "")])

  const Hole13: Hole :=
    NewHole(13, 4, 445, map[], Coordinate(36.5565, -121.9365),
            [Hazard(HazardType.Bunker, Coordinate(36.5568, -121.9368), "")])

  const Hole14: Hole :=
    NewHole(14, 5, 580, map[], Coordinate(36.5555, -121.9355),
            [Hazard(HazardType.Water, Coordinate(36.5558, -121.9358), "")])

  const Hole15: Hole :=
    NewHole(15, 4, 397, map[], Coordinate(36.5545, -121.9345),
            [Hazard(HazardType.Bunker, Coordinate(36.5548, -121.9348), "")])

  const Hole16: Hole :=
    NewHole(16, 4, 403, map[], Coordinate(36.5535, -121.9335),
            [Hazard(HazardType.Water, Coordinate(36.5538, -121.9338), "")])

  const Hole17: Hole :=
    NewHole(17, 3, 178, map[], Coordinate(36.5525, -121.9325),
            [Hazard(HazardType.Water, Coordinate(36.5528, -121.9328), "")])

  const Hole18: Hole :=
    NewHole(18, 5, 543, map[], Coordinate(36.5515, -121.9315),
            [Hazard(HazardType.Water, Coordinate(36.5518, -121.9318), "")])

  const FrontNine: seq<Hole> := [Hole1, Hole2, Hole3, Hole4, Hole5, Hole6, Hole7, Hole8, Hole9]
  const BackNine: seq<Hole> := [Hole10, Hole11, Hole12, Hole13, Hole14, Hole15, Hole16, Hole17, Hole18]

  const PebbleBeach: Course := NewCourse("Pebble Beach Golf Links", FrontNine + BackNine)

  const AllCourses: seq<Course> := [PebbleBeach]

  /** Pebble Beach has 18 holes, numbered 1 to 18 in play order. */
  lemma PebbleBeachNumbering()
    ensures |PebbleBeach.holes| == 18
    ensures forall i :: 0 <= i < 18 ==> PebbleBeach.holes[i].number == i + 1
  {
    assert PebbleBeach.holes == FrontNine + BackNine;
  }

  /** Every par lies between 3 and 5. */
  lemma PebbleBeachParRange()
    ensures forall i :: 0 <= i < |PebbleBeach.holes| ==> 3 <= PebbleBeach.holes[i].par <= 5
  {
    assert PebbleBeach.holes == FrontNine + BackNine;
  }

  /** Front nine and back nine are par 36 each, the course par 72. */
  lemma PebbleBeachPar()
    ensures |PebbleBeach.holes| == 18
    ensures SumPars(Prefix(PebbleBeach.holes, 9)) == 36
    ensures SumPars(Suffix(PebbleBeach.holes, 9)) == 36
    ensures TotalPar(PebbleBeach) == 72
  {
    var holes := PebbleBeach.holes;
    assert holes == FrontNine + BackNine;
    assert Prefix(holes, 9) == FrontNine;
    assert Suffix(holes, 9) == BackNine;
    SumParsNine(Hole1, Hole2, Hole3, Hole4, Hole5, Hole6, Hole7, Hole8, Hole9);
    SumParsNine(Hole10, Hole11, Hole12, Hole13, Hole14, Hole15, Hole16, Hole17, Hole18);
    SumParsConcat(FrontNine, BackNine);
  }

  /** The par of nine holes in a row, written out. */
  lemma SumParsNine(h1: Hole, h2: Hole, h3: Hole, h4: Hole, h5: Hole, h6: Hole, h7: Hole, h8: Hole, h9: Hole)
    ensures SumPars([h1, h2, h3, h4, h5, h6, h7, h8, h9]) ==
              h1.par + h2.par + h3.par + h4.par + h5.par + h6.par + h7.par + h8.par + h9.par
  {
    assert [h9][1..] == [];
    assert SumPars([h9]) == h9.par;
    assert [h8, h9][1..] == [h9];
    assert SumPars([h8, h9]) == h8.par + h9.par;
    assert [h7, h8, h9][1..] == [h8, h9];
    assert SumPars([h7, h8, h9]) == h7.par + h8.par + h9.par;
    assert [h6, h7, h8, h9][1..] == [h7, h8, h9];
    assert SumPars([h6, h7, h8, h9]) == h6.par + h7.par + h8.par + h9.par;
    assert [h5, h6, h7, h8, h9][1..] == [h6, h7, h8, h9];
    assert SumPars([h5, h6, h7, h8, h9]) == h5.par + h6.par + h7.par + h8.par + h9.par;
    assert [h4, h5, h6, h7, h8, h9][1..] == [h5, h6, h7, h8, h9];
    assert SumPars([h4, h5, h6, h7, h8, h9]) == h4.par + h5.par + h6.par + h7.par + h8.par + h9.par;
    assert [h3, h4, h5, h6, h7, h8, h9][1..] == [h4, h5, h6, h7, h8, h9];
    assert SumPars([h3, h4, h5, h6, h7, h8, h9]) == h3.par + h4.par + h5.par + h6.par + h7.par + h8.par + h9.par;
    assert [h2, h3, h4, h5, h6, h7, h8, h9][1..] == [h3, h4, h5, h6, h7, h8, h9];
    assert SumPars([h2, h3, h4, h5, h6, h7, h8, h9]) == h2.par + h3.par + h4.par + h5.par + h6.par + h7.par + h8.par + h9.par;
    assert [h1, h2, h3, h4, h5, h6, h7, h8, h9][1..] == [h2, h3, h4, h5, h6, h7, h8, h9];
  }

  /** Tee distances fall by 20 yards at each step from black to red. */
  predicate TeesStepByTwenty(h: Hole)
  {
    && (forall t :: t in AllTeeBoxes ==> t in h.teeBoxes)
    && forall k :: 0 <= k < 4 ==>
         h.teeBoxes[AllTeeBoxes[k]].distance - h.teeBoxes[AllTeeBoxes[k + 1]].distance == 20
  }

  /** Holes 1 and 2 carry every tee box, step by 20 yards, and the black tee is the nominal length. */
  lemma FirstHolesTees()
    ensures PebbleBeach.holes[0] == Hole1 && PebbleBeach.holes[1] == Hole2
    ensures TeesStepByTwenty(Hole1) && TeesStepByTwenty(Hole2)
    ensures Hole1.teeBoxes[TeeBox.Black].distance == Hole1.distance
    ensures Hole2.teeBoxes[TeeBox.Black].distance == Hole2.distance
  {
    assert PebbleBeach.holes == FrontNine + BackNine;
    assert FrontNine[0] == Hole1 && FrontNine[1] == Hole2;
    StepByTwenty(Hole1, 380);
    StepByTwenty(Hole2, 516);
  }

  /** A hole whose five tees lie `top`, `top` - 20, ..., `top` - 80 yards out. */
  lemma StepByTwenty(h: Hole, top: int)
    requires forall t :: t in AllTeeBoxes ==> t in h.teeBoxes
    requires h.teeBoxes[TeeBox.Black].distance == top
    requires h.teeBoxes[TeeBox.Blue].distance == top - 20
    requires h.teeBoxes[TeeBox.White].distance == top - 40
    requires h.teeBoxes[TeeBox.Gold].distance == top - 60
    requires h.teeBoxes[TeeBox.Red].distance == top - 80
    ensures TeesStepByTwenty(h)
  {
    assert AllTeeBoxes == [TeeBox.Black, TeeBox.Blue, TeeBox.White, TeeBox.Gold, TeeBox.Red];
  }

  /** The catalogue is exactly Pebble Beach. */
  lemma CatalogueIsPebbleBeach()
    ensures AllCourses == [PebbleBeach]
    ensures PebbleBeach.selectedTeeBox == TeeBox.White
    ensures forall i :: 0 <= i < |PebbleBeach.holes| ==>
              PebbleBeach.holes[i].score.None? && PebbleBeach.holes[i].customPinLocation.None?
  {
    assert PebbleBeach.holes == FrontNine + BackNine;
  }
}
