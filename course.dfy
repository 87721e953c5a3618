/**
 * The value records of a golf course (nuts2pin/Models/Course.swift):
 * coordinates, tee boxes, hazards, shots, holes and courses, and the
 * course's total par.
 */
module CourseModel {
  import opened Wrappers

  /** A latitude/longitude pair in degrees. */
  datatype Coordinate = Coordinate(latitude: real, longitude: real)

  /** The SwiftUI colours the modelled code hands to views. */
  datatype Color = Black | Blue | White | Yellow | Red | Primary

  /** The tee-box colours, in declaration order (`TeeBox.allCases`). */
  datatype TeeBox = Black | Blue | White | Gold | Red

  const AllTeeBoxes: seq<TeeBox> := [TeeBox.Black, TeeBox.Blue, TeeBox.White, TeeBox.Gold, TeeBox.Red]

  /** The raw string value each tee box carries in Course.swift. */
  function RawValue(t: TeeBox): string
  {
    match t
    case Black => "Black"
    case Blue => "Blue"
    case White => "White"
    case Gold => "Gold"
    case Red => "Red"
  }

  /** `TeeBox.color`: every case has its namesake colour except gold, which is drawn yellow. */
  function TeeColor(t: TeeBox): (c: Color)
    ensures t != TeeBox.Gold ==> RawValue(t) == ColorLabel(c)
    ensures t == TeeBox.Gold <==> c == Color.Yellow
  {
    match t
    case Black => Color.Black
    case Blue => Color.Blue
    case White => Color.White
    case Gold => Color.Yellow
    case Red => Color.Red
  }

  /** The name of a colour, used only to relate colours to tee-box names. */
  function ColorLabel(c: Color): string
  {
    match c
    case Black => "Black"
    case Blue => "Blue"
    case White => "White"
    case Yellow => "Yellow"
    case Red => "Red"
    case Primary => "Primary"
  }

  /** Every tee box appears exactly once in `AllTeeBoxes`, and the raw values are all different. */
  lemma AllTeeBoxesComplete(t: TeeBox)
    ensures t in AllTeeBoxes
    ensures |AllTeeBoxes| == 5
    ensures forall i, j :: 0 <= i < j < |AllTeeBoxes| ==> RawValue(AllTeeBoxes[i]) != RawValue(AllTeeBoxes[j])
  {
  }

  datatype TeeBoxInfo = TeeBoxInfo(name: string, distance: int, location: Coordinate, rating: real, slope: int)

  datatype HazardType = Bunker | Water | OutOfBounds | Tree | Rough

  function HazardRawValue(h: HazardType): string
  {
    match h
    case Bunker => "Bunker"
    case Water => "Water"
    case OutOfBounds => "Out of Bounds"
    case Tree => "Tree"
    case Rough => "Rough"
  }

  /** The five hazard kinds have five different raw values. */
  lemma HazardRawValuesDistinct(a: HazardType, b: HazardType)
    ensures HazardRawValue(a) == HazardRawValue(b) <==> a == b
  {
  }

  datatype Hazard = Hazard(hazardType: HazardType, location: Coordinate, description: string)

  datatype Club =
    | Driver | ThreeWood | FiveWood | Hybrid | FourIron | FiveIron | SixIron | SevenIron
    | EightIron | NineIron | PitchingWedge | GapWedge | SandWedge | LobWedge | Putter

  function ClubRawValue(c: Club): string
  {
    match c
    case Driver => "Driver"
    case ThreeWood => "3 Wood"
    case FiveWood => "5 Wood"
    case Hybrid => "Hybrid"
    case FourIron => "4 Iron"
    case FiveIron => "5 Iron"
    case SixIron => "6 Iron"
    case SevenIron => "7 Iron"
    case EightIron => "8 Iron"
    case NineIron => "9 Iron"
    case PitchingWedge => "Pitching Wedge"
    case GapWedge => "Gap Wedge"
    case SandWedge => "Sand Wedge"
    case LobWedge => "Lob Wedge"
    case Putter => "Putter"
  }

  /** The fifteen clubs have fifteen different raw values. */
  lemma ClubRawValuesDistinct(a: Club, b: Club)
    ensures ClubRawValue(a) == ClubRawValue(b) <==> a == b
  {
  }

  datatype Shot = Shot(club: Club, startLocation: Coordinate, endLocation: Coordinate, distance: real)

  /**
   * A hole. `customPinLocation`, `shots` and `score` are the per-round
   * overlays; `score` is the field the view-model reads and writes.
   */
  datatype Hole = Hole(
    number: int,
    par: int,
    distance: int,
    teeBoxes: map<TeeBox, TeeBoxInfo>,
    pinLocation: Coordinate,
    customPinLocation: Option<Coordinate>,
    hazards: seq<Hazard>,
    shots: seq<Shot>,
    score: Option<int>)

  /** The memberwise initialiser: no custom pin, no shots, no score yet. */
  function NewHole(number: int, par: int, distance: int, teeBoxes: map<TeeBox, TeeBoxInfo>,
                   pinLocation: Coordinate, hazards: seq<Hazard>): (h: Hole)
    ensures h.number == number && h.par == par && h.distance == distance
    ensures h.teeBoxes == teeBoxes && h.pinLocation == pinLocation && h.hazards == hazards
    ensures h.customPinLocation.None? && h.shots == [] && h.score.None?
  {
    Hole(number, par, distance, teeBoxes, pinLocation, None, hazards, [], None)
  }

  datatype Course = Course(name: string, holes: seq<Hole>, selectedTeeBox: TeeBox)

  /** A new course starts with the white tee selected. */
  function NewCourse(name: string, holes: seq<Hole>): (c: Course)
    ensures c.name == name && c.holes == holes
    ensures c.selectedTeeBox == TeeBox.White
  {
    Course(name, holes, TeeBox.White)
  }

  function SumPars(holes: seq<Hole>): int
  {
    if holes == [] then 0 else holes[0].par + SumPars(holes[1..])
  }

  /** `Course.totalPar`: the pars of the holes added up. */
  function TotalPar(c: Course): int
  {
    SumPars(c.holes)
  }

  lemma TotalParEmpty(c: Course)
    requires c.holes == []
    ensures TotalPar(c) == 0
  {
  }

  /** Total par distributes over concatenation of the hole lists. */
  lemma {:induction false} SumParsConcat(a: seq<Hole>, b: seq<Hole>)
    ensures SumPars(a + b) == SumPars(a) + SumPars(b)
  {
    if a == [] {
      assert a + b == b;
    } else {
      assert (a + b)[1..] == a[1..] + b;
      SumParsConcat(a[1..], b);
    }
  }

  /** Two hole lists whose pars agree hole by hole have the same total par. */
  lemma {:induction false} SumParsSamePars(a: seq<Hole>, b: seq<Hole>)
    requires |a| == |b|
    requires forall i :: 0 <= i < |a| ==> a[i].par == b[i].par
    ensures SumPars(a) == SumPars(b)
  {
    if a != [] {
      SumParsSamePars(a[1..], b[1..]);
    }
  }

  /** Total par ignores the selected tee box. */
  lemma TotalParIgnoresTeeSelection(c: Course, t: TeeBox)
    ensures TotalPar(c.(selectedTeeBox := t)) == TotalPar(c)
  {
  }

  function Min(a: int, b: int): int
  {
    if a <= b then a else b
  }

  /** Swift's `prefix(k)`: the first k elements, or all of them when there are fewer. */
  function Prefix<T>(s: seq<T>, k: nat): seq<T>
  {
    if k <= |s| then s[..k] else s
  }

  /** Swift's `suffix(k)`: the last k elements, or all of them when there are fewer. */
  function Suffix<T>(s: seq<T>, k: nat): seq<T>
  {
    if k <= |s| then s[|s| - k..] else s
  }

  /**
   * `prefix(k)` is the first min(k, n) elements and `suffix(k)` the last
   * min(k, n); together they cover the sequence once when k + k == n.
   */
  lemma PrefixSuffixShape<T>(s: seq<T>, k: nat)
    ensures |Prefix(s, k)| == Min(k, |s|) && Prefix(s, k) == s[..|Prefix(s, k)|]
    ensures |Suffix(s, k)| == Min(k, |s|) && Suffix(s, k) == s[|s| - |Suffix(s, k)|..]
    ensures k + k == |s| ==> Prefix(s, k) + Suffix(s, k) == s
  {
  }

  /** On 18 holes the first nine and the last nine split the course exactly. */
  lemma {:induction false} NinesSplitEighteen<T>(s: seq<T>)
    requires |s| == 18
    ensures Prefix(s, 9) + Suffix(s, 9) == s
  {
  }
}
