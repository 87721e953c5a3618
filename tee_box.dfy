/**
 * The tee-box enumeration as nuts2pin/Models/TeeBox.swift declares it:
 * lower-case raw values, a capitalised display name, a colour name and a
 * back-to-front order. The cases are those of CourseModel.TeeBox.
 */
module TeeBoxModel {
  import opened CourseModel

  /** The raw string value each case carries in TeeBox.swift. */
  function LowerRawValue(t: TeeBox): string
  {
    match t
    case Black => "black"
    case Blue => "blue"
    case White => "white"
    case Gold => "gold"
    case Red => "red"
  }

  function ToUpper(c: char): char
  {
    if 'a' <= c <= 'z' then (c as int - 'a' as int + 'A' as int) as char else c
  }

  function ToLower(c: char): char
  {
    if 'A' <= c <= 'Z' then (c as int - 'A' as int + 'a' as int) as char else c
  }

  function LowerAll(s: string): (r: string)
    ensures |r| == |s|
    ensures forall i :: 0 <= i < |s| ==> r[i] == ToLower(s[i])
  {
    if s == [] then [] else [ToLower(s[0])] + LowerAll(s[1..])
  }

  /**
   * Foundation's `capitalized` on a single word: the first letter upper-cased
   * and the remaining letters lower-cased.
   */
  function Capitalized(word: string): (r: string)
    ensures |r| == |word|
    ensures word != [] ==> r[0] == ToUpper(word[0]) && r[1..] == LowerAll(word[1..])
  {
    if word == [] then [] else [ToUpper(word[0])] + LowerAll(word[1..])
  }

  function DisplayName(t: TeeBox): string
  {
    Capitalized(LowerRawValue(t))
  }

  /** `color` in TeeBox.swift is a colour NAME. */
  function ColorName(t: TeeBox): string
  {
    match t
    case Black => "Black"
    case Blue => "Blue"
    case White => "White"
    case Gold => "Gold"
    case Red => "Red"
  }

  /** `order`: black is the back tee (0), red the front tee (4). */
  function Order(t: TeeBox): (r: nat)
    ensures r < 5
  {
    match t
    case Black => 0
    case Blue => 1
    case White => 2
    case Gold => 3
    case Red => 4
  }

  /** The display name is the raw value with its first letter upper-cased ("gold" gives "Gold"). */
  lemma DisplayNameCapitalizesRaw(t: TeeBox)
    ensures |DisplayName(t)| == |LowerRawValue(t)| > 0
    ensures DisplayName(t)[0] == ToUpper(LowerRawValue(t)[0])
    ensures DisplayName(t)[1..] == LowerRawValue(t)[1..]
  {
    var raw := LowerRawValue(t);
    assert forall i :: 0 <= i < |raw| ==> 'a' <= raw[i] <= 'z';
  }

  lemma {:induction false} LowerAllOfLower(s: string)
    requires forall i :: 0 <= i < |s| ==> 'a' <= s[i] <= 'z'
    ensures LowerAll(s) == s
  {
    if s != [] {
      LowerAllOfLower(s[1..]);
    }
  }

  /** The colour name equals the display name, and both equal Course.swift's raw value. */
  lemma ColorNameIsDisplayName(t: TeeBox)
    ensures ColorName(t) == DisplayName(t)
    ensures DisplayName(t) == RawValue(t)
  {
    var raw := LowerRawValue(t);
    LowerAllOfLower(raw[1..]);
  }

  /** `order` is injective. */
  lemma OrderInjective(a: TeeBox, b: TeeBox)
    ensures Order(a) == Order(b) <==> a == b
  {
  }

  /** `order` is each case's position in declaration order. */
  lemma OrderIsDeclarationPosition(t: TeeBox)
    ensures Order(t) < |AllTeeBoxes| && AllTeeBoxes[Order(t)] == t
    ensures forall i :: 0 <= i < |AllTeeBoxes| ==> Order(AllTeeBoxes[i]) == i
  {
  }
}
