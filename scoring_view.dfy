/**
 * The pure helpers of the scorecard screen (nuts2pin/Views/ScoringView.swift):
 * the score-to-par label and its colour, one scorecard row's cells, and the
 * front-nine and back-nine sections. ScorecardRow's private copies of
 * `formatScoreToPar` and `scoreColor` have the same text as ScoringView's,
 * so both are modelled by the one pair of functions below.
 */
module ScoringView {
  import opened Wrappers
  import opened CourseModel

  function DigitChar(d: nat): (c: char)
    requires d < 10
    ensures '0' <= c <= '9'
  {
    "0123456789"[d]
  }

  function DigitValue(c: char): (d: nat)
    requires '0' <= c <= '9'
    ensures d < 10
  {
    c as int - '0' as int
  }

  predicate AllDigits(s: string)
  {
    forall i :: 0 <= i < |s| ==> '0' <= s[i] <= '9'
  }

  /** The decimal digits of a natural number, most significant first, without leading zeros. */
  function NatToDecimal(n: nat): (r: string)
    ensures |r| > 0 && AllDigits(r)
    ensures r[0] == '0' ==> n == 0 && r == "0"
    decreases n
  {
    if n < 10 then [DigitChar(n)] else NatToDecimal(n / 10) + [DigitChar(n % 10)]
  }

  /** The value of a string of decimal digits. */
  function DecimalValue(s: string): nat
    requires AllDigits(s)
  {
    if s == [] then 0 else 10 * DecimalValue(s[..|s| - 1]) + DigitValue(s[|s| - 1])
  }

  lemma {:induction false} NatToDecimalRoundTrip(n: nat)
    ensures DecimalValue(NatToDecimal(n)) == n
    decreases n
  {
    var r := NatToDecimal(n);
    if n < 10 {
      assert r == [DigitChar(n)];
    } else {
      NatToDecimalRoundTrip(n / 10);
      assert r[..|r| - 1] == NatToDecimal(n / 10);
    }
  }

  /** Swift's string interpolation of an `Int`: a minus sign for a negative value, then its digits. */
  function Decimal(i: int): (r: string)
    ensures |r| > 0
    ensures r[0] == '-' <==> i < 0
  {
    if i < 0 then "-" + NatToDecimal(-i) else NatToDecimal(i)
  }

  /** Reads back what `Decimal` writes. */
  function ParseDecimal(s: string): Option<int>
  {
    if |s| > 0 && s[0] == '-' && AllDigits(s[1..]) then Some(0 - DecimalValue(s[1..]))
    else if AllDigits(s) then Some(DecimalValue(s))
    else None
  }

  lemma DecimalRoundTrip(i: int)
    ensures ParseDecimal(Decimal(i)) == Some(i)
  {
    var n: nat := if i < 0 then -i else i;
    var d := NatToDecimal(n);
    NatToDecimalRoundTrip(n);
    if i < 0 {
      assert Decimal(i) == "-" + d;
      ParseNegative(d);
    } else {
      assert Decimal(i) == d;
      ParseDigits(d);
    }
  }

  lemma ParseNegative(d: string)
    requires AllDigits(d)
    ensures ParseDecimal("-" + d) == Some(0 - DecimalValue(d))
  {
    var s := "-" + d;
    assert s[0] == '-';
    assert s[1..] == d;
  }

  lemma ParseDigits(d: string)
    requires |d| > 0 && AllDigits(d)
    ensures ParseDecimal(d) == Some(DecimalValue(d))
  {
    assert '0' <= d[0] <= '9';
  }

  /** `formatScoreToPar`: a leading "+" for a score over par, otherwise the plain decimal. */
  function FormatScoreToPar(score: int): (r: string)
  {
    if score > 0 then "+" + Decimal(score) else Decimal(score)
  }

  /** Reads back a score-to-par label. */
  function ParseScoreToPar(s: string): Option<int>
  {
    if |s| > 0 && s[0] == '+' then ParseDecimal(s[1..]) else ParseDecimal(s)
  }

  /**
   * The label starts with "+" exactly when the score is over par, with "-"
   * exactly when it is under par, is "0" at par, and reads back as the score.
   */
  lemma FormatScoreToParMeaning(score: int)
    ensures |FormatScoreToPar(score)| > 0
    ensures FormatScoreToPar(score)[0] == '+' <==> score > 0
    ensures FormatScoreToPar(score)[0] == '-' <==> score < 0
    ensures FormatScoreToPar(score) == "0" <==> score == 0
    ensures ParseScoreToPar(FormatScoreToPar(score)) == Some(score)
  {
    var r := FormatScoreToPar(score);
    DecimalRoundTrip(score);
    if score > 0 {
      assert r[1..] == Decimal(score);
      assert r != "0";
    } else if score < 0 {
      assert r != "0";
    } else {
      assert r == "0";
    }
  }

  /** `scoreColor`: red under par, blue over par, the primary colour at par. */
  function ScoreColor(score: int): (c: Color)
    ensures c == Color.Red <==> score < 0
    ensures c == Color.Blue <==> score > 0
    ensures c == Color.Primary <==> score == 0
  {
    if score < 0 then Color.Red else if score > 0 then Color.Blue else Color.Primary
  }

  /** The texts one `ScorecardRow` shows, and the colour of its +/- column when it has one. */
  datatype RowCells = RowCells(hole: string, par: string, score: string, diff: string, diffColor: Option<Color>)

  function ScorecardRow(hole: Hole, score: Option<int>): (r: RowCells)
    ensures r.hole == Decimal(hole.number) && r.par == Decimal(hole.par)
    ensures score.None? ==> r.score == "-" && r.diff == "-" && r.diffColor.None?
    ensures score.Some? ==>
              && r.score == Decimal(score.value)
              && r.diff == FormatScoreToPar(score.value - hole.par)
              && r.diffColor == Some(ScoreColor(score.value - hole.par))
  {
    if score.None? then RowCells(Decimal(hole.number), Decimal(hole.par), "-", "-", None)
    else
      RowCells(Decimal(hole.number), Decimal(hole.par), Decimal(score.value),
               FormatScoreToPar(score.value - hole.par), Some(ScoreColor(score.value - hole.par)))
  }

  /** A row shows "-" in its score column, and in its +/- column, exactly when no score is recorded. */
  lemma DashMeansNoScore(hole: Hole, score: Option<int>)
    ensures ScorecardRow(hole, score).score == "-" <==> score.None?
    ensures ScorecardRow(hole, score).diff == "-" <==> score.None?
  {
    if score.Some? {
      var s := score.value;
      var d := s - hole.par;
      if s < 0 {
        assert Decimal(s)[1..] == NatToDecimal(-s);
      }
      if d < 0 {
        assert Decimal(d)[1..] == NatToDecimal(-d);
      }
    }
  }

  /** The holes listed in the front-nine section. */
  function FrontNineSection(holes: seq<Hole>): seq<Hole>
  {
    Prefix(holes, 9)
  }

  /** The holes listed in the back-nine section. */
  function BackNineSection(holes: seq<Hole>): seq<Hole>
  {
    Suffix(holes, 9)
  }

  /** On a course of 18 holes the two sections list every hole once, in play order. */
  lemma {:induction false} SectionsCoverEighteen(holes: seq<Hole>)
    requires |holes| == 18
    ensures FrontNineSection(holes) == holes[..9]
    ensures BackNineSection(holes) == holes[9..]
    ensures FrontNineSection(holes) + BackNineSection(holes) == holes
  {
    NinesSplitEighteen(holes);
  }
}
