/**
 * The calculator page: five slider values pass through a fixed weighted
 * formula, `Math.floor` and a clamp to the FICO range; the result is shown
 * with a category label and a ring whose colour and dash offset derive from it.
 */
module CreditCalculator {
  import opened Wrappers
  import Bands
  import Text
  import CreditCity
  import Dashboard

  datatype FormData = FormData(
    paymentHistory: int,
    creditUtilization: int,
    creditHistoryLength: int,
    creditMix: int,
    newCredit: int)

  /** The sliders' starting positions. */
  const DEFAULT_FORM: FormData := FormData(50, 30, 15, 10, 10)

  /** The `name` attributes of the five sliders. */
  datatype Field = PaymentHistory | CreditUtilization | CreditHistoryLength | CreditMix | NewCredit

  function Get(form: FormData, name: Field): int {
    match name
    case PaymentHistory => form.paymentHistory
    case CreditUtilization => form.creditUtilization
    case CreditHistoryLength => form.creditHistoryLength
    case CreditMix => form.creditMix
    case NewCredit => form.newCredit
  }

  /** Within the sliders' bounds: 0 to 100, the history length 0 to 30. */
  predicate InSliderRange(form: FormData) {
    && 0 <= form.paymentHistory <= 100
    && 0 <= form.creditUtilization <= 100
    && 0 <= form.creditHistoryLength <= 30
    && 0 <= form.creditMix <= 100
    && 0 <= form.newCredit <= 100
  }

  /**
   * `handleChange`: the slider named `name` reports the decimal text
   * `value`, which is `parseInt`ed into that field alone.
   */
  function HandleChange(prev: FormData, name: Field, value: string): (next: FormData)
    requires Text.ParseInt(value).Some?
    ensures Get(next, name) == Text.ParseInt(value).value
    ensures forall other :: other != name ==> Get(next, other) == Get(prev, other)
  {
    var v := Text.ParseInt(value).value;
    match name
    case PaymentHistory => prev.(paymentHistory := v)
    case CreditUtilization => prev.(creditUtilization := v)
    case CreditHistoryLength => prev.(creditHistoryLength := v)
    case CreditMix => prev.(creditMix := v)
    case NewCredit => prev.(newCredit := v)
  }

  /** A slider reporting `${n}` sets its field to `n`. */
  lemma HandleChangeSliderValue(prev: FormData, name: Field, n: int)
    ensures Text.ParseInt(Text.IntToString(n)).Some?
    ensures Get(HandleChange(prev, name, Text.IntToString(n)), name) == n
  {
    Text.ParseIntOfIntToString(n);
  }

  /** The weighted sum before the clamp, computed on exact numbers and floored. */
  function RawScore(form: FormData): int {
    (form.paymentHistory as real * 3.5
      + (100 - form.creditUtilization) as real * 3.0
      + form.creditHistoryLength as real * 1.5
      + form.creditMix as real * 1.0
      + form.newCredit as real * 1.0).Floor
  }

  /** Every term is a multiple of one half, so the floor is an integer division by 2. */
  lemma RawScoreExact(form: FormData)
    ensures RawScore(form) == (7 * form.paymentHistory + 3 * form.creditHistoryLength) / 2
      + 3 * (100 - form.creditUtilization) + form.creditMix + form.newCredit
  {
    var n := 7 * form.paymentHistory + 3 * form.creditHistoryLength;
    var q, r := n / 2, n % 2;
    var k := 3 * (100 - form.creditUtilization) + form.creditMix + form.newCredit;
    var sum := form.paymentHistory as real * 3.5
      + (100 - form.creditUtilization) as real * 3.0
      + form.creditHistoryLength as real * 1.5
      + form.creditMix as real * 1.0
      + form.newCredit as real * 1.0;
    assert n == 2 * q + r && 0 <= r < 2;
    assert sum == (q + k) as real + r as real / 2.0;
    assert (q + k) as real <= sum < (q + k) as real + 1.0;
  }

  /** `Math.max(300, Math.min(850, score))`. */
  function CalculateScore(form: FormData): (score: int)
    ensures Bands.MIN_SCORE <= score <= Bands.MAX_SCORE
    ensures Bands.MIN_SCORE <= RawScore(form) <= Bands.MAX_SCORE ==> score == RawScore(form)
    ensures RawScore(form) < Bands.MIN_SCORE ==> score == Bands.MIN_SCORE
    ensures RawScore(form) > Bands.MAX_SCORE ==> score == Bands.MAX_SCORE
  {
    var raw := RawScore(form);
    var capped := if 850 < raw then 850 else raw;
    if 300 < capped then capped else 300
  }

  /** Within the sliders' bounds the raw score runs from 0 to 895. */
  lemma RawScoreRange(form: FormData)
    requires InSliderRange(form)
    ensures 0 <= RawScore(form) <= 895
  {
    RawScoreExact(form);
  }

  /** `b` is at least as good as `a` in every factor. */
  predicate AtLeastAsGood(a: FormData, b: FormData) {
    && a.paymentHistory <= b.paymentHistory
    && a.creditUtilization >= b.creditUtilization
    && a.creditHistoryLength <= b.creditHistoryLength
    && a.creditMix <= b.creditMix
    && a.newCredit <= b.newCredit
  }

  /**
   * The score never drops when payment history, history length, mix or
   * new credit rise, or when utilisation falls; the clamp keeps this.
   */
  lemma ScoreMonotone(a: FormData, b: FormData)
    requires AtLeastAsGood(a, b)
    ensures RawScore(a) <= RawScore(b)
    ensures CalculateScore(a) <= CalculateScore(b)
  {
    RawScoreExact(a);
    RawScoreExact(b);
  }

  /** The worst slider positions fall below the range, the best ones above it. */
  lemma ExtremesReachBothClampBounds()
    ensures InSliderRange(FormData(0, 100, 0, 0, 0)) && InSliderRange(FormData(100, 0, 30, 100, 100))
    ensures RawScore(FormData(0, 100, 0, 0, 0)) == 0
    ensures CalculateScore(FormData(0, 100, 0, 0, 0)) == 300
    ensures RawScore(FormData(100, 0, 30, 100, 100)) == 895
    ensures CalculateScore(FormData(100, 0, 30, 100, 100)) == 850
  {
    RawScoreExact(FormData(0, 100, 0, 0, 0));
    RawScoreExact(FormData(100, 0, 30, 100, 100));
  }

  /** The default sliders give floor(427.5) = 427. */
  lemma DefaultScore()
    ensures RawScore(DEFAULT_FORM) == 427
    ensures CalculateScore(DEFAULT_FORM) == 427
  {
    RawScoreExact(DEFAULT_FORM);
  }

  // ----- Result display -----

  /** The label under the ring. */
  function ScoreLabel(score: int): (category: string)
    ensures category == Bands.BandName(score)
  {
    Bands.RankIntervals(score);
    if score < 580 then "Poor"
    else if score < 670 then "Fair"
    else if score < 740 then "Good"
    else if score < 800 then "Very Good"
    else "Excellent"
  }

  const RING_COLORS: seq<string> := ["#ef4444", "#f59e0b", "#10b981", "#3b82f6"]

  /** The ring's stroke has four bands: Very Good and Excellent share blue. */
  function RingColor(score: int): (stroke: string)
    ensures stroke == RING_COLORS[if Bands.Rank(score) < 3 then Bands.Rank(score) else 3]
    ensures stroke == "#3b82f6" <==> score >= 740
  {
    Bands.RankIntervals(score);
    if score < 580 then "#ef4444"
    else if score < 670 then "#f59e0b"
    else if score < 740 then "#10b981"
    else "#3b82f6"
  }

  /**
   * The calculator's ring and the dashboard's ring use one palette and
   * agree below 800; at 800 and above only the dashboard turns purple.
   */
  lemma RingColorAgainstDashboard(score: int)
    ensures score < 800 ==> RingColor(score) == Dashboard.RingStroke(score)
    ensures score >= 800 ==> RingColor(score) == "#3b82f6" && Dashboard.RingStroke(score) == "#8b5cf6"
  {
    Bands.RankIntervals(score);
  }

  /** Every page names the bands alike. */
  lemma LabelsAgree(score: int)
    ensures ScoreLabel(score) == Dashboard.ScoreLabel(score) == CreditCity.ScoreCategory(score)
  {
  }

  const RING_LENGTH: real := 753.6

  /** `753.6 - 753.6 * (s - 300) / 550`: the part of the ring left undrawn. */
  function DashOffset(score: int): (offset: real)
    ensures score == Bands.MIN_SCORE ==> offset == RING_LENGTH
    ensures score == Bands.MAX_SCORE ==> offset == 0.0
    ensures Bands.MIN_SCORE <= score <= Bands.MAX_SCORE ==> 0.0 <= offset <= RING_LENGTH
  {
    753.6 - (753.6 * (score - 300) as real / 550.0)
  }

  lemma DashOffsetDecreasing(s: int, t: int)
    requires s < t
    ensures DashOffset(t) < DashOffset(s)
  {
  }

  // ----- The 3D tab -----

  /**
   * `<ThreeDCreditScore score={creditScore || 700} />`: the result (700
   * before any calculation, since null is falsy) goes into the `score` slot.
   */
  function VisualizationProps(creditScore: Option<int>): (props: CreditCity.ViewProps)
    ensures props.initialScore.None?
    ensures props.score.Some?
    ensures creditScore.Some? && creditScore.value != 0 ==> props.score.value == creditScore.value
    ensures creditScore.None? ==> props.score.value == 700
  {
    var shown := match creditScore
      case Some(s) => if s == 0 then 700 else s
      case None => 700;
    CreditCity.ViewProps(None, Some(shown))
  }

  /** The 3D view does not read the `score` slot: it always mounts at 700, whatever was calculated. */
  lemma VisualizationIgnoresResult(form: FormData)
    ensures CreditCity.MountScore(VisualizationProps(Some(CalculateScore(form)))) == 700
    ensures CalculateScore(form) != 700 ==>
      VisualizationProps(Some(CalculateScore(form))).score.value != CreditCity.MountScore(VisualizationProps(Some(CalculateScore(form))))
  {
  }
}
