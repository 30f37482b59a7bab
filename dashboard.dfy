/**
 * The dashboard: classifiers of the displayed score, the status colours of
 * the credit factors, and the coordinate maps of the score-history chart
 * and the score ring, over the dashboard's hardcoded data.
 */
module Dashboard {
  import opened Wrappers
  import Bands

  // ----- Hardcoded data -----

  /** The displayed score; the dashboard never changes it. */
  const CREDIT_SCORE: int := 750

  datatype Factor = Factor(name: string, value: int, weight: int, status: string)

  const CREDIT_FACTORS: seq<Factor> := [
    Factor("Payment History", 95, 35, "excellent"),
    Factor("Credit Utilization", 25, 30, "good"),
    Factor("Credit Age", 70, 15, "good"),
    Factor("Account Mix", 65, 10, "fair"),
    Factor("Recent Inquiries", 85, 10, "good")
  ]

  datatype MonthScore = MonthScore(month: string, score: int)

  const HISTORICAL_SCORES: seq<MonthScore> := [
    MonthScore("Jan", 715), MonthScore("Feb", 725), MonthScore("Mar", 730),
    MonthScore("Apr", 740), MonthScore("May", 745), MonthScore("Jun", 750)
  ]

  /** The improvement the caption under the chart announces. */
  const IMPROVEMENT_POINTS: int := 35

  function Weights(fs: seq<Factor>): int {
    if fs == [] then 0 else fs[0].weight + Weights(fs[1..])
  }

  /** The factor weights are percentages of one whole. */
  lemma FactorWeightsSumTo100()
    ensures Weights(CREDIT_FACTORS) == 100
  {
    var fs := CREDIT_FACTORS;
    var tail3 := fs[1..][1..][1..];
    assert tail3 == [fs[3], fs[4]] && tail3[1..] == [fs[4]] && tail3[1..][1..] == [];
    assert Weights(tail3[1..][1..]) == 0;
    assert Weights(tail3[1..]) == 10;
    assert Weights(tail3) == 20;
    assert Weights(fs[1..][1..]) == 35;
    assert Weights(fs[1..]) == 65;
  }

  predicate NonDecreasing(h: seq<MonthScore>) {
    forall i, j :: 0 <= i < j < |h| ==> h[i].score <= h[j].score
  }

  /**
   * The history only rises, ends at the displayed score, and rises by the
   * number of points its caption states.
   */
  lemma HistoryMatchesCaption()
    ensures NonDecreasing(HISTORICAL_SCORES)
    ensures HISTORICAL_SCORES[|HISTORICAL_SCORES| - 1].score == CREDIT_SCORE
    ensures HISTORICAL_SCORES[|HISTORICAL_SCORES| - 1].score - HISTORICAL_SCORES[0].score == IMPROVEMENT_POINTS
  {
  }

  // ----- Classifiers -----

  const TEXT_COLORS: seq<string> := ["text-red-500", "text-yellow-500", "text-green-500", "text-blue-500", "text-purple-500"]

  /** `getScoreColor`: the class of the score's digits. */
  function ScoreTextColor(score: int): (cls: string)
    ensures cls == TEXT_COLORS[Bands.Rank(score)]
  {
    Bands.RankIntervals(score);
    if score < 580 then "text-red-500"
    else if score < 670 then "text-yellow-500"
    else if score < 740 then "text-green-500"
    else if score < 800 then "text-blue-500"
    else "text-purple-500"
  }

  const RING_STROKES: seq<string> := ["#ef4444", "#f59e0b", "#10b981", "#3b82f6", "#8b5cf6"]

  /** The stroke of the score ring. */
  function RingStroke(score: int): (stroke: string)
    ensures stroke == RING_STROKES[Bands.Rank(score)]
  {
    Bands.RankIntervals(score);
    if score < 580 then "#ef4444"
    else if score < 670 then "#f59e0b"
    else if score < 740 then "#10b981"
    else if score < 800 then "#3b82f6"
    else "#8b5cf6"
  }

  /** The label under the ring. */
  function ScoreLabel(score: int): (category: string)
    ensures category == Bands.BandName(score)
  {
    Bands.RankIntervals(score);
    if score < 580 then "Poor"
    else if score < 670 then "Fair"
    else if score < 740 then "Good"
    else if score < 800 then "Very Good"
    else "Excellent"
  }

  const STATUS_CLASSES: seq<string> := ["bg-green-500", "bg-blue-500", "bg-yellow-500", "bg-red-500"]
  const STATUSES: seq<string> := ["excellent", "good", "fair", "poor"]
  const UNKNOWN_STATUS_CLASS: string := "bg-gray-500"

  /** `getStatusColor`: the dot and bar class of a factor's status. */
  function StatusColor(status: string): (cls: string)
    ensures forall i :: 0 <= i < |STATUSES| ==> (status == STATUSES[i] ==> cls == STATUS_CLASSES[i])
    ensures status !in STATUSES ==> cls == UNKNOWN_STATUS_CLASS
  {
    match status
    case "excellent" => "bg-green-500"
    case "good" => "bg-blue-500"
    case "fair" => "bg-yellow-500"
    case "poor" => "bg-red-500"
    case _ => "bg-gray-500"
  }

  /** The four statuses get four different classes, none of them the fallback. */
  lemma StatusColorsDistinct(s: string, t: string)
    requires s in STATUSES && t in STATUSES && s != t
    ensures StatusColor(s) != StatusColor(t)
    ensures StatusColor(s) != UNKNOWN_STATUS_CLASS
  {
  }

  /** Every factor of the table has a known status. */
  lemma FactorStatusesKnown()
    ensures forall i :: 0 <= i < |CREDIT_FACTORS| ==> StatusColor(CREDIT_FACTORS[i].status) != UNKNOWN_STATUS_CLASS
  {
    forall i | 0 <= i < |CREDIT_FACTORS|
      ensures StatusColor(CREDIT_FACTORS[i].status) != UNKNOWN_STATUS_CLASS
    {
      assert CREDIT_FACTORS[i].status in STATUSES;
    }
  }

  /** The displayed 750 is Very Good everywhere on the card. */
  lemma DisplayedScoreIsVeryGood()
    ensures ScoreLabel(CREDIT_SCORE) == "Very Good"
    ensures ScoreTextColor(CREDIT_SCORE) == "text-blue-500"
    ensures RingStroke(CREDIT_SCORE) == "#3b82f6"
  {
    Bands.RankIntervals(CREDIT_SCORE);
  }

  // ----- Ring -----

  const RING_LENGTH: real := 540.8

  /** `540.8 - 540.8 * (s - 300) / 550`: the part of the ring left undrawn. */
  function RingDashOffset(score: int): (offset: real)
    ensures score == Bands.MIN_SCORE ==> offset == RING_LENGTH
    ensures score == Bands.MAX_SCORE ==> offset == 0.0
    ensures Bands.MIN_SCORE <= score <= Bands.MAX_SCORE ==> 0.0 <= offset <= RING_LENGTH
  {
    540.8 - (540.8 * (score - 300) as real / 550.0)
  }

  lemma RingDashOffsetDecreasing(s: int, t: int)
    requires s < t
    ensures RingDashOffset(t) < RingDashOffset(s)
  {
  }

  // ----- History chart -----

  const BAR_COLORS: seq<string> := ["bg-red-500", "bg-yellow-500", "bg-green-500", "bg-blue-500"]

  /** `((s - 300) / 550) * 100`: bar height in percent. */
  function BarHeight(score: int): (height: real)
    ensures score == Bands.MIN_SCORE ==> height == 0.0
    ensures score == Bands.MAX_SCORE ==> height == 100.0
    ensures Bands.MIN_SCORE <= score <= Bands.MAX_SCORE ==> 0.0 <= height <= 100.0
  {
    ((score - 300) as real / 550.0) * 100.0
  }

  lemma BarHeightIncreasing(s: int, t: int)
    requires s < t
    ensures BarHeight(s) < BarHeight(t)
  {
  }

  /** The bar colour has four bands: Very Good and Excellent share blue. */
  function BarColor(score: int): (cls: string)
    ensures cls == BAR_COLORS[if Bands.Rank(score) < 3 then Bands.Rank(score) else 3]
    ensures cls == "bg-blue-500" <==> score >= 740
  {
    Bands.RankIntervals(score);
    if score < 580 then "bg-red-500"
    else if score < 670 then "bg-yellow-500"
    else if score < 740 then "bg-green-500"
    else "bg-blue-500"
  }

  /**
   * `(index * 100) / (length - 1)`. With a single entry this is 0 / 0,
   * which is NaN in JavaScript: `None`.
   */
  function ChartX(index: nat, length: nat): (x: Option<real>)
    requires index < length
    ensures x.None? <==> length == 1
    ensures x.Some? ==> 0.0 <= x.value <= 100.0
    ensures x.Some? && index == 0 ==> x.value == 0.0
    ensures x.Some? && index == length - 1 ==> x.value == 100.0
  {
    if length == 1 then None
    else
      var x := (index * 100) as real / (length - 1) as real;
      assert x <= 100.0 by {
        assert (index * 100) as real <= ((length - 1) * 100) as real;
      }
      Some(x)
  }

  /** Entries further right in the history are drawn further right. */
  lemma ChartXIncreasing(i: nat, j: nat, length: nat)
    requires i < j < length
    ensures ChartX(i, length).Some? && ChartX(j, length).Some?
    ensures ChartX(i, length).value < ChartX(j, length).value
  {
    var d := (length - 1) as real;
    assert (i * 100) as real < (j * 100) as real;
    assert (i * 100) as real / d < (j * 100) as real / d;
  }

  /** `40 - ((s - 300) / 550) * 40`: the chart's y is 0 at the top. */
  function ChartY(score: int): (y: real)
    ensures score == Bands.MIN_SCORE ==> y == 40.0
    ensures score == Bands.MAX_SCORE ==> y == 0.0
    ensures Bands.MIN_SCORE <= score <= Bands.MAX_SCORE ==> 0.0 <= y <= 40.0
  {
    40.0 - ((score - 300) as real / 550.0) * 40.0
  }

  /** A higher score is drawn higher up. */
  lemma ChartYDecreasing(s: int, t: int)
    requires s < t
    ensures ChartY(t) < ChartY(s)
  {
  }

  datatype Point = Point(x: real, y: real)

  /** The `index`-th vertex of the polyline, which is also the centre of the `index`-th dot. */
  function ChartPoint(history: seq<MonthScore>, index: nat): (p: Option<Point>)
    requires index < |history|
    ensures p.Some? <==> |history| > 1
    ensures p.Some? ==> Some(p.value.x) == ChartX(index, |history|) && p.value.y == ChartY(history[index].score)
  {
    match ChartX(index, |history|)
    case None => None
    case Some(x) => Some(Point(x, ChartY(history[index].score)))
  }

  /** Every point of the dashboard's own history lies inside the 100 by 40 view box. */
  lemma HistoryPointsInViewBox(i: nat)
    requires i < |HISTORICAL_SCORES|
    ensures ChartPoint(HISTORICAL_SCORES, i).Some?
    ensures var p := ChartPoint(HISTORICAL_SCORES, i).value;
      0.0 <= p.x <= 100.0 && 0.0 <= p.y <= 40.0
  {
    assert Bands.MIN_SCORE <= HISTORICAL_SCORES[i].score <= Bands.MAX_SCORE;
  }
}
