/**
 * The "credit score city" 3D view: its score classifiers, the linear map
 * from score to x-position, the band table and the layout of the band
 * groups, the camera presets, and the state the view keeps between frames
 * (the indicator's target and smoothed position, its colour and score
 * readout, the overlay-element registry and the pending animation frame).
 *
 * The scene-building effect runs once, at mount: the frame step and the
 * camera hook it installs read the score of the first render. The view's
 * own slider and preset buttons change the React state, which only the
 * surrounding markup reads.
 */
module CreditCity {
  import opened Wrappers
  import Bands
  import Text

  // ----- Props -----

  /** The two prop slots a caller can fill; only `initialScore` is read. */
  datatype ViewProps = ViewProps(initialScore: Option<int>, score: Option<int>)

  const DEFAULT_SCORE: int := 700

  /** The score the view mounts with: `initialScore`, defaulting to 700. */
  function MountScore(props: ViewProps): (s: int)
    ensures props.initialScore.None? ==> s == DEFAULT_SCORE
    ensures props.initialScore.Some? ==> s == props.initialScore.value
  {
    props.initialScore.GetOr(DEFAULT_SCORE)
  }

  // ----- Classifiers -----

  /** Category label of the header badge. */
  function ScoreCategory(score: int): (category: string)
    ensures category == Bands.BandName(score)
  {
    Bands.RankIntervals(score);
    if score < 580 then "Poor"
    else if score < 670 then "Fair"
    else if score < 740 then "Good"
    else if score < 800 then "Very Good"
    else "Excellent"
  }

  const HEX_COLORS: seq<string> := ["#e94560", "#ffa500", "#ffce00", "#16c79a", "#3490de"]

  /** Badge background colour, as CSS text. */
  function ScoreColorHex(score: int): (hex: string)
    ensures hex == HEX_COLORS[Bands.Rank(score)]
  {
    Bands.RankIntervals(score);
    if score < 580 then "#e94560"
    else if score < 670 then "#ffa500"
    else if score < 740 then "#ffce00"
    else if score < 800 then "#16c79a"
    else "#3490de"
  }

  const COLORS: seq<int> := [0xe94560, 0xffa500, 0xffce00, 0x16c79a, 0x3490de]

  /** Indicator and building colour, as a 24-bit RGB number. */
  function ScoreColor(score: int): (color: int)
    ensures color == COLORS[Bands.Rank(score)]
    ensures 0 <= color < 0x1000000
  {
    Bands.RankIntervals(score);
    if score < 580 then 0xe94560
    else if score < 670 then 0xffa500
    else if score < 740 then 0xffce00
    else if score < 800 then 0x16c79a
    else 0x3490de
  }

  /** Badge text colour: white on the two lowest bands, black above. */
  function BadgeTextColor(score: int): (color: string)
    ensures color == "white" <==> Bands.Rank(score) <= 1
    ensures color == "white" || color == "black"
  {
    Bands.RankIntervals(score);
    if score < 670 then "white" else "black"
  }

  /** The quick-jump presets, in button order, and the labels of their buttons. */
  const PRESETS: seq<int> := [350, 620, 700, 770, 825]
  const PRESET_BUTTONS: seq<string> := ["Poor", "Fair", "Good", "Very Good", "Excellent"]

  /** Each quick-jump preset lies in the band its button names. */
  lemma PresetsInNamedBands()
    ensures |PRESETS| == |PRESET_BUTTONS|
    ensures forall i :: 0 <= i < |PRESETS| ==> ScoreCategory(PRESETS[i]) == PRESET_BUTTONS[i]
  {
    forall i | 0 <= i < |PRESETS|
      ensures ScoreCategory(PRESETS[i]) == PRESET_BUTTONS[i]
    {
      Bands.RankIntervals(PRESETS[i]);
    }
  }

  // ----- Score to x-position -----

  /** The linear map from the score range [300, 850] onto the x-range [-40, 40]. */
  function MapScoreToPosition(score: real): (x: real)
    ensures 300.0 <= score <= 850.0 ==> -40.0 <= x <= 40.0
  {
    -40.0 + ((score - 300.0) / (850.0 - 300.0)) * 80.0
  }

  lemma MapScoreToPositionEndpoints()
    ensures MapScoreToPosition(300.0) == -40.0
    ensures MapScoreToPosition(575.0) == 0.0
    ensures MapScoreToPosition(850.0) == 40.0
  {
  }

  lemma MapScoreToPositionIncreasing(a: real, b: real)
    requires a < b
    ensures MapScoreToPosition(a) < MapScoreToPosition(b)
  {
  }

  // ----- The band table -----

  datatype ScoreRange = ScoreRange(min: int, max: int, color: int, height: int)

  const SCORE_RANGES: seq<ScoreRange> := [
    ScoreRange(300, 579, 0xe94560, 3),
    ScoreRange(580, 669, 0xffa500, 5),
    ScoreRange(670, 739, 0xffce00, 7),
    ScoreRange(740, 799, 0x16c79a, 9),
    ScoreRange(800, 850, 0x3490de, 12)
  ]

  /** The table tiles [300, 850]: no gap, no overlap, one range per band. */
  lemma ScoreRangesPartition()
    ensures |SCORE_RANGES| == |Bands.BAND_NAMES|
    ensures SCORE_RANGES[0].min == Bands.MIN_SCORE
    ensures SCORE_RANGES[|SCORE_RANGES| - 1].max == Bands.MAX_SCORE
    ensures forall i :: 0 < i < |SCORE_RANGES| ==> SCORE_RANGES[i].min == SCORE_RANGES[i - 1].max + 1
    ensures forall i :: 0 <= i < |SCORE_RANGES| ==> SCORE_RANGES[i].min < SCORE_RANGES[i].max
  {
  }

  /** A score in a range of the table has that range's band and colour. */
  lemma ScoreRangeColor(i: nat, s: int)
    requires i < |SCORE_RANGES| && SCORE_RANGES[i].min <= s <= SCORE_RANGES[i].max
    ensures Bands.Rank(s) == i
    ensures ScoreColor(s) == SCORE_RANGES[i].color
  {
    Bands.RankIntervals(s);
  }

  /** Every score of [300, 850] lies in the range of its band. */
  lemma ScoreRangeCovers(s: int)
    requires Bands.MIN_SCORE <= s <= Bands.MAX_SCORE
    ensures SCORE_RANGES[Bands.Rank(s)].min <= s <= SCORE_RANGES[Bands.Rank(s)].max
  {
    Bands.RankIntervals(s);
  }

  // ----- Layout of the band groups -----

  /** `(max - min) / 5`: how far the layout cursor advances for one range. */
  function RangeWidth(r: ScoreRange): real {
    (r.max - r.min) as real / 5.0
  }

  /** The sum of the widths of `rs`. */
  function TotalWidth(rs: seq<ScoreRange>): real {
    if rs == [] then 0.0 else TotalWidth(rs[..|rs| - 1]) + RangeWidth(rs[|rs| - 1])
  }

  lemma TotalWidthExtend(rs: seq<ScoreRange>, k: nat)
    requires k < |rs|
    ensures TotalWidth(rs[..k + 1]) == TotalWidth(rs[..k]) + RangeWidth(rs[k])
  {
    assert rs[..k + 1][..k] == rs[..k];
  }

  /** Where the `i`-th band group is placed: the cursor, which starts at -40, plus half its width. */
  function GroupCentre(rs: seq<ScoreRange>, i: nat): real
    requires i < |rs|
  {
    -40.0 + TotalWidth(rs[..i]) + RangeWidth(rs[i]) / 2.0
  }

  predicate NonEmptyRanges(rs: seq<ScoreRange>) {
    forall i :: 0 <= i < |rs| ==> rs[i].min < rs[i].max
  }

  /** Consecutive group centres are half of each width apart. */
  lemma GroupCentreStep(rs: seq<ScoreRange>, i: nat)
    requires i + 1 < |rs|
    ensures GroupCentre(rs, i + 1) == GroupCentre(rs, i) + RangeWidth(rs[i]) / 2.0 + RangeWidth(rs[i + 1]) / 2.0
  {
    TotalWidthExtend(rs, i);
  }

  /** The group centres of ranges that are not empty are strictly increasing. */
  lemma {:induction false} GroupCentresIncreasing(rs: seq<ScoreRange>, i: nat, j: nat)
    requires NonEmptyRanges(rs) && i < j < |rs|
    ensures GroupCentre(rs, i) < GroupCentre(rs, j)
  {
    GroupCentreStep(rs, j - 1);
    if i < j - 1 {
      GroupCentresIncreasing(rs, i, j - 1);
    }
  }

  /**
   * The cursor advances 109.2 in all, so the groups reach past x = 40, the
   * right end of the indicator's range: the Excellent group stands at 64.2.
   */
  lemma LayoutSpan()
    ensures TotalWidth(SCORE_RANGES) == 109.2
    ensures GroupCentre(SCORE_RANGES, 0) == -12.1
    ensures GroupCentre(SCORE_RANGES, 4) == 64.2
  {
    var rs := SCORE_RANGES;
    assert rs[..5] == rs;
    assert rs[..1][..0] == [] && rs[..2][..1] == rs[..1] && rs[..3][..2] == rs[..2];
    assert rs[..4][..3] == rs[..3] && rs[..5][..4] == rs[..4];
    assert TotalWidth(rs[..1]) == 55.8;
    assert TotalWidth(rs[..2]) == 73.6;
    assert TotalWidth(rs[..3]) == 87.4;
    assert TotalWidth(rs[..4]) == 99.2;
  }

  // ----- Overlay elements -----

  /**
   * An overlay element: the label of the range [min, max] with the
   * x-position of its 3D anchor, or the score readout (whose markup is the
   * view's `readout`).
   */
  datatype Overlay = RangeLabel(min: int, max: int, anchorX: real) | ScoreDisplay {

    /** The label's markup, `${min}-${max}`. */
    function LabelText(): string
      requires RangeLabel?
    {
      Text.IntToString(min) + "-" + Text.IntToString(max)
    }
  }

  /**
   * The text of a label of non-negative bounds splits at its dash into the two
   * bounds' texts, which read back as the bounds.
   */
  lemma LabelTextNamesRange(o: Overlay)
    requires o.RangeLabel? && 0 <= o.min && 0 <= o.max
    ensures Text.Split(o.LabelText(), "-") == [Text.IntToString(o.min), Text.IntToString(o.max)]
    ensures Text.ParseInt(Text.IntToString(o.min)) == Some(o.min)
    ensures Text.ParseInt(Text.IntToString(o.max)) == Some(o.max)
  {
    var a, b := Text.NatToString(o.min), Text.NatToString(o.max);
    assert forall i :: 0 <= i < |a| ==> Text.IsDigit(a[i]);
    assert forall i :: 0 <= i < |b| ==> Text.IsDigit(b[i]);
    Text.SplitTwo(a, b, "-");
    Text.ParseIntOfIntToString(o.min);
    Text.ParseIntOfIntToString(o.max);
  }

  /** A range label is anchored above the x-position of the range's midpoint. */
  function LabelAnchor(r: ScoreRange): (x: real)
    ensures 300 <= r.min <= r.max <= 850 ==> -40.0 <= x <= 40.0
  {
    MapScoreToPosition((r.max + r.min) as real / 2.0)
  }

  function RangeLabels(rs: seq<ScoreRange>): (labels: seq<Overlay>)
    ensures |labels| == |rs|
    ensures forall i :: 0 <= i < |rs| ==> labels[i] == RangeLabel(rs[i].min, rs[i].max, LabelAnchor(rs[i]))
  {
    seq(|rs|, i requires 0 <= i < |rs| => RangeLabel(rs[i].min, rs[i].max, LabelAnchor(rs[i])))
  }

  /** The range labels of the table stand left to right, inside [-40, 40]. */
  lemma LabelAnchorsIncreasing(i: nat, j: nat)
    requires i < j < |SCORE_RANGES|
    ensures LabelAnchor(SCORE_RANGES[i]) < LabelAnchor(SCORE_RANGES[j])
    ensures -40.0 <= LabelAnchor(SCORE_RANGES[i]) && LabelAnchor(SCORE_RANGES[j]) <= 40.0
  {
    var a := (SCORE_RANGES[i].max + SCORE_RANGES[i].min) as real / 2.0;
    var b := (SCORE_RANGES[j].max + SCORE_RANGES[j].min) as real / 2.0;
    assert a < b;
    MapScoreToPositionIncreasing(a, b);
  }

  // ----- Score readout -----

  const SEPARATOR: string := "<br>"

  /** `Score<br>${n}`, the readout's markup. */
  function Readout(n: int): string {
    "Score" + SEPARATOR + Text.IntToString(n)
  }

  /** `parseInt(html.split('<br>')[1])`; a missing second part parses `undefined`, which is NaN. */
  function ReadScore(html: string): Option<int> {
    var parts := Text.Split(html, SEPARATOR);
    if |parts| < 2 then None else Text.ParseInt(parts[1])
  }

  /** The frame step's test: the score differs from what the readout shows (NaN differs from everything). */
  predicate ScoreChanged(score: int, html: string) {
    ReadScore(html) != Some(score)
  }

  lemma IntToStringHasNoTag(n: int)
    ensures forall i :: 0 <= i < |Text.IntToString(n)| ==> Text.IntToString(n)[i] != '<'
  {
    var s := Text.IntToString(n);
    forall i | 0 <= i < |s| ensures s[i] != '<' {
      if n < 0 {
        assert i == 0 || s[i] == Text.NatToString(-n)[i - 1];
      }
    }
  }

  /** Splitting the readout at the separator gives the caption and the score's text. */
  lemma SplitReadout(n: int)
    ensures Text.Split(Readout(n), SEPARATOR) == ["Score", Text.IntToString(n)]
  {
    IntToStringHasNoTag(n);
    Text.SplitTwo("Score", Text.IntToString(n), SEPARATOR);
  }

  /** Parsing the readout gives back the score it was written with. */
  lemma ReadoutRoundTrip(n: int)
    ensures ReadScore(Readout(n)) == Some(n)
  {
    SplitReadout(n);
    Text.ParseIntOfIntToString(n);
  }

  /** The change test is true exactly when the readout shows another score. */
  lemma ScoreChangedIff(score: int, shown: int)
    ensures ScoreChanged(score, Readout(shown)) <==> score != shown
  {
    ReadoutRoundTrip(shown);
  }

  // ----- Smoothing -----

  /** One frame of `currentX += (targetX - currentX) * 0.05`. */
  function Smooth(current: real, target: real): (next: real)
    ensures target - next == (target - current) * 0.95
    ensures current <= target ==> current <= next <= target
    ensures target <= current ==> target <= next <= current
    ensures current == target ==> next == target
  {
    current + (target - current) * 0.05
  }

  /** The position after `n` frames toward a fixed target. */
  function SmoothSteps(current: real, target: real, n: nat): real
    decreases n
  {
    if n == 0 then current else SmoothSteps(Smooth(current, target), target, n - 1)
  }

  function Pow(x: real, n: nat): real {
    if n == 0 then 1.0 else x * Pow(x, n - 1)
  }

  lemma {:induction false} PowBounds(n: nat)
    ensures 0.0 < Pow(0.95, n) <= 1.0
  {
    if n > 0 {
      PowBounds(n - 1);
    }
  }

  /**
   * After `n` frames the signed distance to the target is 0.95^n times the
   * initial one: it never grows and never changes sign.
   */
  lemma {:induction false} SmoothStepsDistance(current: real, target: real, n: nat)
    ensures target - SmoothSteps(current, target, n) == (target - current) * Pow(0.95, n)
    ensures current <= target ==> current <= SmoothSteps(current, target, n) <= target
    ensures target <= current ==> target <= SmoothSteps(current, target, n) <= current
    decreases n
  {
    PowBounds(n);
    if n > 0 {
      var next := Smooth(current, target);
      SmoothStepsDistance(next, target, n - 1);
      var p := Pow(0.95, n - 1);
      calc {
        target - SmoothSteps(current, target, n);
        (target - next) * p;
        ((target - current) * 0.95) * p;
        { assert ((target - current) * 0.95) * p == (target - current) * (0.95 * p); }
        (target - current) * Pow(0.95, n);
      }
      var d := target - current;
      assert d * Pow(0.95, n) == d * (0.95 * p);
      if d >= 0.0 {
        assert 0.0 <= d * Pow(0.95, n) <= d;
      } else {
        assert d <= d * Pow(0.95, n) <= 0.0;
      }
    }
  }

  // ----- Camera -----

  datatype Vec3 = Vec3(x: real, y: real, z: real)

  /** A camera position and the point it looks at. */
  datatype Camera = Camera(position: Vec3, target: Vec3)

  const INITIAL_CAMERA: Camera := Camera(Vec3(0.0, 15.0, 30.0), Vec3(0.0, 5.0, 0.0))

  const CAMERA_PRESETS: map<string, Camera> := map[
    "fixed" := Camera(Vec3(0.0, 15.0, 30.0), Vec3(0.0, 5.0, 0.0)),
    "overhead" := Camera(Vec3(0.0, 40.0, 0.0), Vec3(0.0, 0.0, 0.0)),
    "firstPerson" := Camera(Vec3(0.0, 2.0, 25.0), Vec3(0.0, 5.0, 0.0))
  ]

  const FOLLOW_SCORE: string := "followScore"

  /** The camera a view mode asks for, or `None` for a mode that changes nothing. */
  function CameraFor(mode: string, score: int): (c: Option<Camera>)
    ensures c.Some? <==> mode == FOLLOW_SCORE || mode in CAMERA_PRESETS
    ensures mode == FOLLOW_SCORE ==>
      (c.Some? && c.value.position == Vec3(MapScoreToPosition(score as real), 7.0, 12.0)
       && c.value.target == Vec3(MapScoreToPosition(score as real), 5.0, 0.0))
    ensures mode in CAMERA_PRESETS ==> c == Some(CAMERA_PRESETS[mode])
  {
    if mode == FOLLOW_SCORE then
      var x := MapScoreToPosition(score as real);
      Some(Camera(Vec3(x, 7.0, 12.0), Vec3(x, 5.0, 0.0)))
    else if mode in CAMERA_PRESETS then Some(CAMERA_PRESETS[mode])
    else None
  }

  /** The follow camera stands behind the indicator's slot and looks straight at it. */
  lemma FollowCameraFacesIndicator(score: int)
    requires Bands.MIN_SCORE <= score <= Bands.MAX_SCORE
    ensures var c := CameraFor(FOLLOW_SCORE, score).value;
      c.position.x == c.target.x && -40.0 <= c.position.x <= 40.0
      && c.position.z > c.target.z
  {
  }

  // ----- The mounted view -----

  class CityView {
    /** The score the mount-time closures captured. */
    const mountScore: int
    /** The React state shown by the badge, the slider and the category label. */
    var uiScore: int

    /** `textElementsRef.current`. */
    var textElements: seq<Overlay>
    /** Whether an animation frame is requested and not cancelled. */
    var frameScheduled: bool
    /** Whether the renderer's canvas is in the container. */
    var rendererAttached: bool
    /** Whether `window.changeCameraView` has been installed. */
    var cameraHookInstalled: bool
    var camera: Camera
    /** x-positions of the five band groups. */
    var groupCentres: seq<real>

    /** `scoreDisplay.innerHTML`. */
    var readout: string
    var indicatorColor: int
    /** `indicator.group.position.x`. */
    var indicatorX: real
    var targetX: real
    var currentX: real
    var ringRotation: real

    /** The first render: state initialised from the props, no scene yet. */
    constructor (props: ViewProps)
      ensures mountScore == MountScore(props) && uiScore == mountScore
      ensures textElements == [] && !frameScheduled && !rendererAttached && !cameraHookInstalled
    {
      mountScore := MountScore(props);
      uiScore := MountScore(props);
      textElements := [];
      frameScheduled := false;
      rendererAttached := false;
      cameraHookInstalled := false;
      camera := INITIAL_CAMERA;
      groupCentres := [];
      readout := "";
      indicatorColor := 0;
      indicatorX := 0.0;
      targetX := 0.0;
      currentX := 0.0;
      ringRotation := 0.0;
    }

    /** The state of a built scene while its frame loop runs. */
    ghost predicate Running()
      reads this
    {
      && frameScheduled && rendererAttached && cameraHookInstalled
      && textElements == RangeLabels(SCORE_RANGES) + [ScoreDisplay]
      && |groupCentres| == |SCORE_RANGES|
      && (forall i :: 0 <= i < |SCORE_RANGES| ==> groupCentres[i] == GroupCentre(SCORE_RANGES, i))
      && readout == Readout(mountScore)
      && indicatorColor == ScoreColor(mountScore)
      && targetX == MapScoreToPosition(mountScore as real)
      && currentX == targetX && indicatorX == currentX
    }

    /** Cancel the pending frame, detach the canvas and remove every overlay element. */
    method Cleanup()
      modifies this`frameScheduled, this`rendererAttached, this`textElements
      ensures !frameScheduled && !rendererAttached && textElements == []
    {
      frameScheduled := false;
      if rendererAttached {
        rendererAttached := false;
      }
      textElements := [];
    }

    /** Lay out one group per band, left to right, and register one label per band. */
    method BuildCity()
      modifies this`groupCentres, this`textElements
      ensures textElements == old(textElements) + RangeLabels(SCORE_RANGES)
      ensures |groupCentres| == |SCORE_RANGES|
      ensures forall i :: 0 <= i < |SCORE_RANGES| ==> groupCentres[i] == GroupCentre(SCORE_RANGES, i)
    {
      var rs := SCORE_RANGES;
      var posX := -40.0;
      groupCentres := [];
      var k := 0;
      while k < |rs|
        invariant 0 <= k <= |rs|
        invariant posX == -40.0 + TotalWidth(rs[..k])
        invariant |groupCentres| == k
        invariant forall i :: 0 <= i < k ==> groupCentres[i] == GroupCentre(rs, i)
        invariant textElements == old(textElements) + RangeLabels(rs)[..k]
      {
        var range := rs[k];
        var rangeWidth := RangeWidth(range);
        groupCentres := groupCentres + [posX + rangeWidth / 2.0];
        posX := posX + rangeWidth;
        TotalWidthExtend(rs, k);
        var xPos := LabelAnchor(range);
        textElements := textElements + [RangeLabel(range.min, range.max, xPos)];
        assert RangeLabels(rs)[..k + 1] == RangeLabels(rs)[..k] + [RangeLabels(rs)[k]];
        k := k + 1;
      }
      assert RangeLabels(rs)[..k] == RangeLabels(rs);
    }

    /** Place the indicator for `score`, colour it and register its readout. */
    method CreateScoreIndicator(score: int)
      modifies this`indicatorColor, this`indicatorX, this`readout, this`textElements
      ensures indicatorColor == ScoreColor(score)
      ensures indicatorX == MapScoreToPosition(score as real)
      ensures readout == Readout(score)
      ensures textElements == old(textElements) + [ScoreDisplay]
    {
      indicatorColor := ScoreColor(score);
      indicatorX := MapScoreToPosition(score as real);
      readout := Readout(score);
      textElements := textElements + [ScoreDisplay];
    }

    /** Recolour the indicator and rewrite the readout; the change test is then false. */
    method UpdateColor(newScore: int)
      modifies this`indicatorColor, this`readout
      ensures indicatorColor == ScoreColor(newScore)
      ensures readout == Readout(newScore)
      ensures !ScoreChanged(newScore, readout)
    {
      indicatorColor := ScoreColor(newScore);
      readout := Readout(newScore);
      ReadoutRoundTrip(newScore);
    }

    /**
     * The retargeting half of a frame: when the readout shows a score other
     * than the captured one, recolour, rewrite the readout and retarget.
     */
    method Retarget()
      modifies this`readout, this`indicatorColor, this`targetX
      ensures ScoreChanged(mountScore, old(readout)) ==>
        readout == Readout(mountScore) && indicatorColor == ScoreColor(mountScore)
        && targetX == MapScoreToPosition(mountScore as real)
      ensures !ScoreChanged(mountScore, old(readout)) ==>
        readout == old(readout) && indicatorColor == old(indicatorColor) && targetX == old(targetX)
      ensures !ScoreChanged(mountScore, readout)
    {
      if ScoreChanged(mountScore, readout) {
        UpdateColor(mountScore);
        targetX := MapScoreToPosition(mountScore as real);
      }
    }

    /**
     * One frame: request the next one, retarget, move one smoothing step,
     * turn the ring.
     */
    method Animate()
      modifies this`frameScheduled, this`readout, this`indicatorColor, this`targetX
      modifies this`currentX, this`indicatorX, this`ringRotation
      ensures frameScheduled
      ensures ScoreChanged(mountScore, old(readout)) ==>
        readout == Readout(mountScore) && indicatorColor == ScoreColor(mountScore)
        && targetX == MapScoreToPosition(mountScore as real)
      ensures !ScoreChanged(mountScore, old(readout)) ==>
        readout == old(readout) && indicatorColor == old(indicatorColor) && targetX == old(targetX)
      ensures !ScoreChanged(mountScore, readout)
      ensures currentX == Smooth(old(currentX), targetX) && indicatorX == currentX
      ensures ringRotation == old(ringRotation) + 0.01
    {
      frameScheduled := true;
      Retarget();
      currentX := currentX + (targetX - currentX) * 0.05;
      indicatorX := currentX;
      ringRotation := ringRotation + 0.01;
    }

    /**
     * The scene set-up of `initScene` once the rendering library is loaded:
     * camera, canvas, city, indicator and camera hook, with the indicator
     * already at its target.
     */
    method BuildScene()
      requires textElements == []
      modifies this`camera, this`rendererAttached, this`groupCentres, this`textElements
      modifies this`indicatorColor, this`indicatorX, this`readout
      modifies this`cameraHookInstalled, this`targetX, this`currentX
      ensures camera == INITIAL_CAMERA && rendererAttached && cameraHookInstalled
      ensures textElements == RangeLabels(SCORE_RANGES) + [ScoreDisplay]
      ensures |groupCentres| == |SCORE_RANGES|
      ensures forall i :: 0 <= i < |SCORE_RANGES| ==> groupCentres[i] == GroupCentre(SCORE_RANGES, i)
      ensures readout == Readout(mountScore) && !ScoreChanged(mountScore, readout)
      ensures indicatorColor == ScoreColor(mountScore)
      ensures targetX == MapScoreToPosition(mountScore as real)
      ensures currentX == targetX && indicatorX == currentX
    {
      BuildCity();
      CreateScoreIndicator(mountScore);
      ReadoutRoundTrip(mountScore);
      camera := INITIAL_CAMERA;
      rendererAttached := true;
      cameraHookInstalled := true;
      targetX := MapScoreToPosition(mountScore as real);
      currentX := targetX;
    }

    /**
     * `initScene`: clean up, then, once the rendering library is available,
     * build the scene and run the first frame. When the library fails to
     * load, only the cleanup happens.
     */
    method InitScene(libraryLoaded: bool)
      modifies this
      ensures uiScore == old(uiScore)
      ensures libraryLoaded ==> Running() && camera == INITIAL_CAMERA
      ensures libraryLoaded ==> ringRotation == old(ringRotation) + 0.01
      ensures !libraryLoaded ==> textElements == [] && !frameScheduled && !rendererAttached
      ensures !libraryLoaded ==> cameraHookInstalled == old(cameraHookInstalled) && camera == old(camera)
      ensures !libraryLoaded ==> groupCentres == old(groupCentres) && readout == old(readout)
      ensures !libraryLoaded ==> indicatorColor == old(indicatorColor) && indicatorX == old(indicatorX)
      ensures !libraryLoaded ==> targetX == old(targetX) && currentX == old(currentX)
      ensures !libraryLoaded ==> ringRotation == old(ringRotation)
    {
      Cleanup();
      if !libraryLoaded {
        return;
      }
      BuildScene();
      Animate();
    }

    /** The display refresh: the frame step runs only when a frame is pending. */
    method RunFrame()
      modifies this`frameScheduled, this`readout, this`indicatorColor, this`targetX
      modifies this`currentX, this`indicatorX, this`ringRotation
      ensures !old(frameScheduled) ==> unchanged(this)
      ensures old(Running()) ==> Running() && ringRotation == old(ringRotation) + 0.01
      ensures old(Running()) ==> indicatorX == old(indicatorX) && readout == old(readout)
    {
      if frameScheduled {
        ghost var wasRunning := Running();
        if wasRunning {
          ReadoutRoundTrip(mountScore);
        }
        Animate();
      }
    }

    /** `window.changeCameraView(mode)`, reached from the view buttons once installed. */
    method ChangeCameraView(mode: string)
      modifies this`camera
      ensures !cameraHookInstalled ==> camera == old(camera)
      ensures cameraHookInstalled ==> camera == CameraFor(mode, mountScore).GetOr(old(camera))
    {
      if cameraHookInstalled {
        if mode == FOLLOW_SCORE {
          var xPos := MapScoreToPosition(mountScore as real);
          camera := Camera(Vec3(xPos, 7.0, 12.0), Vec3(xPos, 5.0, 0.0));
        } else if mode in CAMERA_PRESETS {
          camera := CAMERA_PRESETS[mode];
        }
      }
    }

    /** The slider's `onChange`: `parseInt` of its value, which is always a decimal integer. */
    method HandleScoreChange(value: string)
      requires Text.ParseInt(value).Some?
      modifies this`uiScore
      ensures uiScore == Text.ParseInt(value).value
      ensures old(Running()) ==> Running()
    {
      uiScore := Text.ParseInt(value).value;
    }

    /** A quick-jump button: set the React score; the scene keeps the captured one. */
    method JumpToScore(newScore: int)
      modifies this`uiScore
      ensures uiScore == newScore
      ensures old(Running()) ==> Running()
    {
      uiScore := newScore;
    }
  }

  /**
   * Mount with the default props, press "Poor" and let two frames pass: the
   * badge says Poor, but the indicator stays at the slot of 700, yellow.
   */
  method JumpLeavesIndicatorAtMountScore() returns (category: string, x: real, color: int)
    ensures category == "Poor"
    ensures x == MapScoreToPosition(700.0) && color == 0xffce00
  {
    var view := new CityView(ViewProps(None, None));
    view.InitScene(true);
    view.JumpToScore(PRESETS[0]);
    view.RunFrame();
    view.RunFrame();
    Bands.RankIntervals(view.uiScore);
    Bands.RankIntervals(view.mountScore);
    category := ScoreCategory(view.uiScore);
    x := view.indicatorX;
    color := view.indicatorColor;
  }
}
