# Credit score arithmetic and the 3D score view, in Dafny

The application is a demonstration front end for a fictitious credit-score
product. Under the markup and rendering calls sits a small layer of exact
logic, modelled here:

- **Bands** (`bands.dfy`). The thresholds 580, 670, 740 and 800 split scores
  into Poor, Fair, Good, Very Good and Excellent. A band is identified by its
  rank: the number of thresholds at most the score. Every if-chain and
  ternary classifier in the three components is proved equal to a table
  indexed by that rank. This makes them agree band by band, and it shows
  exactly where the four-colour classifiers merge Very Good and Excellent.
- **Text** (`text.dfy`). The decimal text of an integer (a template literal
  `${n}`), the decimal part of `parseInt`, and `split` on a non-empty
  separator. The 3D view writes its score readout with the first and reads
  it back with the other two.
- **Calculator** (`credit_calculator.dfy`). The five slider values go through
  the weighted formula, `Math.floor` and a clamp to [300, 850]. It also
  covers the slider update, the result label, the ring colour and its dash
  offset, and the props handed to the 3D tab.
- **Dashboard** (`dashboard.dfy`). The classifiers of the displayed score,
  the credit-factor status colours, the history bar heights, the chart
  coordinates and the ring dash offset. It also holds the hardcoded factor
  and history tables.
- **Credit-score city** (`credit_city.dfy`). The 3D view's classifiers and its
  linear map from score to x-position. It holds the band table and lays out
  the five band groups with a cursor. The class `CityView` holds the state
  the view keeps between frames:
  - the indicator's target and smoothed position;
  - its colour and `Score<br>n` readout;
  - the overlay-element registry;
  - whether an animation frame is pending;
  - the camera, and whether the camera hook is installed.

JavaScript numbers are modelled as exact rationals (`real`), and scores as
mathematical integers (`int`).

Some behaviour of the code as written, which the model follows:
- The scene effect runs only at mount, so the frame step and the camera hook
  read the mount-time score (`CityView.mountScore`). The view's slider and
  quick-jump buttons change only the React state (`uiScore`).
  - `CityView.Running()` is preserved by every frame and by every score
    change.
  - After mount, the indicator never moves or changes colour.
  - `JumpLeavesIndicatorAtMountScore` plays this through for the "Poor"
    button.
- The follow camera does not track the indicator: it uses the x-position
  of the mount-time score (`ThreeDCreditScore.jsx:388`).
- The calculator passes its result through the `score` prop. The component
  reads only `initialScore`, so the 3D tab always mounts at 700
  (`VisualizationIgnoresResult`).
- The band groups are not confined to [-40, 40]. The layout cursor
  advances `(max - min) / 5` per band, 109.2 in all, so it runs from -40 to
  69.2, while the indicator and the range labels live in [-40, 40]
  (`LayoutSpan`).
- `cleanup` cancels the frame, detaches the canvas and empties the overlay
  registry. The teardown closure that `initScene` returns is discarded, so
  `window.changeCameraView` stays installed after cleanup. The model keeps
  `cameraHookInstalled` as it was.

## Model

| member | source | states |
|---|---|---|
| Bands.RankIntervals | src/components/ThreeDCreditScore.jsx:22-28 | the threshold count is 0, 1, 2, 3, 4 exactly on s<580, [580,670), [670,740), [740,800), s>=800 (both directions) |
| Bands.RankMonotone | src/components/CreditCalculator.jsx:233-236 | a higher score is never in a lower band |
| Bands.RankEndpoints | src/components/CreditCalculator.jsx:240 | 300 is Poor and 850 is Excellent |
| Bands.CountAtMostMonotone | src/components/Dashboard.jsx:175-178 | counting the thresholds passed is monotone in the score, for any threshold list |
| Text.IntToString | src/components/ThreeDCreditScore.jsx:337 | the decimal text `${n}` of an integer: a minus sign for negatives, then the digits with no leading zero; never empty (its inverse is `Text.ParseIntOfIntToString`) |
| Text.ParseInt | src/components/ThreeDCreditScore.jsx:406 | `parseInt`: skip leading white space, read one optional sign and the longest digit run; NaN (`None`) when no digit follows (proved against `Text.IntToString` by `Text.ParseIntOfIntToString`) |
| Text.Split | src/components/ThreeDCreditScore.jsx:406 | `split` at a non-empty separator, left to right, gives at least one part (its behaviour is stated by `Text.SplitTwo`) |
| Text.ParseIntOfIntToString | src/components/ThreeDCreditScore.jsx:406 | `parseInt` of the decimal text of any integer, negative ones included, gives back that integer |
| Text.DigitsValueOfNatToString | src/components/ThreeDCreditScore.jsx:337 | the digits written for a natural number denote that number |
| Text.DigitPrefixIsLongest | src/components/ThreeDCreditScore.jsx:406 | the digit run `parseInt` reads is a prefix, made of digits, and is followed by a non-digit or the end |
| Text.TrimStartIsSuffix | src/components/ThreeDCreditScore.jsx:406 | skipping leading white space leaves a suffix that does not start with white space |
| Text.DigitPrefixOfDigits | src/components/ThreeDCreditScore.jsx:406 | on a digit string the digit run is the whole string |
| Text.ParseDigits | src/components/ThreeDCreditScore.jsx:406 | `parseInt` of a non-empty digit string is the number the digits denote |
| Text.ParseNegativeDigits | src/components/ThreeDCreditScore.jsx:406 | `parseInt` of a minus sign before a non-empty digit string is the negated number |
| Text.SplitFromSkips | src/components/ThreeDCreditScore.jsx:406 | text without the separator's first character is copied into the current part by `split` |
| Text.SplitFromAtSeparator | src/components/ThreeDCreditScore.jsx:406 | meeting the separator closes the current part and `split` goes on after it |
| Text.SplitTwo | src/components/ThreeDCreditScore.jsx:406 | two separator-free pieces joined by the separator split into exactly those two pieces |
| CreditCity.MountScore | src/components/ThreeDCreditScore.jsx:3-4 | the mount score is `initialScore`, or 700 when it is absent |
| CreditCity.ScoreCategory | src/components/ThreeDCreditScore.jsx:22-28 | the category is the band name of the score's rank |
| CreditCity.ScoreColorHex | src/components/ThreeDCreditScore.jsx:31-37 | the CSS colour is the rank's entry of #e94560, #ffa500, #ffce00, #16c79a, #3490de |
| CreditCity.ScoreColor | src/components/ThreeDCreditScore.jsx:47-53 | the RGB colour is the rank's entry of the same five colours, a 24-bit number |
| CreditCity.BadgeTextColor | src/components/ThreeDCreditScore.jsx:480 | badge text is white exactly on Poor and Fair, black otherwise |
| CreditCity.PresetsInNamedBands | src/components/ThreeDCreditScore.jsx:508-535 | presets 350, 620, 700, 770, 825 lie in Poor, Fair, Good, Very Good, Excellent, their buttons' labels |
| CreditCity.MapScoreToPosition | src/components/ThreeDCreditScore.jsx:41-44 | a score in [300, 850] maps into [-40, 40] |
| CreditCity.MapScoreToPositionEndpoints | src/components/ThreeDCreditScore.jsx:41-44 | 300 maps to -40, 575 to 0, 850 to 40 |
| CreditCity.MapScoreToPositionIncreasing | src/components/ThreeDCreditScore.jsx:41-44 | the map is strictly increasing |
| CreditCity.ScoreRangesPartition | src/components/ThreeDCreditScore.jsx:222-228 | five ranges, first min 300, last max 850, each min the previous max + 1, none empty |
| CreditCity.ScoreRangeColor | src/components/ThreeDCreditScore.jsx:222-228 | every score of range i has rank i and `getScoreColor` equal to the range's colour |
| CreditCity.ScoreRangeCovers | src/components/ThreeDCreditScore.jsx:222-228 | every score of [300, 850] lies in the range of its own band |
| CreditCity.GroupCentreStep | src/components/ThreeDCreditScore.jsx:234-238 | consecutive group centres are half of each of the two widths apart |
| CreditCity.GroupCentre | src/components/ThreeDCreditScore.jsx:234-238 | group i stands at the cursor after the ranges before it, which starts at -40, plus half its own width (the reference `CityView.BuildCity` is proved against) |
| CreditCity.GroupCentresIncreasing | src/components/ThreeDCreditScore.jsx:231-238 | for non-empty ranges the centres `posX + rangeWidth/2` strictly increase |
| CreditCity.LayoutSpan | src/components/ThreeDCreditScore.jsx:231-238 | the cursor advances 109.2 in all; the first group stands at -12.1, the last at 64.2 |
| CreditCity.LabelAnchorsIncreasing | src/components/ThreeDCreditScore.jsx:241-242 | range labels, anchored at the mapped midpoint, stand left to right inside [-40, 40] |
| CreditCity.LabelAnchor | src/components/ThreeDCreditScore.jsx:241-242 | a range label is anchored at the mapped midpoint `(max + min) / 2`; for a range inside [300, 850] the anchor lies in [-40, 40] |
| CreditCity.LabelTextNamesRange | src/components/ThreeDCreditScore.jsx:252 | the label text `${min}-${max}` of non-negative bounds splits at its dash into the two bounds' texts, which parse back as the bounds |
| CreditCity.Readout | src/components/ThreeDCreditScore.jsx:337 | the readout markup `Score<br>${n}` written at mount and by `updateColor`; `CreditCity.ReadScore` reads it back (`CreditCity.ReadoutRoundTrip`) |
| CreditCity.SplitReadout | src/components/ThreeDCreditScore.jsx:406 | splitting `Score<br>${n}` at `<br>` gives exactly `Score` and the text of n |
| CreditCity.ReadScore | src/components/ThreeDCreditScore.jsx:406 | `parseInt(html.split('<br>')[1])`, with NaN when there is no second part (inverse of `CreditCity.Readout`, by `CreditCity.ReadoutRoundTrip`) |
| CreditCity.ScoreChanged | src/components/ThreeDCreditScore.jsx:406 | the frame test: the score is not what the readout parses to, NaN included (characterised by `CreditCity.ScoreChangedIff`) |
| CreditCity.ReadoutRoundTrip | src/components/ThreeDCreditScore.jsx:406 | parsing the second `<br>` part of `Score<br>${n}` yields n |
| CreditCity.ScoreChangedIff | src/components/ThreeDCreditScore.jsx:406-409 | the change test on a readout written for `shown` is true exactly when the score differs from `shown` |
| CreditCity.Smooth | src/components/ThreeDCreditScore.jsx:412 | one step leaves 0.95 of the signed distance: no overshoot, same side, target is a fixed point |
| CreditCity.SmoothStepsDistance | src/components/ThreeDCreditScore.jsx:412-413 | after n frames the distance is 0.95^n of the initial one and the position stays between start and target |
| CreditCity.CameraFor | src/components/ThreeDCreditScore.jsx:379-395 | followScore gives position (m,7,12) and target (m,5,0); the three named presets give their constants; any other mode gives nothing |
| CreditCity.FollowCameraFacesIndicator | src/components/ThreeDCreditScore.jsx:387-390 | the follow camera's x equals its target's x, lies in [-40, 40], and stands in front of the target |
| CreditCity.CityView.constructor | src/components/ThreeDCreditScore.jsx:3-9 | the score state starts at the mount score; the registry is empty and nothing is scheduled |
| CreditCity.CityView.Running | src/components/ThreeDCreditScore.jsx:221-427 | the state of a scene while its frame loop runs: frame pending, canvas attached, hook installed, five labels and the readout registered, group centres laid out, and the indicator at the captured score's colour, readout and position (kept by `RunFrame`, `HandleScoreChange` and `JumpToScore`) |
| CreditCity.CityView.Cleanup | src/components/ThreeDCreditScore.jsx:56-72 | the pending frame is cancelled, the canvas detached and the registry empty |
| CreditCity.CityView.BuildCity | src/components/ThreeDCreditScore.jsx:221-275 | five range labels are appended in table order, and group i is placed at the cursor's centre for band i |
| CreditCity.CityView.CreateScoreIndicator | src/components/ThreeDCreditScore.jsx:281-339 | the indicator takes the score's colour and x-position, the readout shows the score, and one element is appended |
| CreditCity.CityView.UpdateColor | src/components/ThreeDCreditScore.jsx:349-358 | colour and readout follow the new score, and then the change test is false |
| CreditCity.CityView.Retarget | src/components/ThreeDCreditScore.jsx:406-409 | when the readout does not show the captured score, colour, readout and target are reset to it; otherwise they stay; afterwards the test is false |
| CreditCity.CityView.Animate | src/components/ThreeDCreditScore.jsx:402-424 | the next frame is requested; colour, readout and target are reset to the captured score exactly when the test fires; position advances one smoothing step |
| CreditCity.CityView.BuildScene | src/components/ThreeDCreditScore.jsx:111-399 | the initial camera, the attached canvas, the five labels and the readout in that order, the band group centres, the indicator at the captured score's colour and position, and the hook installed |
| CreditCity.CityView.InitScene | src/components/ThreeDCreditScore.jsx:92-454 | after a successful load the scene is running with exactly six overlay elements (five labels, one readout); after a failed load only the cleanup has happened |
| CreditCity.CityView.RunFrame | src/components/ThreeDCreditScore.jsx:403 | a cancelled frame changes nothing; on a running scene a frame keeps it running and leaves the indicator where it was |
| CreditCity.CityView.ChangeCameraView | src/components/ThreeDCreditScore.jsx:386-395 | once the hook is installed, the camera becomes the camera of the mode for the mount score, or stays for an unknown mode |
| CreditCity.CityView.HandleScoreChange | src/components/ThreeDCreditScore.jsx:12-14 | the score state becomes the parsed slider value; a running scene is unaffected |
| CreditCity.CityView.JumpToScore | src/components/ThreeDCreditScore.jsx:17-19 | the score state becomes the preset; a running scene is unaffected |
| CreditCity.JumpLeavesIndicatorAtMountScore | src/components/ThreeDCreditScore.jsx:398-409 | after mounting at 700, pressing Poor and two frames: the badge says Poor, the indicator is still at x(700) and yellow |
| CreditCalculator.HandleChange | src/components/CreditCalculator.jsx:19-25 | the named field takes the parsed value and the other four keep theirs |
| CreditCalculator.HandleChangeSliderValue | src/components/CreditCalculator.jsx:19-25 | a slider reporting `${n}` sets its field to n |
| CreditCalculator.RawScore | src/components/CreditCalculator.jsx:43-49 | `Math.floor` of the weighted sum on exact numbers (its integer form is `CreditCalculator.RawScoreExact`) |
| CreditCalculator.RawScoreExact | src/components/CreditCalculator.jsx:43-49 | the floored sum equals `(7*ph + 3*chl) div 2 + 3*(100-cu) + mix + nc` |
| CreditCalculator.CalculateScore | src/components/CreditCalculator.jsx:52 | the result is in [300, 850]; it equals the raw score inside the range, and the nearer bound outside it |
| CreditCalculator.RawScoreRange | src/components/CreditCalculator.jsx:99-167 | within the sliders' bounds the raw score lies in [0, 895] |
| CreditCalculator.ScoreMonotone | src/components/CreditCalculator.jsx:43-52 | raw and reported score are non-decreasing in ph, chl, mix, nc and non-increasing in cu |
| CreditCalculator.ExtremesReachBothClampBounds | src/components/CreditCalculator.jsx:43-52 | the worst sliders give raw 0 and report 300; the best give raw 895 and report 850 |
| CreditCalculator.DefaultScore | src/components/CreditCalculator.jsx:7-13 | the default sliders give floor(427.5) = 427 |
| CreditCalculator.ScoreLabel | src/components/CreditCalculator.jsx:233-236 | the label is the band name of the score's rank |
| CreditCalculator.LabelsAgree | src/components/CreditCalculator.jsx:233-236 | the calculator, dashboard and 3D view name every score's band alike |
| CreditCalculator.RingColor | src/components/CreditCalculator.jsx:214-219 | four colours by rank with Very Good and Excellent merged; blue exactly when s >= 740 |
| CreditCalculator.RingColorAgainstDashboard | src/components/CreditCalculator.jsx:214-219 | the ring colour equals the dashboard's below 800; at 800 and above the calculator is blue and the dashboard purple |
| CreditCalculator.DashOffset | src/components/CreditCalculator.jsx:223 | 753.6 at 300, 0 at 850, within [0, 753.6] in between |
| CreditCalculator.DashOffsetDecreasing | src/components/CreditCalculator.jsx:225 | the offset strictly decreases as the score rises |
| CreditCalculator.VisualizationProps | src/components/CreditCalculator.jsx:299 | the result (700 when absent or 0) goes to the `score` prop, and `initialScore` is left unset |
| CreditCalculator.VisualizationIgnoresResult | src/components/CreditCalculator.jsx:299 | for every form, the 3D tab mounts at 700, which differs from any other calculated score |
| Dashboard.FactorWeightsSumTo100 | src/components/Dashboard.jsx:9-45 | the five factor weights sum to 100 |
| Dashboard.FactorStatusesKnown | src/components/Dashboard.jsx:9-45 | every factor's status maps to a class other than the grey fallback |
| Dashboard.HistoryMatchesCaption | src/components/Dashboard.jsx:54-61 | the history is non-decreasing, ends at the displayed 750 and rises by the caption's 35 points |
| Dashboard.ScoreTextColor | src/components/Dashboard.jsx:73-79 | the class is the rank's entry of red, yellow, green, blue, purple |
| Dashboard.StatusColor | src/components/Dashboard.jsx:82-90 | excellent, good, fair and poor map to green, blue, yellow and red; any other string to grey |
| Dashboard.StatusColorsDistinct | src/components/Dashboard.jsx:82-90 | the four statuses get four distinct classes, none of them grey |
| Dashboard.RingStroke | src/components/Dashboard.jsx:160-165 | the stroke is the rank's entry of five colours |
| Dashboard.ScoreLabel | src/components/Dashboard.jsx:175-178 | the label is the band name of the score's rank |
| Dashboard.DisplayedScoreIsVeryGood | src/components/Dashboard.jsx:6 | the displayed 750 is labelled Very Good, coloured text-blue-500 and stroked #3b82f6 |
| Dashboard.RingDashOffset | src/components/Dashboard.jsx:169 | 540.8 at 300, 0 at 850, within [0, 540.8] in between |
| Dashboard.RingDashOffsetDecreasing | src/components/Dashboard.jsx:169 | the offset strictly decreases as the score rises |
| Dashboard.BarHeight | src/components/Dashboard.jsx:212 | 0 at 300, 100 at 850, within [0, 100] in between |
| Dashboard.BarHeightIncreasing | src/components/Dashboard.jsx:212 | the height strictly increases with the score |
| Dashboard.BarColor | src/components/Dashboard.jsx:213-217 | four colours by rank with Very Good and Excellent merged; blue exactly when s >= 740 |
| Dashboard.ChartX | src/components/Dashboard.jsx:236 | undefined (NaN) exactly for a one-entry history; otherwise in [0, 100], 0 for the first entry and 100 for the last |
| Dashboard.ChartXIncreasing | src/components/Dashboard.jsx:236 | with two or more entries, x strictly increases with the index |
| Dashboard.ChartY | src/components/Dashboard.jsx:237 | 40 at 300, 0 at 850, within [0, 40] in between |
| Dashboard.ChartYDecreasing | src/components/Dashboard.jsx:237 | a higher score gets a strictly smaller y |
| Dashboard.ChartPoint | src/components/Dashboard.jsx:246-248 | a polyline vertex, which is also a dot centre, is defined exactly when there are two or more entries, at (ChartX, ChartY) |
| Dashboard.HistoryPointsInViewBox | src/components/Dashboard.jsx:234-258 | every point of the hardcoded history is defined and inside the 100 by 40 view box |

## Left out

- Three.js scene construction is not modelled: meshes, materials, lights, floor, grid and renderer. These are library calls with no logic to check.
- The randomised buildings and windows of `createBuildingGroup` are not modelled. They depend on `Math.random`, and the window counts are floating-point floors.
- The floating bob `5 + sin(Date.now() * 0.001) * 0.5` is not modelled: it reads the wall clock and a transcendental function. The ring turn of 0.01 per frame is modelled.
- Screen projection is not modelled: `vector.project(camera)` and the CSS writes of label and readout positions are a library call plus DOM styles. The registry keeps each label's 3D anchor x-position.
- Loading the rendering library from the CDN is a parameter: `InitScene(libraryLoaded)`. The early return when the container is missing is not modelled, because the container is attached before the effect runs.
- `requestAnimationFrame` timing is not modelled. A pending frame is a flag, and `RunFrame` is one display refresh.
- The resize handler is not modelled, and neither are React effects, `setTimeout` delays, the `calculating` flag, tabs, or framer-motion variants.
- `CityView.Cleanup`: its guard on the canvas tests whether the canvas is attached. The source tests whether a renderer was ever created, which is never reset. A second cleanup after the canvas was removed would make `removeChild` throw, and that case is not modelled.
- `Text.ParseInt` models only decimal parsing. `parseInt` without a radix would read a `0x` prefix as hexadecimal, which the readout's digits never have. Its white-space set is the common subset.
- `CreditCalculator.HandleChange` and `CityView.HandleScoreChange` require the slider value to parse as a number. A range input always reports decimal text, so the NaN case never arises.
- Floating point: the bounds on the linear maps and dash offsets hold in exact arithmetic, while JavaScript rounds results such as 753.6 * k / 550. The calculator's sum is exact in doubles, since every term is a multiple of 0.5 and far below 2^53.
- `P5Background.jsx` is not modelled: it is a random particle animation on a p5 canvas. Nor are `App.jsx`, `MainLayout.jsx`, `Header.jsx`, `Footer.jsx`, `Home.jsx`, `Landing.jsx` and `Signin.jsx`, which are static markup and routing.
- `Text.IntToString`, `Text.ParseIntOfIntToString`: integers are written out in full. JavaScript writes numbers of magnitude 1e21 and above in exponent form (`1e+21`, which `parseInt` reads as 1), and integers above 2^53 are not exact. The model treats scores as mathematical integers, so the round trip is modelled only for the written-out form; the mount score is the 700 default unless a caller passes `initialScore`.
- `CreditCity.CameraFor`, `CityView.ChangeCameraView`: a mode that names a property every object inherits (`toString`, `constructor`, `__proto__`) passes the `cameraPositions[mode]` test, and `camera.position.copy(undefined)` then throws. The model gives no camera for such a mode and raises nothing; the four buttons pass only `fixed`, `overhead`, `firstPerson` and `followScore`.
