# Multipath channel analysis

A model of the analysis panel of a multipath radio teaching aid. A transmitter and a
receiver stand between two walls; either wall may be up, and the receiver may move left or
right. The panel reports, for each wall that is up, the phase difference between its
reflection and the direct signal (a multiple of pi) and whether the two interfere
constructively or destructively. It also reports the Doppler spread, the delay spread, the
coherence bandwidth, and a flag telling the waveform chart which picture to draw.

The component computes everything from three formulas: the phase multiple `4f(d-r)/3`, the
delay `td0 = 2(d-r)/3` and the Doppler shift `2fv/3`. It then selects and scales them in
three blocks, one per motion regime: stationary, moving right, moving left. Each block
branches again on which walls are up. The model is pure functions over `real`, with
JavaScript numbers read as exact rationals.

- `wrappers.dfy`, module `Wrappers`: `Option`, for values a configuration does not show.
- `js_number.dfy`, module `JsNumber`: JavaScript's `x % 2`, modelled as the ECMA-262
  remainder (quotient rounded toward zero, result with the sign of `x`), and its zero test.
- `propagation.dfy`, module `Propagation`: reference definitions taken from the signal
  equations the panel prints. These are the path lengths `r`, `2d-r` and `4d-3r`, the
  arrival delays, the phase lag `2f·Δt`, and the received frequencies `f(1±v/c)` of each path
  in each direction. It also defines the spread (maximum minus minimum) over the paths
  present. The propagation speed is `c = 3`, the divisor used by every formula of the
  component.
- `analysis.dfy`, module `Analysis`: the props with their defaults (`d = 20`, `r = 10`,
  `f = 900`), the three formulas, the classification, the three regime guards, each
  reported quantity, and `AnalyzeScene`/`Analyze`.
- `analysis_properties.dfy`, module `AnalysisProperties`: lemmas that relate several calls,
  or relate the shortcut formulas to the reference definitions. It also holds concrete
  scenarios.

The component departs from the physical picture in four places; the model follows the component:

- Doppler spread is the signed `2fv/3`, not its magnitude.
- The geometry is never validated.
- With the right wall up, the delay spread is `2·td0` even when `d < r`, where the left
  wall's path would be the longer one.
- Moving with no wall up shows no Doppler value at all, rather than 0.

## Model

| member | source | states |
|---|---|---|
| `JsNumber.RemainderTwo` | components/Analysis.tsx:77 | `x % 2` has the sign of `x`, magnitude below 2, and differs from `x` by an even whole number |
| `JsNumber.RemainderTwoZeroIff` | components/Analysis.tsx:77-79 | `x % 2 === 0` holds exactly when `x` is an even whole number, so the unrounded value decides the class |
| `Analysis.PhaseDifference` | components/Analysis.tsx:16-18 | `phasedifference` is the left reflection's phase lag `2f·((2d-r)-r)/c` behind the direct path |
| `Analysis.DelayZero` | components/Analysis.tsx:29-31 | `td_0_cal` is the left reflection's arrival delay minus the direct path's |
| `Analysis.DopplerV` | components/Analysis.tsx:32 | `dopp_v` is `2fv/c`, the gap between the right reflection's and the direct path's received frequency, in both directions |
| `Analysis.Classify` | components/Analysis.tsx:77-79 | constructive exactly when the phase multiple is an even whole number |
| `Analysis.RegimeOf` | components/Analysis.tsx:40-431 | exactly one of the guards `v == 0`, `v != 0 && Right`, `v != 0 && Left` holds |
| `Analysis.LeftWallPhase` | components/Analysis.tsx:62-83 | reported iff the left wall is up; the value is the left phase lag, and it is constructive iff that value is an even whole number |
| `Analysis.RightWallPhase` | components/Analysis.tsx:84-105 | reported iff the right wall is up; the value is the right phase lag and twice the left's; it is constructive iff the left multiple is a whole number |
| `Analysis.DopplerSection` | components/Analysis.tsx:231-241 | Doppler table: 0 when stationary (lines 106-107); when moving, `2fv/c` with the right wall up, 0 with only the left wall, nothing with neither (the same at lines 365-375) |
| `Analysis.DelaySpread` | components/Analysis.tsx:108-141 | reported iff some wall is up; the right reflection's extra delay if the right wall is up, else the left's |
| `Analysis.Reciprocal` | components/Analysis.tsx:145 | `1 / x` is infinite exactly at 0, and otherwise multiplies with `x` to 1 |
| `Analysis.CoherenceBandwidth` | components/Analysis.tsx:142-152 | reported with the delay spread; infinite iff the delay spread is 0, otherwise its reciprocal |
| `Analysis.ChartFlag` | components/Analysis.tsx:155-161 | the chart appears iff some wall is up, and its flag is the left wall's class even when only the right wall is up |
| `Analysis.Analyze` | components/Analysis.tsx:20-28 | given props are used as they are; omitted `d`, `r`, `f` read as 20, 10, 900, so the 3D scene's call (with `d` and `r`, without `f`) runs at 900 |
| `Analysis.AnalyzeScene` | components/Analysis.tsx:33-431 | right phase = 2 × left phase; left constructive implies right constructive; the chart flag equals the left wall's class; the chart appears iff a delay spread is shown; the Doppler value is missing iff moving with no wall up |
| `AnalysisProperties.DirectionDoesNotMatter` | components/Analysis.tsx:164-431 | the moving-right and moving-left blocks report identical numbers |
| `AnalysisProperties.ThreeSceneUsesDefaultFrequency` | components/ThreeScene.tsx:688-695 | the 3D scene's call omits `f`, so the analysis runs at `f = 900` |
| `AnalysisProperties.DopplerIsFrequencySpread` | components/Analysis.tsx:164-241 | any reported Doppler spread is, in magnitude, the largest minus the smallest received frequency over the paths present |
| `AnalysisProperties.FrequencySpreadWithRightWall` | components/Analysis.tsx:166-180 | with the right wall up, the frequency spread over the paths present is `|2fv/c|` |
| `AnalysisProperties.FrequencySpreadWithoutShift` | components/Analysis.tsx:300-306 | standing still, or with the right wall down, all paths present arrive at one frequency (the direct and left-wall factors agree, here and at lines 166-172) |
| `AnalysisProperties.DelaySpreadIsArrivalSpread` | components/Analysis.tsx:108-119 | for `d >= r`, the reported delay spread is the latest minus the earliest arrival over the paths present |
| `AnalysisProperties.RightWallHalvesCoherenceBandwidth` | components/Analysis.tsx:144-152 | raising the right wall halves the left-wall-only coherence bandwidth |
| `AnalysisProperties.EqualDistancesGiveInfiniteBandwidth` | components/Analysis.tsx:142-152 | with `d == r` and some wall up, the delay spread is 0 and the bandwidth is infinite |
| `AnalysisProperties.StationaryLeftWallScenario` | components/Analysis.tsx:40-161 | defaults, stationary, left wall only: 12000 pi constructive, Doppler 0, delay 20/3, bandwidth 3/20, chart constructive |
| `AnalysisProperties.MovingBothWallsScenario` | components/Analysis.tsx:298-431 | defaults, moving left at 15, both walls: 12000 pi and 24000 pi, Doppler 9000, delay 40/3, bandwidth 3/40 |
| `AnalysisProperties.NoWallScenario` | components/Analysis.tsx:106-107 | no wall: no phase, delay, bandwidth or chart; Doppler 0 only while stationary |
| `AnalysisProperties.ChartIgnoresRightWall` | components/Analysis.tsx:155-161 | with only the right wall up, the right wall can be constructive while the chart is told destructive |

## Left out

- Equation strings, headings and the `toFixed(2)`/`parseFloat` display rounding are left
  out. The model keeps exact values, so the right wall's delay is `2·td0` rather than
  twice the rounded `td0`. The class is always taken from the unrounded value, as in the
  code.
- The unit labels (`10^{-2} μs`, `MHz`, `Hz`) are display text and are not modelled. Read
  with those labels, the shown bandwidth `1/td0` MHz is one hundredth of the reciprocal of
  the shown delay `td0·10^{-2}` μs.
- `p_cal` is computed and never used, so it has no behaviour in the model.
- IEEE-754 doubles are left out: no NaN, no signed zero, no rounding. JavaScript's
  `1/0 = Infinity` becomes `Bandwidth.Infinite`, and its sign is not distinguished.
- The waveform chart (`CustomChart`), the 3D scene, its animation and its input widgets are
  presentation and are not part of this model. Only the props the scene passes to the
  analysis are modelled.
- `DopplerIsFrequencySpread` states the magnitude only. The sign of the reported value
  follows the sign of `f·v`.
- `DelaySpreadIsArrivalSpread` requires `d >= r`. For `d < r` the code still reports
  `td0` or `2·td0`, which is then not the spread of the arrivals.
