/**
 The channel analysis component: from the wall switches, the receiver's velocity and
 direction and the geometry `d`, `r` and carrier `f`, the numbers it reports — the phase
 difference of each visible wall's reflection and its interference class, the Doppler
 spread, the delay spread, the coherence bandwidth, and the flag handed to the chart.
 */
module Analysis {
  import opened Wrappers
  import opened JsNumber
  import opened Propagation

  /** The component's props; an omitted `d`, `r` or `f` takes its default. */
  datatype Props = Props(
    wall1Visible: bool,
    wall2Visible: bool,
    velocity: real,
    direction: Direction,
    d: Option<real>,
    r: Option<real>,
    f: Option<real>)

  /** The props once the defaults are filled in. Wall 1 is the left wall, wall 2 the right. */
  datatype Scene = Scene(
    wall1Visible: bool,
    wall2Visible: bool,
    velocity: real,
    direction: Direction,
    d: real,
    r: real,
    f: real)

  const DefaultD: real := 20.0
  const DefaultR: real := 10.0
  const DefaultF: real := 900.0

  function OrDefault(o: Option<real>, default: real): real
  {
    match o
    case Some(x) => x
    case None => default
  }

  function WithDefaults(p: Props): Scene
  {
    Scene(p.wall1Visible, p.wall2Visible, p.velocity, p.direction,
          OrDefault(p.d, DefaultD), OrDefault(p.r, DefaultR), OrDefault(p.f, DefaultF))
  }

  /** The props the 3D scene hands over: the walls, velocity, direction, `d` and `r`, never `f`. */
  function ThreeSceneProps(wall1: bool, wall2: bool, velocity: real, direction: Direction, d: real, r: real): Props
  {
    Props(wall1, wall2, velocity, direction, Some(d), Some(r), None)
  }

  datatype Interference = Constructive | Destructive

  /** A reported phase difference, as a multiple of pi, with its class. */
  datatype PhaseReport = PhaseReport(multipleOfPi: real, interference: Interference)

  /** A coherence bandwidth; a zero delay spread makes it infinite. */
  datatype Bandwidth = Finite(value: real) | Infinite

  /** What the component reports; `None` where a configuration shows no value. */
  datatype AnalysisResult = AnalysisResult(
    leftWall: Option<PhaseReport>,
    rightWall: Option<PhaseReport>,
    dopplerSpread: Option<real>,
    delaySpread: Option<real>,
    coherenceBandwidth: Option<Bandwidth>,
    chartConstructive: Option<bool>)

  /** The left wall's phase lag behind the direct path, as a multiple of pi. */
  function PhaseDifference(f: real, d: real, r: real): (m: real)
    ensures m == PhaseLag(LeftReflection, f, d, r)
  {
    ((4.0 * f * 1.0) / 3.0) * (d - r)
  }

  /** `td_0_cal`: how much later the left wall's reflection arrives than the direct path. */
  function DelayZero(d: real, r: real): (t: real)
    ensures t == ArrivalDelay(LeftReflection, d, r) - ArrivalDelay(Direct, d, r)
  {
    var diff := d - r;
    (2.0 * diff) / 3.0
  }

  /** `dopp_v`: how far the right wall's received frequency lies above the direct path's when moving right. */
  function DopplerV(f: real, velocity: real): (s: real)
    ensures s == ReceivedFrequency(RightReflection, Right, f, velocity) - ReceivedFrequency(Direct, Right, f, velocity)
    ensures s == ReceivedFrequency(Direct, Left, f, velocity) - ReceivedFrequency(RightReflection, Left, f, velocity)
    ensures s == 2.0 * f * velocity / C
  {
    ((2.0 * f * 1.0) / 3.0) * velocity
  }

  /** Constructive exactly when the phase multiple is an even whole number; the test is `x % 2 === 0`. */
  function Classify(x: real): (c: Interference)
    ensures c == Constructive <==> IsEvenInteger(x)
  {
    RemainderTwoZeroIff(x);
    if RemainderTwo(x) == 0.0 then Constructive else Destructive
  }

  /** The three blocks the component renders one after the other, each under its own guard. */
  datatype Regime = Stationary | MovingRight | MovingLeft

  predicate Guard(g: Regime, velocity: real, direction: Direction)
  {
    match g
    case Stationary => velocity == 0.0
    case MovingRight => velocity != 0.0 && direction == Right
    case MovingLeft => velocity != 0.0 && direction == Left
  }

  /** The block whose guard holds; no other guard holds with it. */
  function RegimeOf(velocity: real, direction: Direction): (g: Regime)
    ensures Guard(g, velocity, direction)
    ensures forall h :: Guard(h, velocity, direction) ==> h == g
  {
    if velocity == 0.0 then Stationary
    else if direction == Right then MovingRight
    else MovingLeft
  }

  /** The left wall's phase difference, shown only while the left wall is up. */
  function LeftWallPhase(s: Scene): (o: Option<PhaseReport>)
    ensures o.Some? <==> s.wall1Visible
    ensures o.Some? ==> o.value.multipleOfPi == PhaseLag(LeftReflection, s.f, s.d, s.r)
    ensures o.Some? ==> (o.value.interference == Constructive <==> IsEvenInteger(o.value.multipleOfPi))
  {
    if s.wall1Visible then
      var m := PhaseDifference(s.f, s.d, s.r);
      Some(PhaseReport(m, Classify(m)))
    else None
  }

  /**
   The right wall's phase difference, twice the left wall's, shown only while the right wall
   is up. Twice a number is an even whole number exactly when the number is whole, so the
   right wall is constructive exactly when the left wall's multiple is a whole number.
   */
  function RightWallPhase(s: Scene): (o: Option<PhaseReport>)
    ensures o.Some? <==> s.wall2Visible
    ensures o.Some? ==> o.value.multipleOfPi == PhaseLag(RightReflection, s.f, s.d, s.r)
    ensures o.Some? ==> o.value.multipleOfPi == 2.0 * PhaseDifference(s.f, s.d, s.r)
    ensures o.Some? ==> (o.value.interference == Constructive <==> IsInteger(PhaseDifference(s.f, s.d, s.r)))
  {
    if s.wall2Visible then
      var m := 2.0 * PhaseDifference(s.f, s.d, s.r);
      DoubleIsEvenIff(PhaseDifference(s.f, s.d, s.r));
      Some(PhaseReport(m, Classify(m)))
    else None
  }

  /**
   The Doppler spread each block reports: always 0 while stationary; while moving, `dopp_v`
   with the right wall up, 0 with only the left wall up, and no value with neither.
   */
  function DopplerSection(g: Regime, s: Scene): (o: Option<real>)
    ensures g == Stationary ==> o == Some(0.0)
    ensures g != Stationary && s.wall2Visible ==> o == Some(2.0 * s.f * s.velocity / C)
    ensures g != Stationary && s.wall1Visible && !s.wall2Visible ==> o == Some(0.0)
    ensures g != Stationary && !s.wall1Visible && !s.wall2Visible ==> o == None
  {
    match g
    case Stationary => Some(0.0)
    case MovingRight | MovingLeft =>
      if s.wall2Visible then
        var dv := DopplerV(s.f, s.velocity);
        assert dv == 2.0 * s.f * s.velocity / C;
        Some(dv)
      else if s.wall1Visible && !s.wall2Visible then Some(0.0)
      else None
  }

  /**
   The delay spread, shown while some wall is up: the extra delay of the right wall's
   reflection when that wall is up, otherwise the left wall's.
   */
  function DelaySpread(s: Scene): (o: Option<real>)
    ensures o.Some? <==> s.wall1Visible || s.wall2Visible
    ensures s.wall1Visible && !s.wall2Visible ==>
      o == Some(ArrivalDelay(LeftReflection, s.d, s.r) - ArrivalDelay(Direct, s.d, s.r))
    ensures s.wall2Visible ==>
      o == Some(ArrivalDelay(RightReflection, s.d, s.r) - ArrivalDelay(Direct, s.d, s.r))
  {
    var td0 := DelayZero(s.d, s.r);
    if s.wall1Visible && !s.wall2Visible then Some(td0)
    else if !s.wall1Visible && s.wall2Visible then Some(2.0 * td0)
    else if s.wall1Visible && s.wall2Visible then Some(2.0 * td0)
    else None
  }

  /** JavaScript's `1 / x` on a finite `x`: infinite at zero. */
  function Reciprocal(x: real): (b: Bandwidth)
    ensures b.Infinite? <==> x == 0.0
    ensures b.Finite? ==> b.value * x == 1.0
  {
    if x == 0.0 then Infinite else Finite(1.0 / x)
  }

  /** The coherence bandwidth, shown with the delay spread: its reciprocal. */
  function CoherenceBandwidth(s: Scene): (o: Option<Bandwidth>)
    ensures o.Some? <==> DelaySpread(s).Some?
    ensures o.Some? ==> (o.value.Infinite? <==> DelaySpread(s).value == 0.0)
    ensures o.Some? && o.value.Finite? ==> o.value.value * DelaySpread(s).value == 1.0
  {
    var td0 := DelayZero(s.d, s.r);
    if s.wall1Visible && !s.wall2Visible then Some(Reciprocal(td0))
    else if !s.wall1Visible && s.wall2Visible then Some(Reciprocal(2.0 * td0))
    else if s.wall1Visible && s.wall2Visible then Some(Reciprocal(2.0 * td0))
    else None
  }

  /**
   The chart is drawn while some wall is up, and is told the LEFT wall's class whichever
   walls are up.
   */
  function ChartFlag(s: Scene): (o: Option<bool>)
    ensures o.Some? <==> s.wall1Visible || s.wall2Visible
    ensures o.Some? ==> (o.value <==> IsEvenInteger(PhaseLag(LeftReflection, s.f, s.d, s.r)))
  {
    if s.wall1Visible || s.wall2Visible then
      RemainderTwoZeroIff(PhaseDifference(s.f, s.d, s.r));
      Some(RemainderTwo(PhaseDifference(s.f, s.d, s.r)) == 0.0)
    else None
  }

  /** Everything the block whose guard holds reports. */
  function AnalyzeScene(s: Scene): (res: AnalysisResult)
    ensures res.leftWall.Some? && res.rightWall.Some? ==>
      res.rightWall.value.multipleOfPi == 2.0 * res.leftWall.value.multipleOfPi
    ensures res.leftWall.Some? && res.rightWall.Some? && res.leftWall.value.interference == Constructive ==>
      res.rightWall.value.interference == Constructive
    ensures res.chartConstructive.Some? <==> res.leftWall.Some? || res.rightWall.Some?
    ensures res.leftWall.Some? ==>
      res.chartConstructive == Some(res.leftWall.value.interference == Constructive)
    ensures res.delaySpread.Some? <==> res.chartConstructive.Some?
    ensures res.dopplerSpread.None? <==> s.velocity != 0.0 && !s.wall1Visible && !s.wall2Visible
  {
    var g := RegimeOf(s.velocity, s.direction);
    var res := AnalysisResult(
      LeftWallPhase(s), RightWallPhase(s), DopplerSection(g, s),
      DelaySpread(s), CoherenceBandwidth(s), ChartFlag(s));
    EvenIsInteger(PhaseDifference(s.f, s.d, s.r));
    res
  }

  /**
   The component applied to its props: given values are used as they are, and an omitted
   `d`, `r` or `f` reads as 20, 10 or 900.
   */
  function Analyze(p: Props): (res: AnalysisResult)
    ensures p.d.Some? && p.r.Some? && p.f.Some? ==>
      res == AnalyzeScene(Scene(p.wall1Visible, p.wall2Visible, p.velocity, p.direction, p.d.value, p.r.value, p.f.value))
    ensures p.d.Some? && p.r.Some? && p.f.None? ==>
      res == AnalyzeScene(Scene(p.wall1Visible, p.wall2Visible, p.velocity, p.direction, p.d.value, p.r.value, 900.0))
    ensures p.d.None? && p.r.None? && p.f.None? ==>
      res == AnalyzeScene(Scene(p.wall1Visible, p.wall2Visible, p.velocity, p.direction, 20.0, 10.0, 900.0))
  {
    AnalyzeScene(WithDefaults(p))
  }
}
