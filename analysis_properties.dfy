/**
 Properties of the analysis that relate several calls, or relate its shortcut formulas
 to the reference definitions of the propagation model.
 */
module AnalysisProperties {
  import opened Wrappers
  import opened JsNumber
  import opened Propagation
  import opened Analysis

  /**
   The numbers do not depend on the direction: the two moving blocks differ only in equation
   text. This holds by construction, since `DopplerSection` reads both moving blocks alike and
   no other reported quantity looks at the regime.
   */
  lemma DirectionDoesNotMatter(s: Scene, dir: Direction)
    ensures AnalyzeScene(s.(direction := dir)) == AnalyzeScene(s)
  {
  }

  /** The 3D scene never passes `f`, so the analysis always runs at 900. */
  lemma ThreeSceneUsesDefaultFrequency(wall1: bool, wall2: bool, velocity: real, direction: Direction, d: real, r: real)
    ensures Analyze(ThreeSceneProps(wall1, wall2, velocity, direction, d, r))
         == AnalyzeScene(Scene(wall1, wall2, velocity, direction, d, r, 900.0))
  {
  }

  /**
   Whatever is reported as Doppler spread is, in magnitude, the spread between the most and
   the least shifted frequency among the paths present.
   */
  lemma DopplerIsFrequencySpread(s: Scene)
    ensures AnalyzeScene(s).dopplerSpread.Some? ==>
      Abs(AnalyzeScene(s).dopplerSpread.value)
        == DopplerSpreadOf(VisiblePaths(s.wall1Visible, s.wall2Visible), s.direction, s.f, s.velocity)
  {
    var reported := DopplerSection(RegimeOf(s.velocity, s.direction), s);
    assert AnalyzeScene(s).dopplerSpread == reported;
    if s.velocity != 0.0 && s.wall2Visible {
      var dv := DopplerV(s.f, s.velocity);
      assert reported == Some(dv);
      FrequencySpreadWithRightWall(s);
    } else {
      assert reported.Some? ==> reported.value == 0.0;
      FrequencySpreadWithoutShift(s);
    }
  }

  /** With the right wall up the two frequencies present are the direct and the right wall's. */
  lemma FrequencySpreadWithRightWall(s: Scene)
    requires s.wall2Visible
    ensures DopplerSpreadOf(VisiblePaths(s.wall1Visible, s.wall2Visible), s.direction, s.f, s.velocity)
      == Abs(DopplerV(s.f, s.velocity))
  {
    var ps := VisiblePaths(s.wall1Visible, s.wall2Visible);
    var freqs := seq(|ps|, i requires 0 <= i < |ps| => ReceivedFrequency(ps[i], s.direction, s.f, s.velocity));
    var direct := ReceivedFrequency(Direct, s.direction, s.f, s.velocity);
    var left := ReceivedFrequency(LeftReflection, s.direction, s.f, s.velocity);
    var right := ReceivedFrequency(RightReflection, s.direction, s.f, s.velocity);
    assert left == direct;
    if s.wall1Visible {
      assert ps == [Direct, LeftReflection, RightReflection];
      assert freqs == [direct, direct, right];
    } else {
      assert ps == [Direct, RightReflection];
      assert freqs == [direct, right];
    }
    SpreadOfTwoValues(freqs, direct, right);
    var dv := DopplerV(s.f, s.velocity);
    if s.direction == Right {
      assert dv == right - direct;
    } else {
      assert dv == direct - right;
    }
  }

  /** Standing still, or with the right wall down, every path present arrives at the same frequency. */
  lemma FrequencySpreadWithoutShift(s: Scene)
    requires s.velocity == 0.0 || !s.wall2Visible
    ensures DopplerSpreadOf(VisiblePaths(s.wall1Visible, s.wall2Visible), s.direction, s.f, s.velocity) == 0.0
  {
  }

  /** A sequence holding two values and nothing else spreads by their distance. */
  lemma SpreadOfTwoValues(xs: seq<real>, a: real, b: real)
    requires a in xs && b in xs
    requires forall i :: 0 <= i < |xs| ==> xs[i] == a || xs[i] == b
    ensures MaxOf(xs) - MinOf(xs) == Abs(a - b)
  {
  }

  /**
   With the receiver between the transmitter and the walls (`d >= r`), the reported delay spread is the
   gap between the latest and the earliest arrival among the paths present.
   */
  lemma DelaySpreadIsArrivalSpread(s: Scene)
    requires s.d >= s.r
    ensures AnalyzeScene(s).delaySpread.Some? ==>
      AnalyzeScene(s).delaySpread.value == DelaySpreadOf(VisiblePaths(s.wall1Visible, s.wall2Visible), s.d, s.r)
  {
    var ps := VisiblePaths(s.wall1Visible, s.wall2Visible);
    var delays := seq(|ps|, i requires 0 <= i < |ps| => ArrivalDelay(ps[i], s.d, s.r));
    var direct := ArrivalDelay(Direct, s.d, s.r);
    var left := ArrivalDelay(LeftReflection, s.d, s.r);
    var right := ArrivalDelay(RightReflection, s.d, s.r);
    assert direct <= left <= right;
    assert delays[0] == direct;
    assert forall i :: 0 <= i < |delays| ==> delays[i] == direct || delays[i] == left || delays[i] == right;
    assert MinOf(delays) == direct;
    if s.wall2Visible {
      assert delays[|delays| - 1] == right;
      assert MaxOf(delays) == right;
    } else if s.wall1Visible {
      assert delays[1] == left;
      assert MaxOf(delays) == left;
    }
  }

  /** Raising the right wall halves the left wall's coherence bandwidth. */
  lemma RightWallHalvesCoherenceBandwidth(s: Scene, b: real)
    requires CoherenceBandwidth(s.(wall1Visible := true, wall2Visible := false)) == Some(Finite(b))
    ensures CoherenceBandwidth(s.(wall2Visible := true)) == Some(Finite(b / 2.0))
  {
    var td0 := DelayZero(s.d, s.r);
    assert b == 1.0 / td0;
    assert 1.0 / (2.0 * td0) == (1.0 / td0) / 2.0;
  }

  /** With `d == r` every reflection arrives with the direct path and the bandwidth is infinite. */
  lemma EqualDistancesGiveInfiniteBandwidth(s: Scene)
    requires s.d == s.r && (s.wall1Visible || s.wall2Visible)
    ensures AnalyzeScene(s).coherenceBandwidth == Some(Infinite)
    ensures AnalyzeScene(s).delaySpread == Some(0.0)
  {
  }

  /** Default geometry, stationary, left wall only: 12000 pi, constructive. */
  lemma StationaryLeftWallScenario()
    ensures Analyze(ThreeSceneProps(true, false, 0.0, Right, 20.0, 10.0))
      == AnalysisResult(
           Some(PhaseReport(12000.0, Constructive)), None, Some(0.0),
           Some(20.0 / 3.0), Some(Finite(3.0 / 20.0)), Some(true))
  {
  }

  /** Default geometry moving at 15 with both walls: Doppler spread 9000, right wall 24000 pi. */
  lemma MovingBothWallsScenario()
    ensures Analyze(ThreeSceneProps(true, true, 15.0, Left, 20.0, 10.0))
      == AnalysisResult(
           Some(PhaseReport(12000.0, Constructive)), Some(PhaseReport(24000.0, Constructive)), Some(9000.0),
           Some(40.0 / 3.0), Some(Finite(3.0 / 40.0)), Some(true))
  {
  }

  /** No wall: no phase, delay, bandwidth or chart; Doppler 0 only while stationary. */
  lemma NoWallScenario(velocity: real, direction: Direction)
    ensures var res := Analyze(ThreeSceneProps(false, false, velocity, direction, 20.0, 10.0));
      && res.leftWall == None && res.rightWall == None
      && res.delaySpread == None && res.coherenceBandwidth == None && res.chartConstructive == None
      && res.dopplerSpread == (if velocity == 0.0 then Some(0.0) else None)
  {
  }

  /** Only the right wall up, with a phase multiple that is whole but odd: the right wall is constructive, yet the chart is told destructive. */
  lemma ChartIgnoresRightWall()
    ensures var res := AnalyzeScene(Scene(false, true, 0.0, Right, 10.75, 10.0, 1.0));
      && res.rightWall == Some(PhaseReport(2.0, Constructive))
      && res.chartConstructive == Some(false)
  {
  }
}
