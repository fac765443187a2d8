/**
 The physical picture the analysis displays, written as reference definitions: the direct
 path and the two wall reflections, their lengths and arrival delays, and the carrier
 frequency each path arrives with while the receiver moves. These are read off the signal
 equations the component shows; the component itself computes its numbers by shortcut
 formulas, and the lemmas beside the analysis relate the two.
 */
module Propagation {

  /** The propagation speed in the units of the analysis: every formula divides by 3. */
  const C: real := 3.0

  /** The way the receiver moves when its velocity is nonzero. */
  datatype Direction = Left | Right

  datatype Path = Direct | LeftReflection | RightReflection

  /** Distance travelled from transmitter to receiver along a path. */
  function PathLength(p: Path, d: real, r: real): real
  {
    match p
    case Direct => r
    case LeftReflection => 2.0 * d - r
    case RightReflection => 4.0 * d - 3.0 * r
  }

  /** Time a path takes. */
  function ArrivalDelay(p: Path, d: real, r: real): real
  {
    PathLength(p, d, r) / C
  }

  /** Phase lag of a path behind the direct path, as a multiple of pi: 2 f times the extra delay. */
  function PhaseLag(p: Path, f: real, d: real, r: real): real
  {
    2.0 * f * (ArrivalDelay(p, d, r) - ArrivalDelay(Direct, d, r))
  }

  /**
   +1 when the path arrives compressed to f(1 + v/c), -1 when stretched to f(1 - v/c).
   Moving right takes the receiver away from the transmitter and the left wall and towards
   the right wall; moving left does the opposite.
   */
  function ShiftSign(p: Path, dir: Direction): real
  {
    match dir
    case Right => (if p == RightReflection then 1.0 else -1.0)
    case Left => (if p == RightReflection then -1.0 else 1.0)
  }

  /** Carrier frequency received along a path at velocity `v`. */
  function ReceivedFrequency(p: Path, dir: Direction, f: real, v: real): real
  {
    f * (1.0 + ShiftSign(p, dir) * v / C)
  }

  /** The paths present: always the direct one, then each reflection whose wall is up. */
  function VisiblePaths(wall1: bool, wall2: bool): (ps: seq<Path>)
    ensures |ps| > 0 && ps[0] == Direct
    ensures LeftReflection in ps <==> wall1
    ensures RightReflection in ps <==> wall2
    ensures forall i, j :: 0 <= i < j < |ps| ==> ps[i] != ps[j]
  {
    [Direct] + (if wall1 then [LeftReflection] else []) + (if wall2 then [RightReflection] else [])
  }

  function MaxOf(xs: seq<real>): (m: real)
    requires |xs| > 0
    ensures m in xs
    ensures forall i :: 0 <= i < |xs| ==> xs[i] <= m
  {
    if |xs| == 1 then xs[0]
    else
      var rest := MaxOf(xs[1..]);
      if xs[0] >= rest then xs[0] else rest
  }

  function MinOf(xs: seq<real>): (m: real)
    requires |xs| > 0
    ensures m in xs
    ensures forall i :: 0 <= i < |xs| ==> m <= xs[i]
  {
    if |xs| == 1 then xs[0]
    else
      var rest := MinOf(xs[1..]);
      if xs[0] <= rest then xs[0] else rest
  }

  /** The difference between the latest and the earliest arrival among the paths. */
  function DelaySpreadOf(ps: seq<Path>, d: real, r: real): real
    requires |ps| > 0
  {
    var delays := seq(|ps|, i requires 0 <= i < |ps| => ArrivalDelay(ps[i], d, r));
    MaxOf(delays) - MinOf(delays)
  }

  /** The difference between the most and the least shifted received frequency among the paths. */
  function DopplerSpreadOf(ps: seq<Path>, dir: Direction, f: real, v: real): real
    requires |ps| > 0
  {
    var freqs := seq(|ps|, i requires 0 <= i < |ps| => ReceivedFrequency(ps[i], dir, f, v));
    MaxOf(freqs) - MinOf(freqs)
  }
}
