/**
  The thresholds of the instruction engine, in metres and degrees. The C#
  code declares them as single-precision floats; here they are the decimal values
  as written.
*/
module Constants {

  /** Minimum elevation change of a span to treat it as stairs. */
  const MinStairElevation: real := 0.47

  /**
    Angle to the vertical that a span must exceed to be stairs. Measured
    from the vertical, 26.565 degrees is a 2:1 rise over run, so the test
    excludes only spans steeper than that, and a nearly level span that
    rises far enough still counts. The C# comment on the constant describes
    a 1:2 slope as the minimum instead; the model follows the code.
  */
  const MinStairsAngle: real := 26.565

  /** Minimum horizontal direction change to treat as a turn. */
  const TurnAngleThreshold: real := 27.0

  /** Minimum horizontal direction change to treat as a backturn. */
  const BackturnAngleThreshold: real := 144.0

  /** Spans longer than this get the detailed ("for N meters") text. */
  const ShowMoreDetailsMinSpan: real := 3.0

  /** Distance before a key point at which the next instruction starts to show. */
  const TransitionDistance: real := 2.0

  /** Share of a short span used as its transition window. */
  const TransitionRatio: real := 0.5

  /** The transition window for a span: bounded by the transition distance. */
  function ActualTransitionDistance(span: real): (r: real)
    ensures r <= TransitionDistance
    ensures span >= 0.0 ==> 0.0 <= r <= span
    ensures span > TransitionDistance ==> r == TransitionDistance
  {
    if span > TransitionDistance then TransitionDistance else span * TransitionRatio
  }

  /** Over non-negative spans the window never shrinks as the span grows. */
  lemma ActualTransitionDistanceMonotone(a: real, b: real)
    requires 0.0 <= a <= b
    ensures ActualTransitionDistance(a) <= ActualTransitionDistance(b)
  {
  }

  /** The window jumps from half the transition distance to all of it just past it. */
  lemma ActualTransitionDistanceJump(span: real)
    ensures ActualTransitionDistance(TransitionDistance) == TransitionDistance * TransitionRatio
    ensures span > TransitionDistance ==> ActualTransitionDistance(span) - ActualTransitionDistance(TransitionDistance) == TransitionDistance * (1.0 - TransitionRatio)
  {
  }

  /** The thresholds are consistent with one another. */
  lemma ThresholdsOrdered()
    ensures 0.0 < TurnAngleThreshold < BackturnAngleThreshold <= 180.0
    ensures TransitionDistance < ShowMoreDetailsMinSpan
    ensures 0.0 < MinStairElevation
    ensures 0.0 < TransitionRatio < 1.0
  {
  }
}
