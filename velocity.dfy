/**
 * Perceptual loudness mapping (scale_velocity in converter.py).
 *
 * The logarithm is kept abstract: the caller supplies `logRatio(m, M)`, standing
 * for numpy's log1p(m) / log1p(M) evaluated in floating point.
 */
module Velocity {

  /** Largest MIDI velocity. */
  const MaxVelocity: int := 127

  /** A stand-in for log1p(m) / log1p(M). */
  type LogRatio = (real, real) -> real

  /** The laws of log1p(m) / log1p(M) that the model relies on. */
  ghost predicate LogRatioLaws(logRatio: LogRatio)
  {
    && (forall m: real :: m > 0.0 ==> logRatio(m, m) == 1.0)
    && (forall m: real, big: real :: 0.0 < m <= big ==> 0.0 <= logRatio(m, big) <= 1.0)
  }

  /** Python's int() applied to a float: truncation toward zero. */
  function Trunc(x: real): (r: int)
    ensures x >= 0.0 ==> 0 <= r && r as real <= x < r as real + 1.0
    ensures x < 0.0 ==> r <= 0 && x <= r as real < x + 1.0
  {
    if x >= 0.0 then x.Floor else -((-x).Floor)
  }

  /** max(0, min(127, v)). */
  function ClampVelocity(v: int): (r: int)
    ensures 0 <= r <= MaxVelocity
    ensures 0 <= v <= MaxVelocity ==> r == v
    ensures v < 0 ==> r == 0
    ensures v > MaxVelocity ==> r == MaxVelocity
  {
    if v < 0 then 0 else if v > MaxVelocity then MaxVelocity else v
  }

  /**
   * scale_velocity(magnitude, max_magnitude): 0 for a non-positive magnitude,
   * otherwise the truncated log ratio scaled to 127, clamped into [0, 127].
   */
  function ScaleVelocity(logRatio: LogRatio, magnitude: real, maxMagnitude: real): (v: int)
    ensures 0 <= v <= MaxVelocity
    ensures magnitude <= 0.0 ==> v == 0
    ensures magnitude > 0.0 && magnitude == maxMagnitude && logRatio(magnitude, magnitude) == 1.0 ==> v == MaxVelocity
  {
    if magnitude > 0.0 then ClampVelocity(Trunc(logRatio(magnitude, maxMagnitude) * 127.0)) else 0
  }

  /**
   * Under the laws of log1p the clamp never engages: a positive magnitude not above
   * the maximum gets exactly floor(ratio * 127), and the maximum itself gets 127.
   */
  lemma ScaleVelocityUnclamped(logRatio: LogRatio, magnitude: real, maxMagnitude: real)
    requires LogRatioLaws(logRatio)
    requires 0.0 < magnitude <= maxMagnitude
    ensures ScaleVelocity(logRatio, magnitude, maxMagnitude) == (logRatio(magnitude, maxMagnitude) * 127.0).Floor
    ensures magnitude == maxMagnitude ==> ScaleVelocity(logRatio, magnitude, maxMagnitude) == MaxVelocity
  {
    var q := logRatio(magnitude, maxMagnitude);
    assert 0.0 <= q <= 1.0;
    assert 0.0 <= q * 127.0 <= 127.0;
    assert Trunc(q * 127.0) == (q * 127.0).Floor;
  }
}
