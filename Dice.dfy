/**
 * The pure expressions of the Gaussian timer: the floor on a drawn delay,
 * the three clamps applied to the configuration inputs, and the die roll.
 *
 * Real numbers stand for JavaScript numbers; NaN and the infinities are not
 * represented. The Box-Muller sample and Math.random() are inputs.
 */
module Dice {

  /** Shortest wait before a roll, in seconds (the `Math.max(0.5, ...)` floor). */
  const MinDelaySeconds: real := 0.5
  /** Lower bounds of the mean and standard-deviation inputs, in seconds. */
  const MinMeanSeconds: real := 0.5
  const MinStdDevSeconds: real := 0.1
  /** Range of the die-sides input. */
  const MinSides: int := 2
  const MaxSides: int := 100

  function Max(a: real, b: real): real { if a < b then b else a }

  /**
   * The delay actually waited for a raw Gaussian sample: the sample itself,
   * unless it falls below half a second, whatever its sign.
   */
  function DelayFloor(raw: real): (delay: real)
    ensures delay >= MinDelaySeconds
    ensures delay >= raw
    ensures delay == raw || delay == MinDelaySeconds
  {
    Max(MinDelaySeconds, raw)
  }

  /** Absolute deadline, in milliseconds, of a roll drawn at `now` (ms) with sample `raw` (s). */
  function Deadline(now: real, raw: real): (at: real)
    ensures at >= now + 500.0
    ensures raw >= MinDelaySeconds ==> at == now + raw * 1000.0
    ensures raw <= MinDelaySeconds ==> at == now + 500.0
  {
    now + DelayFloor(raw) * 1000.0
  }

  /** The mean-interval input clamp: never below half a second, in-range values kept. */
  function ClampMean(x: real): (m: real)
    ensures m >= MinMeanSeconds
    ensures x >= MinMeanSeconds ==> m == x
    ensures x < MinMeanSeconds ==> m == MinMeanSeconds
  {
    Max(MinMeanSeconds, x)
  }

  /** The standard-deviation input clamp: never below a tenth of a second, in-range values kept. */
  function ClampStdDev(x: real): (d: real)
    ensures d >= MinStdDevSeconds
    ensures x >= MinStdDevSeconds ==> d == x
    ensures x < MinStdDevSeconds ==> d == MinStdDevSeconds
  {
    Max(MinStdDevSeconds, x)
  }

  /**
   * The die-sides input clamp on whole numbers: the nearest count in
   * [MinSides, MaxSides].
   */
  function ClampSides(x: int): (n: int)
    ensures MinSides <= n <= MaxSides
    ensures MinSides <= x <= MaxSides ==> n == x
    ensures x < MinSides ==> n == MinSides
    ensures x > MaxSides ==> n == MaxSides
  {
    if x > MaxSides then MaxSides else if x < MinSides then MinSides else x
  }

  /** Clamping twice is clamping once. */
  lemma ClampsIdempotent(m: real, d: real, n: int)
    ensures ClampMean(ClampMean(m)) == ClampMean(m)
    ensures ClampStdDev(ClampStdDev(d)) == ClampStdDev(d)
    ensures ClampSides(ClampSides(n)) == ClampSides(n)
  {
  }

  /**
   * `Math.floor(Math.random() * sides) + 1` for a uniform draw `u` in [0, 1):
   * always a face of the die.
   */
  function RollDie(u: real, sides: int): (face: int)
    requires 0.0 <= u < 1.0
    requires sides >= 1
    ensures 1 <= face <= sides
  {
    (u * sides as real).Floor + 1
  }

  /**
   * Uniformity of the die: face `k` comes up exactly for the draws in
   * [(k-1)/sides, k/sides), an interval of width 1/sides.
   */
  lemma RollDieFace(u: real, sides: int, k: int)
    requires 0.0 <= u < 1.0
    requires sides >= 1
    ensures RollDie(u, sides) == k <==>
              (k - 1) as real / sides as real <= u < k as real / sides as real
  {
  }

  /** Every face can come up: the draw at the left end of its interval rolls it. */
  lemma EveryFaceReachable(sides: int, k: int)
    requires sides >= 1
    requires 1 <= k <= sides
    ensures 0.0 <= (k - 1) as real / sides as real < 1.0
    ensures RollDie((k - 1) as real / sides as real, sides) == k
  {
  }

  // ---------------------------------------------------------------------
  // The die-sides input as written: the clamp works on the number typed in,
  // which need not be whole, and the roll multiplies by that number.

  /** `Math.min(100, Math.max(2, Number(value)))`: bounded, but fractions pass through. */
  function ClampSidesAsWritten(x: real): (n: real)
    ensures MinSides as real <= n <= MaxSides as real
    ensures MinSides as real <= x <= MaxSides as real ==> n == x
    ensures x < MinSides as real ==> n == MinSides as real
    ensures x > MaxSides as real ==> n == MaxSides as real
  {
    if x > MaxSides as real then MaxSides as real
    else if x < MinSides as real then MinSides as real
    else x
  }

  /** `Math.floor(Math.random() * sides) + 1` with the stored, possibly fractional, side count. */
  function RollDieAsWritten(u: real, sides: real): (face: int)
    requires 0.0 <= u < 1.0
    requires sides >= 1.0
    ensures 1 <= face
    ensures face as real < sides + 1.0
  {
    (u * sides).Floor + 1
  }

  /**
   * Typing 2.5 into the sides field stores 2.5, and a draw of 0.9 then rolls
   * a 3: a value above the stored side count and outside [1, 2].
   */
  lemma FractionalSidesRollAboveSides()
    ensures ClampSidesAsWritten(2.5) == 2.5
    ensures RollDieAsWritten(0.9, ClampSidesAsWritten(2.5)) == 3
    ensures RollDieAsWritten(0.9, ClampSidesAsWritten(2.5)) as real > ClampSidesAsWritten(2.5)
  {
  }
}
