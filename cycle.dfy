/** The 720-degree four-stroke cycle: C's `fmod` by 720, which the stroke
    lookup applies to the effective angle, and the single conditional
    subtraction that the simulation tick uses to keep the crank angle in
    one cycle. Angles are exact reals in place of the source's `float`. */
module Cycle {

  /** Degrees in one four-stroke cycle: two crankshaft revolutions. */
  const CycleDegrees: real := 720.0

  /** True when `angle` lies in one cycle, [0, 720). */
  predicate InCycle(angle: real) {
    0.0 <= angle < CycleDegrees
  }

  /** True when `d` is a whole number of cycles (possibly negative). */
  predicate IsWholeCycles(d: real) {
    (d / CycleDegrees).Floor as real == d / CycleDegrees
  }

  /** Rounding toward zero, the rounding C's `fmod` is defined with. */
  function Trunc(x: real): (n: int)
    ensures 0.0 <= x ==> 0 <= n && n as real <= x < n as real + 1.0
    ensures x < 0.0 ==> n <= 0 && n as real - 1.0 < x <= n as real
  {
    if x >= 0.0 then x.Floor else -((-x).Floor)
  }

  /** `fmod(x, 720)` as C defines it: `x` minus a whole number of cycles,
      leaving a remainder with the sign of `x` and a magnitude below 720.
      In particular a negative `x` gives a remainder in (-720, 0], not a
      value wrapped forward into [0, 720). */
  function Fmod720(x: real): (r: real)
    ensures 0.0 <= x ==> InCycle(r)
    ensures x < 0.0 ==> -CycleDegrees < r <= 0.0
    ensures IsWholeCycles(x - r)
  {
    var n := Trunc(x / CycleDegrees);
    assert (x - (x - CycleDegrees * n as real)) / CycleDegrees == n as real;
    x - CycleDegrees * n as real
  }

  /** The three properties in Fmod720's contract determine its value: any
      `m` with the sign of `x`, magnitude below 720 and a whole number of
      cycles away from `x` is the remainder. */
  lemma FmodUnique(x: real, m: real)
    requires 0.0 <= x ==> InCycle(m)
    requires x < 0.0 ==> -CycleDegrees < m <= 0.0
    requires IsWholeCycles(x - m)
    ensures Fmod720(x) == m
  {
    var r := Fmod720(x);
    var a := ((x - m) / CycleDegrees).Floor;
    var b := ((x - r) / CycleDegrees).Floor;
    assert (r - m) / CycleDegrees == (a - b) as real;
    assert -1.0 < (r - m) / CycleDegrees < 1.0;
  }

  /** FmodUnique with the number of cycles between `x` and `m` given. */
  lemma FmodUniqueBy(x: real, m: real, n: int)
    requires 0.0 <= x ==> InCycle(m)
    requires x < 0.0 ==> -CycleDegrees < m <= 0.0
    requires x - m == CycleDegrees * n as real
    ensures Fmod720(x) == m
  {
    assert (x - m) / CycleDegrees == n as real;
    FmodUnique(x, m);
  }

  /** The remainder is `x` less `Trunc(x / 720)` cycles. */
  lemma FmodCycles(x: real)
    ensures x - Fmod720(x) == CycleDegrees * Trunc(x / CycleDegrees) as real
  {
  }

  /** A value already in the cycle is its own remainder. */
  lemma FmodOfInCycle(x: real)
    requires InCycle(x)
    ensures Fmod720(x) == x
  {
    assert IsWholeCycles(x - x);
    FmodUnique(x, x);
  }

  /** Reducing a remainder again changes nothing, for every real, negative
      remainders included. */
  lemma FmodIdempotent(x: real)
    ensures Fmod720(Fmod720(x)) == Fmod720(x)
  {
    var r := Fmod720(x);
    assert IsWholeCycles(r - r);
    FmodUnique(r, r);
  }

  /** The tick's wrap: add `delta`, then subtract 720 once if the sum has
      reached 720. */
  function Step(angle: real, delta: real): (r: real)
    ensures r == angle + delta || r == angle + delta - CycleDegrees
    ensures r == angle + delta - CycleDegrees <==> angle + delta >= CycleDegrees
    ensures r < CycleDegrees <==> angle + delta < 2.0 * CycleDegrees
    ensures 0.0 <= angle && 0.0 <= delta ==> 0.0 <= r
  {
    var sum := angle + delta;
    if sum >= CycleDegrees then sum - CycleDegrees else sum
  }

  /** Adding less than a cycle to a non-negative angle moves its remainder
      exactly as the tick's single subtraction moves an angle in the cycle:
      one conditional subtraction is a full `fmod` as long as each step
      stays below 720. */
  lemma FmodShift(x: real, delta: real)
    requires 0.0 <= x
    requires 0.0 <= delta < CycleDegrees
    ensures Fmod720(x + delta) == Step(Fmod720(x), delta)
  {
    var m := Fmod720(x);
    var n := Trunc(x / CycleDegrees);
    FmodCycles(x);
    var s := Step(m, delta);
    if m + delta >= CycleDegrees {
      FmodUniqueBy(x + delta, s, n + 1);
    } else {
      FmodUniqueBy(x + delta, s, n);
    }
  }

  /** A whole cycle later the remainder of a non-negative angle is the same. */
  lemma FmodPeriodic(x: real)
    requires 0.0 <= x
    ensures Fmod720(x + CycleDegrees) == Fmod720(x)
  {
    FmodCycles(x);
    FmodUniqueBy(x + CycleDegrees, Fmod720(x), Trunc(x / CycleDegrees) + 1);
  }

  /** For an angle in the cycle and a step below one cycle, the tick's wrap
      agrees with `fmod` of the sum, and so stays in the cycle. */
  lemma StepIsFmod(angle: real, delta: real)
    requires InCycle(angle)
    requires 0.0 <= delta < CycleDegrees
    ensures Step(angle, delta) == Fmod720(angle + delta)
    ensures InCycle(Step(angle, delta))
  {
    FmodOfInCycle(angle);
    FmodShift(angle, delta);
  }

  /** From an angle in the cycle, two non-negative steps wrap to the same
      angle as one step covering both, as long as together they stay below
      one cycle. */
  lemma StepAdditive(angle: real, d1: real, d2: real)
    requires InCycle(angle)
    requires 0.0 <= d1 && 0.0 <= d2 && d1 + d2 < CycleDegrees
    ensures Step(Step(angle, d1), d2) == Step(angle, d1 + d2)
  {
  }

  /** The single subtraction is not a full wrap: a step of two cycles from
      0 lands on 720, outside the cycle. */
  lemma StepCanLeaveCycle()
    ensures Step(0.0, 2.0 * CycleDegrees) == CycleDegrees
    ensures !InCycle(Step(0.0, 2.0 * CycleDegrees))
  {
  }
}
