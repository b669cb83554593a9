/** The time-proportioned relay schedule: within each sampling window the relay
    may stay on for `checkin * round(output) / 100` seconds, after which the
    off-hold forces it off until the next PID step. */
module DutyCycle {

  /** The sampling window in whole seconds (`checkin`). */
  const Checkin: int := 5
  /** The PID output, in percent, above which a PID step switches the relay on. */
  const OnThreshold: real := 20.0

  /** Python's `round` on one argument: the nearest integer, ties to the even one. */
  function RoundHalfEven(x: real): (r: int)
    ensures -0.5 <= r as real - x <= 0.5
    ensures (r as real - x == 0.5 || x - r as real == 0.5) ==> r % 2 == 0
  {
    var f := x.Floor;
    var frac := x - f as real;
    if frac < 0.5 then f
    else if frac > 0.5 then f + 1
    else if f % 2 == 0 then f
    else f + 1
  }

  /** The two properties above determine the rounded value: no other integer has both. */
  lemma RoundHalfEvenUnique(x: real, n: int)
    requires -0.5 <= n as real - x <= 0.5
    requires (n as real - x == 0.5 || x - n as real == 0.5) ==> n % 2 == 0
    ensures n == RoundHalfEven(x)
  {
  }

  /** The seconds of the window during which the relay may stay on: the
      output's share of the window, up to the rounding of the percentage. */
  function OnTime(output: real): (r: real)
    ensures -0.025 <= r - Checkin as real * output / 100.0 <= 0.025
  {
    (Checkin * RoundHalfEven(output)) as real / 100.0
  }

  /** For an output within [0, 100] the on-time lies within the window. */
  lemma OnTimeWithinWindow(output: real)
    requires 0.0 <= output <= 100.0
    ensures 0.0 <= OnTime(output) <= Checkin as real
  {
  }

  /** The off-hold condition: the output is below 100 percent, the relay is
      not already held off, and `dt` seconds exceed the window's on-time. */
  predicate OffHoldDue(output: real, offState: bool, dt: int)
    ensures offState || output >= 100.0 ==> !OffHoldDue(output, offState, dt)
    ensures !offState && output < 100.0 && dt > Checkin ==> OffHoldDue(output, offState, dt)
    ensures OffHoldDue(output, offState, dt) && output >= 0.0 ==> dt > 0
  {
    output < 100.0 && !offState && dt as real > OnTime(output)
  }

  /** At zero output the on-time is zero, so the hold fires as soon as any
      time has passed in the window, and only then. */
  lemma ZeroOutputHoldsAtOnce(dt: int)
    ensures OffHoldDue(0.0, false, dt) <==> dt > 0
  {
  }
}
