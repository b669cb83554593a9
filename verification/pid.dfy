/** The PID computation of the slow phase: error, integral in degree-seconds,
    derivative over the elapsed whole seconds, and the output in percent. */
module Pid {

  /** The tuning values set once at start-up. */
  const Kp: real := 30.0
  const Ki: real := 0.1
  const Kd: real := 2.0

  /** `max(min(100, output), 0)`: the output limited to [0, 100] percent. */
  function ClampPercent(x: real): (r: real)
    ensures 0.0 <= r <= 100.0
    ensures 0.0 <= x <= 100.0 ==> r == x
    ensures x < 0.0 ==> r == 0.0
    ensures x > 100.0 ==> r == 100.0
  {
    var capped := if x < 100.0 then x else 100.0;
    if capped > 0.0 then capped else 0.0
  }

  /** The sum of the three terms before clamping, given the error, the already
      updated integral, the previous error and the elapsed time. */
  function RawOutput(error: real, integral: real, lastError: real, dt: int): (r: real)
    requires dt != 0
    ensures error == lastError ==> r == Kp * error + Ki * integral
    ensures error == 0.0 && integral == 0.0 && lastError == 0.0 ==> r == 0.0
  {
    Kp * error + Ki * integral + Kd * ((error - lastError) / dt as real)
  }

  /** With no error now, none before and nothing accumulated, the clamped output is zero. */
  lemma QuiescentOutputIsZero(dt: int)
    requires dt != 0
    ensures ClampPercent(RawOutput(0.0, 0.0, 0.0, dt)) == 0.0
  {
  }
}
