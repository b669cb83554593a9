/** The regulator as the program runs it: one object whose fields are the
    program's global variables, updated in place by the encoder handler, the
    off-hold rule, the PID step and the main loop. Each method is specified
    by the matching function of module ControlLoop. */
module Regulator {
  import opened Setpoint
  import opened DutyCycle
  import opened Pid
  import opened ControlLoop

  class Controller {
    var counter: int       // setpoint, in 0.05-degree steps
    var outALast: bool     // level of encoder channel A at the last handler call
    var integral: real
    var lastError: real
    var lastUpdate: int    // whole seconds
    var output: real       // percent
    var offState: bool     // off-hold latch
    var relayOn: bool      // level driven on the relay pin

    /** The object's fields as a value. */
    function State(): Snapshot
      reads this
    {
      Snapshot(counter, outALast, integral, lastError, lastUpdate, output, offState, relayOn)
    }

    /** Start-up: channel A is sampled once, the clock read once. */
    constructor (a: bool, start: int)
      ensures State() == Initial(a, start)
      ensures Valid(State())
    {
      counter := InitialSetpoint;
      outALast := a;
      integral := 0.0;
      lastError := 0.0;
      lastUpdate := start;
      output := 100.0;
      offState := false;
      relayOn := false;
    }

    /** The encoder handler with channel levels `a` and `b`; returns the new setpoint. */
    method Encoder(a: bool, b: bool) returns (setpoint: int)
      modifies this
      ensures State() == EncoderNext(old(State()), a, b)
      ensures setpoint == counter && InRange(setpoint) && outALast == a
    {
      if a != outALast {
        if b != a {
          counter := counter + 1;
        } else {
          counter := counter - 1;
        }
      }
      outALast := a;
      counter := Clamp(counter);
      setpoint := counter;
    }

    /** The off-hold rule at time `now`. */
    method OffHold(now: int)
      modifies this
      ensures State() == OffHoldNext(old(State()), now)
    {
      var dt := now - lastUpdate;
      if OffHoldDue(output, offState, dt) {
        relayOn := false;
        offState := true;
      }
    }

    /** The PID step with temperature `temp` at time `now`, limiting the output
        to [0, 100] as the source's comment intends (see module AsWritten). */
    method PidStep(temp: real, now: int)
      modifies this
      ensures State() == PidNext(old(State()), temp, now)
    {
      var dt := now - lastUpdate;
      if dt > Checkin {
        var error := Degrees(counter) - temp;
        integral := integral + dt as real * error;
        var derivative := (error - lastError) / dt as real;
        lastUpdate := now;
        var previous := lastError;
        lastError := error;
        output := Kp * error + Ki * integral + Kd * derivative;
        assert output == RawOutput(error, integral, previous, dt);
        output := ClampPercent(output);
        if output > OnThreshold {
          relayOn := true;
          offState := false;
        } else {
          relayOn := false;
          offState := true;
        }
      }
    }

    /** One pass of the main loop with the inputs of `x`. */
    method Iterate(x: Sample)
      modifies this
      ensures State() == IterateNext(old(State()), x)
    {
      var _ := Encoder(x.a, x.b);
      match x.reading
      case Fault =>
      case Temp(temp) =>
        OffHold(x.now);
        PidStep(temp, x.now);
    }

    /** The main loop over a finite trace of inputs, one pass per sample. */
    method Operate(xs: seq<Sample>)
      modifies this
      ensures State() == Run(old(State()), xs)
      ensures Valid(old(State())) ==> Valid(State())
    {
      ghost var start := State();
      for i := 0 to |xs|
        invariant State() == Run(start, xs[..i])
      {
        RunSnoc(start, xs[..i], xs[i]);
        assert xs[..i + 1] == xs[..i] + [xs[i]];
        Iterate(xs[i]);
      }
      assert xs[..|xs|] == xs;
      if Valid(start) {
        RunKeepsValid(start, xs);
      }
    }
  }
}
