/** The PID step as the program is written. Its clamping line names a variable
    that is never defined, so every PID step raises a name error right after
    the unclamped output has been stored; the catch-all handler swallows it,
    and the relay branch that follows is never reached. This module models
    that behaviour and shows its consequence; the rest of the model uses the
    evidently intended clamp (ControlLoop.PidNext). */
module AsWritten {
  import opened Setpoint
  import opened DutyCycle
  import opened Pid
  import opened ControlLoop

  /** The step as written: integral, last error, time and the UNCLAMPED output
      are stored before the exception; the relay and the hold are untouched. */
  function PidNextAsWritten(s: Snapshot, temp: real, now: int): (t: Snapshot)
    ensures now - s.lastUpdate <= Checkin ==> t == s
    ensures t.relayOn == s.relayOn && t.offState == s.offState
    ensures now - s.lastUpdate > Checkin ==>
      t.output == RawOutput(Degrees(s.counter) - temp, t.integral, s.lastError, now - s.lastUpdate)
  {
    var dt := now - s.lastUpdate;
    if dt > Checkin then
      var error := Degrees(s.counter) - temp;
      var integral := s.integral + dt as real * error;
      s.(integral := integral, lastError := error, lastUpdate := now,
         output := RawOutput(error, integral, s.lastError, dt))
    else
      s
  }

  /** One pass of the main loop as written: no branch of it switches the relay on. */
  function IterateAsWritten(s: Snapshot, x: Sample): (t: Snapshot)
    ensures t.relayOn ==> s.relayOn
    ensures s.offState ==> t.offState
  {
    var s1 := EncoderNext(s, x.a, x.b);
    match x.reading
    case Fault => s1
    case Temp(temp) => PidNextAsWritten(OffHoldNext(s1, x.now), temp, x.now)
  }

  /** The loop as written. The only statement that clears the hold (main.py:206)
      is never reached, so once latched the hold stays latched for good. */
  function RunAsWritten(s: Snapshot, xs: seq<Sample>): (t: Snapshot)
    ensures s.offState ==> t.offState
    decreases |xs|
  {
    if xs == [] then s else RunAsWritten(IterateAsWritten(s, xs[0]), xs[1..])
  }

  /** As written, nothing ever drives the relay on: starting with the relay
      off, as at start-up, it stays off for every trace of inputs. */
  lemma {:induction false} AsWrittenNeverHeats(s: Snapshot, xs: seq<Sample>)
    requires !s.relayOn
    ensures !RunAsWritten(s, xs).relayOn
    decreases |xs|
  {
    if xs != [] {
      AsWrittenNeverHeats(IterateAsWritten(s, xs[0]), xs[1..]);
    }
  }

  /** A concrete first step: setpoint 54.5, 20 degrees measured, 6 seconds
      after start-up. As written, the output is stored as 1067.2 percent and
      the relay stays off; with the intended clamp the output is 100 percent
      and the relay is switched on. */
  lemma FirstStepCounterexample()
    ensures IterateAsWritten(Initial(false, 0), Sample(false, false, Temp(20.0), 6)).output == 1067.2
    ensures !IterateAsWritten(Initial(false, 0), Sample(false, false, Temp(20.0), 6)).relayOn
    ensures IterateNext(Initial(false, 0), Sample(false, false, Temp(20.0), 6)).output == 100.0
    ensures IterateNext(Initial(false, 0), Sample(false, false, Temp(20.0), 6)).relayOn
  {
  }
}
