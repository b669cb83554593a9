/** The regulator's state and one iteration of its main loop, as values: the
    encoder handler, the off-hold rule and the PID step, and the iteration that
    runs them in that order. The class in module Regulator is specified by these. */
module ControlLoop {
  import opened Setpoint
  import opened DutyCycle
  import opened Pid

  /** Every variable the control core updates: the setpoint (in 0.05-degree
      steps) and channel A's last level, the PID memory (integral, last error,
      time of the last step in whole seconds), the last output in percent, the
      off-hold latch and the level driven on the relay pin. */
  datatype Snapshot = Snapshot(
    counter: int,
    aLast: bool,
    integral: real,
    lastError: real,
    lastUpdate: int,
    output: real,
    offState: bool,
    relayOn: bool)

  /** What one pass of the loop reads: the temperature, or a fault when reading
      or displaying it raised an exception. */
  datatype Reading = Temp(celsius: real) | Fault

  /** The inputs of one loop iteration: both encoder channels, the reading and the clock. */
  datatype Sample = Sample(a: bool, b: bool, reading: Reading, now: int)

  /** The state before the first iteration: channel A as read at start-up, a
      setpoint of 54.5 degrees, no PID history, output 100, relay not driven. */
  function Initial(a: bool, start: int): (s: Snapshot)
    ensures Valid(s) && !s.relayOn && !s.offState
  {
    Snapshot(InitialSetpoint, a, 0.0, 0.0, start, 100.0, false, false)
  }

  /** What every reachable state satisfies: the setpoint within its bounds, the
      output within [0, 100], the relay never on while the hold is latched, and
      on only after a PID step whose output exceeded the threshold. */
  predicate Valid(s: Snapshot) {
    InRange(s.counter)
    && 0.0 <= s.output <= 100.0
    && (s.relayOn ==> !s.offState && s.output > OnThreshold)
  }

  /** The encoder handler: only the setpoint and channel A's level change. */
  function EncoderNext(s: Snapshot, a: bool, b: bool): (t: Snapshot)
    ensures t == s.(counter := t.counter, aLast := a)
    ensures InRange(t.counter)
    ensures a == s.aLast && InRange(s.counter) ==> t == s
  {
    s.(counter := NextCounter(s.counter, s.aLast, a, b), aLast := a)
  }

  /** The off-hold rule at time `now`: when due, the relay is forced off and
      the hold latched; otherwise nothing changes. */
  function OffHoldNext(s: Snapshot, now: int): (t: Snapshot)
    ensures t == s.(relayOn := t.relayOn, offState := t.offState)
    ensures OffHoldDue(s.output, s.offState, now - s.lastUpdate) ==> !t.relayOn && t.offState
    ensures !OffHoldDue(s.output, s.offState, now - s.lastUpdate) ==> t == s
    ensures !OffHoldDue(t.output, t.offState, now - t.lastUpdate)
  {
    if OffHoldDue(s.output, s.offState, now - s.lastUpdate) then
      s.(relayOn := false, offState := true)
    else
      s
  }

  /** The PID step with the measured temperature `temp` at time `now`. It runs
      only when more than `Checkin` seconds have passed since the last one, so
      it never divides by zero; it then updates the integral by dt times the
      error, remembers the error and the time, limits the output to [0, 100]
      and switches the relay on exactly when the output exceeds 20 percent. */
  function PidNext(s: Snapshot, temp: real, now: int): (t: Snapshot)
    ensures now - s.lastUpdate <= Checkin ==> t == s
    ensures now - s.lastUpdate > Checkin ==>
      var dt := now - s.lastUpdate;
      var error := Degrees(s.counter) - temp;
      t.counter == s.counter && t.aLast == s.aLast
      && t.integral == s.integral + dt as real * error
      && t.lastError == error
      && t.lastUpdate == now
      && t.output == ClampPercent(RawOutput(error, t.integral, s.lastError, dt))
      && (t.relayOn <==> t.output > OnThreshold)
      && t.offState == !t.relayOn
  {
    var dt := now - s.lastUpdate;
    if dt > Checkin then
      var error := Degrees(s.counter) - temp;
      var integral := s.integral + dt as real * error;
      var output := ClampPercent(RawOutput(error, integral, s.lastError, dt));
      var on := output > OnThreshold;
      s.(integral := integral, lastError := error, lastUpdate := now,
         output := output, relayOn := on, offState := !on)
    else
      s
  }

  /** One pass of the main loop. The encoder handler runs first; a fault while
      reading or displaying the temperature abandons the rest of the pass, so
      only the encoder's effect remains. */
  function IterateNext(s: Snapshot, x: Sample): (t: Snapshot)
    ensures x.reading.Fault? ==> t == EncoderNext(s, x.a, x.b)
    ensures InRange(t.counter) && t.aLast == x.a
  {
    var s1 := EncoderNext(s, x.a, x.b);
    match x.reading
    case Fault => s1
    case Temp(temp) => PidNext(OffHoldNext(s1, x.now), temp, x.now)
  }

  /** The state after the loop has run once per sample, in order: after at
      least one pass the setpoint is in range and channel A's remembered level
      is the one the last pass read. */
  function Run(s: Snapshot, xs: seq<Sample>): (t: Snapshot)
    ensures xs == [] ==> t == s
    ensures xs != [] ==> InRange(t.counter) && t.aLast == xs[|xs| - 1].a
    decreases |xs|
  {
    if xs == [] then s else Run(IterateNext(s, xs[0]), xs[1..])
  }

  /** Running one more iteration after a run is running the longer trace. */
  lemma {:induction false} RunSnoc(s: Snapshot, xs: seq<Sample>, x: Sample)
    ensures Run(s, xs + [x]) == IterateNext(Run(s, xs), x)
    decreases |xs|
  {
    if xs == [] {
      assert [x][1..] == [];
    } else {
      assert (xs + [x])[1..] == xs[1..] + [x];
      RunSnoc(IterateNext(s, xs[0]), xs[1..], x);
    }
  }

  lemma IterateKeepsValid(s: Snapshot, x: Sample)
    requires Valid(s)
    ensures Valid(IterateNext(s, x))
  {
  }

  /** Every state the loop reaches from a valid one is valid. */
  lemma {:induction false} RunKeepsValid(s: Snapshot, xs: seq<Sample>)
    requires Valid(s)
    ensures Valid(Run(s, xs))
    decreases |xs|
  {
    if xs != [] {
      IterateKeepsValid(s, xs[0]);
      RunKeepsValid(IterateNext(s, xs[0]), xs[1..]);
    }
  }

  /** Some iteration of `xs` reads the temperature at a time when the off-hold
      of state `s` is due. */
  predicate HoldFires(s: Snapshot, xs: seq<Sample>) {
    exists i :: 0 <= i < |xs| && xs[i].reading.Temp? && OffHoldDue(s.output, s.offState, xs[i].now - s.lastUpdate)
  }

  /** Within one window (no iteration more than `Checkin` seconds after the
      last PID step) the PID memory and output stay as they are, and the relay
      is on at the end exactly when it was on at the start and the off-hold did
      not fire; the hold is latched exactly when it was or the hold fired. */
  lemma {:induction false} WithinWindow(s: Snapshot, xs: seq<Sample>)
    requires forall i :: 0 <= i < |xs| ==> xs[i].now - s.lastUpdate <= Checkin
    ensures Run(s, xs).integral == s.integral && Run(s, xs).lastError == s.lastError
    ensures Run(s, xs).lastUpdate == s.lastUpdate && Run(s, xs).output == s.output
    ensures Run(s, xs).relayOn == (s.relayOn && !HoldFires(s, xs))
    ensures Run(s, xs).offState == (s.offState || HoldFires(s, xs))
    decreases |xs|
  {
    if xs != [] {
      var s1 := IterateNext(s, xs[0]);
      var rest := xs[1..];
      var fired := xs[0].reading.Temp? && OffHoldDue(s.output, s.offState, xs[0].now - s.lastUpdate);
      assert s1.relayOn == (s.relayOn && !fired) && s1.offState == (s.offState || fired);
      assert s1.lastUpdate == s.lastUpdate && s1.output == s.output;
      forall i | 0 <= i < |rest| ensures rest[i].now - s1.lastUpdate <= Checkin {
        assert rest[i] == xs[i + 1];
      }
      WithinWindow(s1, rest);
      if fired {
        assert HoldFires(s, xs);
        assert !HoldFires(s1, rest);
      } else {
        assert s1.offState == s.offState;
        if HoldFires(s, xs) {
          var i :| 0 <= i < |xs| && xs[i].reading.Temp? && OffHoldDue(s.output, s.offState, xs[i].now - s.lastUpdate);
          assert i != 0;
          assert rest[i - 1] == xs[i];
          assert HoldFires(s1, rest);
        }
        if HoldFires(s1, rest) {
          var j :| 0 <= j < |rest| && rest[j].reading.Temp? && OffHoldDue(s1.output, s1.offState, rest[j].now - s1.lastUpdate);
          assert xs[j + 1] == rest[j];
          assert HoldFires(s, xs);
        }
      }
    }
  }

  /** At 100 percent output the relay keeps its level for the whole window. */
  lemma FullOutputKeepsRelay(s: Snapshot, xs: seq<Sample>)
    requires s.output == 100.0
    requires forall i :: 0 <= i < |xs| ==> xs[i].now - s.lastUpdate <= Checkin
    ensures Run(s, xs).relayOn == s.relayOn
  {
    WithinWindow(s, xs);
  }

  /** When a PID step leaves the output at or below the threshold, the relay
      stays off for the whole following window, whatever is polled in it. */
  lemma LowOutputKeepsRelayOff(s: Snapshot, temp: real, now: int, xs: seq<Sample>)
    requires now - s.lastUpdate > Checkin
    requires PidNext(s, temp, now).output <= OnThreshold
    requires forall i :: 0 <= i < |xs| ==> xs[i].now - now <= Checkin
    ensures !Run(PidNext(s, temp, now), xs).relayOn
  {
    WithinWindow(PidNext(s, temp, now), xs);
  }

  /** After a PID step that switched the relay on, a pass that reads the temperature `dt` seconds into the window
      leaves the relay on exactly when `dt` is within the on-time. */
  lemma RelayFollowsOnTime(s: Snapshot, temp: real, now: int, x: Sample)
    requires now - s.lastUpdate > Checkin
    requires OnThreshold < PidNext(s, temp, now).output <= 100.0
    requires x.reading.Temp? && x.now - now <= Checkin
    ensures IterateNext(PidNext(s, temp, now), x).relayOn <==> (x.now - now) as real <= OnTime(PidNext(s, temp, now).output)
  {
  }

  /** With the measured temperature equal to the setpoint and no PID history,
      a step yields output 0 and leaves the relay off with the hold latched. */
  lemma AtSetpointOutputIsZero(s: Snapshot, now: int)
    requires s.integral == 0.0 && s.lastError == 0.0
    requires now - s.lastUpdate > Checkin
    ensures PidNext(s, Degrees(s.counter), now).output == 0.0
    ensures !PidNext(s, Degrees(s.counter), now).relayOn && PidNext(s, Degrees(s.counter), now).offState
  {
  }

  /** The encoder levels of each pass of a trace, in order. */
  function Edges(xs: seq<Sample>): (es: seq<Edge>)
    ensures |es| == |xs|
    decreases |xs|
  {
    if xs == [] then [] else [Edge(xs[0].a, xs[0].b)] + Edges(xs[1..])
  }

  /** Passes whose reading fails do only the encoder handler's work, so a run
      of them is the same burst of handler calls that `Turn` describes: the
      tracker ends where `Turn` puts it and nothing else changes. The burst
      lemmas of module Setpoint therefore hold of the loop and of the class. */
  lemma {:induction false} FaultRunIsTurn(s: Snapshot, xs: seq<Sample>)
    requires forall i :: 0 <= i < |xs| ==> xs[i].reading.Fault?
    ensures Run(s, xs) == s.(counter := Turn(Tracker(s.counter, s.aLast), Edges(xs)).counter,
                             aLast := Turn(Tracker(s.counter, s.aLast), Edges(xs)).aLast)
    decreases |xs|
  {
    if xs != [] {
      var s1 := IterateNext(s, xs[0]);
      assert s1 == EncoderNext(s, xs[0].a, xs[0].b);
      assert Edges(xs)[0] == Edge(xs[0].a, xs[0].b) && Edges(xs)[1..] == Edges(xs[1..]);
      assert Handle(Tracker(s.counter, s.aLast), Edges(xs)[0]) == Tracker(s1.counter, s1.aLast);
      forall i | 0 <= i < |xs[1..]| ensures xs[1..][i].reading.Fault? {
        assert xs[1..][i] == xs[i + 1];
      }
      FaultRunIsTurn(s1, xs[1..]);
    }
  }
}
