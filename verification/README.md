# Heat-o-matic control core in Dafny

heat-o-matic is a MicroPython temperature regulator for a Raspberry Pi Pico.
A rotary encoder adjusts a setpoint between 45 and 90 degrees in steps of
0.05. A DS18X20 sensor gives the measured temperature. A PID computation
turns the difference into an output percentage. A relay drives the heater
with a time-proportioned duty cycle over a window of `checkin` = 5 seconds.

This project models the control core of `main.py`:

- the encoder handler `encoder()`: step direction from the two channels, the clamp to [45, 90], and the remembered level of channel A;
- the off-hold rule of the main loop: once the window's on-time `checkin * round(output) / 100` has passed, the relay is forced off and the hold is latched;
- the PID step: it runs when more than `checkin` seconds have passed, updates the integral and the derivative, clamps the output to [0, 100], and switches the relay on above 20 percent;
- the main loop that runs these three in order, including an iteration abandoned by an exception.

Modules:

- `Setpoint` (setpoint.dfy): the encoder tracker. The setpoint is an integer count of 0.05-degree steps, so 45 is 900, 90 is 1800 and the start-up value 54.5 is 1090.
- `DutyCycle` (duty_cycle.dfy): Python's half-to-even `round`, the on-time and the off-hold condition.
- `Pid` (pid.dfy): the gains `Kp = 30`, `Ki = 0.1`, `Kd = 2`, the output formula and the clamp to [0, 100].
- `ControlLoop` (control_loop.dfy): the regulator's variables as a value (`Snapshot`), one function per state-update rule, one loop iteration (`IterateNext`), a trace of iterations (`Run`), and the lemmas about them.
- `Regulator` (regulator.dfy): class `Controller`, whose fields are the program's globals. Its methods update them in place, and each method's postcondition ties the new state to the matching `ControlLoop` function.
- `AsWritten` (as_written.dfy): the PID step as the source actually behaves (see Findings).

Modelling choices:

- Temperatures, gains, the integral and the output are exact `real` values. Timestamps are whole seconds (`int`), as `utime.time()` returns.
- The encoder channel levels, the temperature reading and the clock are inputs to each iteration (`Sample`).
- A sensor or display exception is the reading `Fault`. The encoder call comes first inside the `try`, so its effect stays; the rest of that iteration is skipped.
- The relay pin is the boolean field `relayOn`. It starts off, because the pin is not configured before the first decision.
- The slow phase is gated by the strict `dt > checkin` (main.py:195); with whole-second timestamps, the next step comes 6 s after the last one at the earliest.
- The integral is not limited (no anti-windup), as in the code; only the output is clamped.

## Model

| member | source | states |
|---|---|---|
| Setpoint.Clamp | main.py:103-104 | the setpoint always ends in [45, 90] degrees; a value already in range is kept, a value below becomes 45 and a value above becomes 90 |
| Setpoint.Direction | main.py:88-95 | the step one call applies before clamping is -1, 0 or +1; it is non-zero iff channel A changed, and positive iff A changed and B differs from the new A |
| Setpoint.NextCounter | main.py:85-104 | after one handler call the setpoint is in range; if channel A is unchanged it is only clamped; from an in-range value it moves by at most one 0.05 step: up when B differs from the new A, down when B equals it, held only at the bound it would cross |
| Setpoint.Handle | main.py:77-105 | one handler call leaves the setpoint in range and remembers the A level it read |
| Setpoint.TurnStaysInRange | main.py:77-105 | for every sequence of handler calls from an in-range setpoint, the setpoint stays in [45, 90] |
| Setpoint.TurnRemembersLastA | main.py:102 | after any non-empty burst of calls, the remembered A level is the one read by the last call |
| Setpoint.TurnMovesAtMostFlips | main.py:88-95 | over any burst, the setpoint moves by at most one step per call that saw channel A change; calls that see A unchanged never move it |
| Setpoint.DetentRoundTrip | main.py:88-95 | an up-step followed by the matching down-step returns both the setpoint and the remembered A level to where they were, below the upper bound |
| Setpoint.DetentRoundTripDown | main.py:88-95 | a down-step followed by the matching up-step returns both the setpoint and the remembered A level to where they were, above the lower bound |
| DutyCycle.RoundHalfEven | main.py:191 | `round(output)` is an integer within 1/2 of the output, and an exact tie goes to the even integer |
| DutyCycle.RoundHalfEvenUnique | main.py:191 | those two properties determine the rounded value, so no other integer satisfies both |
| DutyCycle.OnTime | main.py:191 | the on-time `checkin * round(output) / 100` is the output's share of the 5 s window, within 0.025 s (the rounding of the percentage) |
| DutyCycle.OffHoldDue | main.py:191 | the off-hold condition is never true once the hold is latched or at 100 percent and above; below 100 percent with the hold clear it is true whenever more than 5 s have passed; for a non-negative output it needs `dt > 0` |
| DutyCycle.OnTimeWithinWindow | main.py:191 | for an output in [0, 100], the on-time `checkin * round(output) / 100` lies in [0, 5] seconds |
| DutyCycle.ZeroOutputHoldsAtOnce | main.py:191 | at 0 percent the on-time is zero, so the hold fires exactly when `dt > 0` |
| Pid.ClampPercent | main.py:202 | the output lies in [0, 100]; in-range values are kept, lower values become 0 and higher values become 100 |
| Pid.RawOutput | main.py:196-201 | the three-term sum with the derivative taken over dt, defined only for dt ≠ 0; with the error unchanged since the last step the derivative term vanishes, and with zero error, integral and last error the sum is 0 |
| Pid.QuiescentOutputIsZero | main.py:201-202 | with zero error, zero integral and zero last error, the output is still 0 after clamping |
| ControlLoop.Initial | main.py:166-178 | the start-up state (setpoint 54.5, zero integral and last error, output 100, hold not latched, relay off) satisfies the loop invariant |
| ControlLoop.EncoderNext | main.py:77-105 | the handler changes only the setpoint and the remembered A level; the setpoint ends in range; with A unchanged and an in-range setpoint, nothing changes |
| ControlLoop.OffHoldNext | main.py:191-193 | only the relay and the latch can change; when the hold is due, the relay goes off and the latch is set; otherwise nothing changes; afterwards the hold is no longer due, so a second evaluation in the same window is a no-op |
| ControlLoop.PidNext | main.py:195-209 | with `dt <= checkin` nothing changes, so there is never a division by zero; otherwise the integral grows by `dt*error`, the last error becomes `error = setpoint - temp`, the last update becomes `now`, the output is the three-term sum clamped to [0, 100], the relay is on iff the output exceeds 20, and the latch is the opposite of the relay |
| ControlLoop.IterateNext | main.py:180-213 | an iteration whose reading fails keeps only the encoder's effect; every iteration leaves the setpoint in range and remembers the A level |
| ControlLoop.Run | main.py:179-213 | the `while True` loop over a finite trace of inputs: an empty trace changes nothing; after at least one pass the setpoint is in range and the remembered A level is the one the last pass read |
| ControlLoop.RunSnoc | main.py:179-213 | running a trace and then one more iteration equals running the extended trace |
| ControlLoop.IterateKeepsValid | main.py:180-213 | one iteration keeps the invariant: setpoint in range, output in [0, 100], and the relay on only while the latch is clear and the last output exceeded 20 |
| ControlLoop.RunKeepsValid | main.py:179-213 | every state the loop reaches from a valid state is valid |
| ControlLoop.WithinWindow | main.py:190-195 | within one window, the integral, last error, last update and output are unchanged; the relay ends on iff it started on and no successful iteration found the hold due; the latch ends set iff it started set or the hold fired |
| ControlLoop.FullOutputKeepsRelay | main.py:191 | at 100 percent output, the relay keeps its level for the whole window |
| ControlLoop.LowOutputKeepsRelayOff | main.py:204-209 | after a PID step with output at most 20 percent, the relay stays off for the whole next window |
| ControlLoop.RelayFollowsOnTime | main.py:191-193 | after a PID step that switched the relay on (output in (20, 100]), a successful iteration `dt` seconds into the window leaves the relay on iff `dt` is within the on-time |
| ControlLoop.FaultRunIsTurn | main.py:180-184 | passes whose reading fails do only the encoder handler's work: a run of them moves the setpoint and A level exactly as the burst `Setpoint.Turn` does and changes nothing else, so the burst lemmas hold of the loop |
| ControlLoop.AtSetpointOutputIsZero | main.py:196-209 | with the temperature at the setpoint and no PID history, a step gives output 0, switches the relay off and latches the hold |
| Regulator.Controller.constructor | main.py:165-178 | the object starts in the start-up state of main.py:166-178 (channel A's level, sampled once at main.py:74, is the parameter `a`) and satisfies the invariant |
| Regulator.Controller.Encoder | main.py:77-105 | updates the fields as `EncoderNext` specifies and returns the new setpoint, which is in range; the remembered A level is the level just read |
| Regulator.Controller.OffHold | main.py:190-194 | updates the fields as `OffHoldNext` specifies |
| Regulator.Controller.PidStep | main.py:195-210 | updates the fields as `PidNext` specifies |
| Regulator.Controller.Iterate | main.py:180-213 | one loop pass updates the fields as `IterateNext` specifies |
| Regulator.Controller.Operate | main.py:179-213 | the loop over a finite input trace leaves the fields at `Run` of the old state, and it keeps the invariant |
| AsWritten.PidNextAsWritten | main.py:195-202 | as written, the step stores the unclamped sum and never touches the relay or the latch |
| AsWritten.IterateAsWritten | main.py:180-213 | as written, no branch of an iteration switches the relay on |
| AsWritten.RunAsWritten | main.py:179-213 | the loop as written: the only statement that clears the hold (main.py:206) is never reached, so once latched the hold stays latched for every trace |
| AsWritten.AsWrittenNeverHeats | main.py:202-209 | as written, starting with the relay off (as at start-up), the relay stays off for every input trace |
| AsWritten.FirstStepCounterexample | main.py:201-205 | the first step at 54.5 set, 20 measured and 6 seconds: as written, the output is 1067.2 and the relay is off; with the clamp, the output is 100 and the relay is on |

## Left out

- Hardware set-up: the one-wire scan, the SPI display driver and pin construction (main.py:22-61). This is foreign I/O.
- The temperature conversion and read (main.py:182-183): they become the `Reading` input.
- `displaynum`, `newsetpoint` and `button`: they only render or print. `button` is not attached to any interrupt. A display failure falls under `Fault`.
- Interrupt registration and concurrency (main.py:152-157): an interrupt-time call of the encoder handler is modelled as a sequential `Controller.Encoder` call between loop steps; `ControlLoop.FaultRunIsTurn` ties a run of such encoder-only steps to the burst `Setpoint.Turn`. Interleavings within a handler are not modelled.
- The globals `outA_current` and `direction`: neither carries information from one handler call to the next. `outA_current` is overwritten with the A level at the start of each call, and `direction` keeps the empty string it is given at main.py:66.
- The `utime.sleep` pauses and the fault pause of `checkin` seconds (main.py:194, 210, 213): time is an input, so a pause shows up only as a later `now`.
- Binary floating point: the repeated `+= .05`, the PID arithmetic and the comparisons are exact in the model, using integer steps and `real`.
- Setpoint.NextCounter: the source's float setpoint may drift off the 0.05 grid; the model keeps it on the grid.

## Findings

| source | as written | input that shows it | evidently intended | confidence | as-written member | corrected member |
|---|---|---|---|---|---|---|
| main.py:202 | `output = max(min(100, n), 0)` names an undefined `n`. Every PID step raises a name error after storing the unclamped output. The bare `except` swallows it, so the relay branch (lines 204-209) is never reached and nothing ever switches the heater on. | setpoint 54.5, 20 degrees measured, first step 6 s after start: the stored output is 1067.2 and the relay stays off | `max(min(100, output), 0)`, followed by the relay decision | high (not executed) | AsWritten.AsWrittenNeverHeats | ControlLoop.PidNext |
