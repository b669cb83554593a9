/** The rotary-encoder setpoint tracker of the heater regulator (`encoder()`).
    The setpoint is kept as a whole number of 0.05-degree encoder steps, so
    45 degrees is 900, 90 degrees is 1800 and the start-up value 54.5 is 1090;
    the arithmetic is exact where the program accumulates binary floats. */
module Setpoint {

  /** Encoder steps per degree: one detent moves the setpoint by 0.05 degrees. */
  const StepsPerDegree: int := 20
  const MinSetpoint: int := 45 * StepsPerDegree
  const MaxSetpoint: int := 90 * StepsPerDegree
  /** 54.5 degrees, the value the main program starts from. */
  const InitialSetpoint: int := 1090

  predicate InRange(c: int) {
    MinSetpoint <= c <= MaxSetpoint
  }

  /** The setpoint in degrees, as the display and the PID error see it. */
  function Degrees(c: int): real {
    c as real / StepsPerDegree as real
  }

  /** `min(90, counter)` followed by `max(45, counter)`. */
  function Clamp(c: int): (r: int)
    ensures InRange(r)
    ensures InRange(c) ==> r == c
    ensures c < MinSetpoint ==> r == MinSetpoint
    ensures c > MaxSetpoint ==> r == MaxSetpoint
  {
    var capped := if c < MaxSetpoint then c else MaxSetpoint;
    if capped > MinSetpoint then capped else MinSetpoint
  }

  /** The step one handler call applies before clamping: none when channel A
      has not changed; otherwise up when channel B differs from the new A
      level and down when it equals it. */
  function Direction(aLast: bool, a: bool, b: bool): (d: int)
    ensures -1 <= d <= 1
    ensures d != 0 <==> a != aLast
    ensures d > 0 <==> a != aLast && b != a
  {
    if a == aLast then 0
    else if b != a then 1
    else -1
  }

  /** The setpoint after one call of the encoder handler that reads A and B. */
  function NextCounter(c: int, aLast: bool, a: bool, b: bool): (r: int)
    ensures InRange(r)
    ensures a == aLast ==> r == Clamp(c)
    ensures InRange(c) ==> -1 <= r - c <= 1
    ensures InRange(c) && a != aLast && b != a ==> r == c + 1 || r == c == MaxSetpoint
    ensures InRange(c) && a != aLast && b == a ==> r == c - 1 || r == c == MinSetpoint
  {
    Clamp(c + Direction(aLast, a, b))
  }

  /** The levels of the two encoder channels seen by one handler call. */
  datatype Edge = Edge(a: bool, b: bool)

  /** The tracker's state: the setpoint and the last level seen on channel A. */
  datatype Tracker = Tracker(counter: int, aLast: bool)

  function Handle(t: Tracker, e: Edge): (u: Tracker)
    ensures InRange(u.counter) && u.aLast == e.a
  {
    Tracker(NextCounter(t.counter, t.aLast, e.a, e.b), e.a)
  }

  /** The tracker after a burst of handler calls, one per edge, in order. */
  function Turn(t: Tracker, edges: seq<Edge>): Tracker
    decreases |edges|
  {
    if edges == [] then t else Turn(Handle(t, edges[0]), edges[1..])
  }

  /** How many of the edges change channel A with respect to the level before them. */
  function Flips(aLast: bool, edges: seq<Edge>): nat
    decreases |edges|
  {
    if edges == [] then 0
    else (if edges[0].a != aLast then 1 else 0) + Flips(edges[0].a, edges[1..])
  }

  /** Whatever edges arrive, the setpoint never leaves [45, 90] degrees. */
  lemma {:induction false} TurnStaysInRange(t: Tracker, edges: seq<Edge>)
    requires InRange(t.counter)
    ensures InRange(Turn(t, edges).counter)
    decreases |edges|
  {
    if edges != [] {
      TurnStaysInRange(Handle(t, edges[0]), edges[1..]);
    }
  }

  /** After at least one handler call, channel A's remembered level is the last one read. */
  lemma {:induction false} TurnRemembersLastA(t: Tracker, edges: seq<Edge>)
    requires edges != []
    ensures Turn(t, edges).aLast == edges[|edges| - 1].a
    decreases |edges|
  {
    if |edges| > 1 {
      TurnRemembersLastA(Handle(t, edges[0]), edges[1..]);
    }
  }

  /** Each step is one 0.05-degree detent at most, and only edges that change
      channel A move the setpoint at all. */
  lemma {:induction false} TurnMovesAtMostFlips(t: Tracker, edges: seq<Edge>)
    requires InRange(t.counter)
    ensures Turn(t, edges).counter - t.counter <= Flips(t.aLast, edges)
    ensures t.counter - Turn(t, edges).counter <= Flips(t.aLast, edges)
    decreases |edges|
  {
    if edges != [] {
      var u := Handle(t, edges[0]);
      TurnMovesAtMostFlips(u, edges[1..]);
    }
  }

  /** A detent one way and then back: A flips with B still at the old level
      (one step up), then A flips back to equal B (one step down). Away from
      the upper bound this returns the tracker exactly to where it was. */
  lemma DetentRoundTrip(t: Tracker)
    requires MinSetpoint <= t.counter < MaxSetpoint
    ensures Turn(t, [Edge(!t.aLast, t.aLast), Edge(t.aLast, t.aLast)]) == t
  {
    var edges := [Edge(!t.aLast, t.aLast), Edge(t.aLast, t.aLast)];
    var u := Handle(t, edges[0]);
    assert u.counter == t.counter + 1;
    assert edges[1..] == [edges[1]] && edges[1..][1..] == [];
    assert Turn(t, edges) == Turn(u, [edges[1]]) == Handle(u, edges[1]);
  }

  /** The mirror detent: A flips to equal B (one step down), then A flips back
      with B unchanged (one step up). Away from the lower bound this returns the
      tracker exactly to where it was. */
  lemma DetentRoundTripDown(t: Tracker)
    requires MinSetpoint < t.counter <= MaxSetpoint
    ensures Turn(t, [Edge(!t.aLast, !t.aLast), Edge(t.aLast, !t.aLast)]) == t
  {
    var edges := [Edge(!t.aLast, !t.aLast), Edge(t.aLast, !t.aLast)];
    var u := Handle(t, edges[0]);
    assert u.counter == t.counter - 1;
    assert edges[1..] == [edges[1]] && edges[1..][1..] == [];
    assert Turn(t, edges) == Turn(u, [edges[1]]) == Handle(u, edges[1]);
  }
}
