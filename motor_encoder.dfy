/** The Tyr rover's CircuitPython motor-with-encoder driver: a DC motor
    whose throttle is set for a timed movement while its quadrature encoder
    is polled and converted to degrees. The clock and the encoder are
    oracles: `clock` holds the successive readings of the monotonic clock
    (the first taken at the start of the movement) and `positions` the
    successive encoder readings. Printing and sleeping are left out; each
    angle the loop would print is recorded with the throttle in effect
    when it was read. */
module MotorEncoder {
  import opened Wrappers

  /** Encoder counts per turn of the motor shaft. */
  const COUNTS_PER_MOTOR_REV: int := 12

  /** `to_degrees`: `position * 360 / counts_per_rev`. No position but 0
      maps to 0 degrees, one whole turn of counts maps to 360, and the
      sign follows the position's for a positive count. */
  function ToDegrees(position: int, countsPerRev: int): (d: real)
    requires countsPerRev != 0
    ensures d * countsPerRev as real == position as real * 360.0
    ensures d == 0.0 <==> position == 0
    ensures position == countsPerRev ==> d == 360.0
    ensures countsPerRev > 0 ==> (d > 0.0 <==> position > 0)
  {
    (position as real * 360.0) / countsPerRev as real
  }

  /** The conversion is linear in the position. */
  lemma ToDegreesLinear(a: int, b: int, countsPerRev: int)
    requires countsPerRev != 0
    ensures ToDegrees(a + b, countsPerRev) == ToDegrees(a, countsPerRev) + ToDegrees(b, countsPerRev)
  {
    var c, p, q := countsPerRev as real, a as real * 360.0, b as real * 360.0;
    assert (a + b) as real * 360.0 == p + q;
    assert (p + q) / c == p / c + q / c;
  }

  /** The conversion is odd: a reversed position gives the negated angle. */
  lemma ToDegreesOdd(position: int, countsPerRev: int)
    requires countsPerRev != 0
    ensures ToDegrees(-position, countsPerRev) == -ToDegrees(position, countsPerRev)
  {
    ToDegreesLinear(position, -position, countsPerRev);
  }

  /** One more turn of counts adds exactly 360 degrees. */
  lemma ToDegreesTurn(position: int, countsPerRev: int)
    requires countsPerRev != 0
    ensures ToDegrees(position + countsPerRev, countsPerRev) == ToDegrees(position, countsPerRev) + 360.0
  {
    ToDegreesLinear(position, countsPerRev, countsPerRev);
  }

  /** The monotonic clock reaches `duration` after the start reading at
      some later reading. */
  predicate ClockReaches(clock: seq<real>, duration: real)
  {
    exists k :: 1 <= k < |clock| && clock[k] - clock[0] >= duration
  }

  /** A movement runs for `n` polls: the clock stays short of `duration`
      past the start for the readings 1..n and reaches it at reading n+1. */
  predicate LastsFor(clock: seq<real>, duration: real, n: nat)
  {
    && n + 1 < |clock| && clock[n + 1] - clock[0] >= duration
    && forall j :: 1 <= j <= n ==> clock[j] - clock[0] < duration
  }

  /** One encoder poll: the throttle in effect and the angle read. */
  datatype Reading = Reading(throttle: Option<real>, degrees: real)

  class MotorWithEncoder {
    const gearRatio: int
    /** Encoder counts per turn of the output shaft. */
    const countsPerRev: int
    /** The motor's throttle: -1.0 full reverse to 1.0 full forward;
        `None` lets the motor spin freely. */
    var throttle: Option<real>
    /** Every throttle setting made, in order. */
    var throttleLog: seq<Option<real>>
    /** The polls made while moving, in order. */
    var readings: seq<Reading>

    constructor (gearRatio: int)
      ensures this.gearRatio == gearRatio && countsPerRev == COUNTS_PER_MOTOR_REV * gearRatio
      ensures throttle == None && throttleLog == [] && readings == []
    {
      this.gearRatio := gearRatio;
      countsPerRev := COUNTS_PER_MOTOR_REV * gearRatio;
      throttle := None;
      throttleLog := [];
      readings := [];
    }

    /** `perform_movement(description, throttle, duration)`: sets the
        throttle as given, polls the encoder for as long as the clock is
        short of `duration` past the start, then stops the motor. The
        number of polls `n` is the number of clock readings before the
        first one at or past the deadline, and every poll is taken with
        the requested throttle in effect. */
    method PerformMovement(throttle: Option<real>, duration: real, clock: seq<real>, positions: seq<int>)
      returns (n: nat)
      requires countsPerRev != 0
      requires ClockReaches(clock, duration)
      requires |positions| >= |clock|
      modifies this`throttle, this`throttleLog, this`readings
      ensures this.throttle == Some(0.0)
      ensures throttleLog == old(throttleLog) + [throttle, Some(0.0)]
      ensures LastsFor(clock, duration, n)
      ensures |readings| == |old(readings)| + n && readings[..|old(readings)|] == old(readings)
      ensures forall j :: 0 <= j < n ==>
        readings[|old(readings)| + j] == Reading(throttle, ToDegrees(positions[j], countsPerRev))
    {
      this.throttle := throttle;
      throttleLog := throttleLog + [throttle];
      var start := clock[0];
      var i := 1;
      n := 0;
      while clock[i] - start < duration
        invariant 1 <= i < |clock| && n == i - 1
        invariant throttleLog == old(throttleLog) + [throttle]
        invariant forall j :: 1 <= j < i ==> clock[j] - start < duration
        invariant exists k :: i <= k < |clock| && clock[k] - start >= duration
        invariant this.throttle == throttle
        invariant |readings| == |old(readings)| + n && readings[..|old(readings)|] == old(readings)
        invariant forall j :: 0 <= j < n ==>
          readings[|old(readings)| + j] == Reading(throttle, ToDegrees(positions[j], countsPerRev))
        decreases |clock| - i
      {
        readings := readings + [Reading(this.throttle, ToDegrees(positions[i - 1], countsPerRev))];
        i := i + 1;
        n := n + 1;
      }
      this.throttle := Some(0.0);
      throttleLog := throttleLog + [Some(0.0)];
    }
  }

  /** The demonstration's gear ratio: 600 counts per output turn. */
  const DEMO_GEAR_RATIO: int := 50

  /** The demonstration of `test_motor_and_encoder.py`: a motor with gear
      ratio 50 (600 counts per turn) runs eight one-second movements
      (forward slow, stop, forward fast, spin freely, backward slow, stop,
      backward fast, spin freely) and is stopped after each. `clocks[k]`
      and `positions[k]` are the readings during movement `k`, and
      `polls[k]` is the number of polls movement `k` makes. */
  method Demo(clocks: seq<seq<real>>, positions: seq<seq<int>>) returns (m: MotorWithEncoder, polls: seq<nat>)
    requires |clocks| == 8 && |positions| == 8
    requires forall k :: 0 <= k < 8 ==> ClockReaches(clocks[k], 1.0) && |positions[k]| >= |clocks[k]|
    ensures m.countsPerRev == 600
    ensures m.throttleLog ==
      [Some(0.5), Some(0.0), Some(0.0), Some(0.0), Some(1.0), Some(0.0), None, Some(0.0),
       Some(-0.5), Some(0.0), Some(0.0), Some(0.0), Some(-1.0), Some(0.0), None, Some(0.0)]
    ensures m.throttle == Some(0.0)
    ensures |polls| == 8 && forall k :: 0 <= k < 8 ==> LastsFor(clocks[k], 1.0, polls[k])
  {
    m := new MotorWithEncoder(DEMO_GEAR_RATIO);
    var p0 := m.PerformMovement(Some(0.5), 1.0, clocks[0], positions[0]);
    var p1 := m.PerformMovement(Some(0.0), 1.0, clocks[1], positions[1]);
    var p2 := m.PerformMovement(Some(1.0), 1.0, clocks[2], positions[2]);
    var p3 := m.PerformMovement(None, 1.0, clocks[3], positions[3]);
    var p4 := m.PerformMovement(Some(-0.5), 1.0, clocks[4], positions[4]);
    var p5 := m.PerformMovement(Some(0.0), 1.0, clocks[5], positions[5]);
    var p6 := m.PerformMovement(Some(-1.0), 1.0, clocks[6], positions[6]);
    var p7 := m.PerformMovement(None, 1.0, clocks[7], positions[7]);
    polls := [p0, p1, p2, p3, p4, p5, p6, p7];
  }
}
