/** The joystick-to-wheel-speed scaling shared by the two gamepad scripts:
    a stick reading is divided by 128, offset by 51, divided by 1.2 and
    truncated toward zero, and small results fall in a dead zone. */
module JoystickScaling {
  import opened Numeric

  /** The range of a stick axis reading. */
  const STICK_MIN: int := -32768
  const STICK_MAX: int := 32767
  /** Speeds below this magnitude stop the wheel. */
  const DEAD_ZONE: int := 50
  /** The smallest reading that leaves the dead zone. */
  const DEAD_ZONE_READING: int := 1152

  predicate InStickRange(value: int)
  {
    STICK_MIN <= value <= STICK_MAX
  }

  /** `int((value / 128 + 51) / 1.2)`. */
  function Scale(value: int): int
  {
    Trunc((value as real / 128.0 + 51.0) / 1.2)
  }

  /** The pushed-down speed: the scaled reading, 0 below the dead zone. It
      is 0 or at least 50, and leaves 0 exactly from reading 1152 on. */
  function DownSpeed(value: int): (s: int)
    ensures s == 0 || s >= DEAD_ZONE
    ensures s > 0 <==> value >= DEAD_ZONE_READING
  {
    var t := Scale(value);
    var x := (value as real / 128.0 + 51.0) / 1.2;
    assert value >= DEAD_ZONE_READING ==> x >= 50.0;
    assert value < DEAD_ZONE_READING ==> x < 50.0;
    if t < DEAD_ZONE then 0 else t
  }

  /** `int((value / 128 - 51) / 1.2)`, zeroed above -50: the pushed-up speed
      of the commented controller, 0 or at most -50. */
  function UpSpeed(value: int): (s: int)
    ensures s == 0 || s <= -DEAD_ZONE
  {
    var t := Trunc((value as real / 128.0 - 51.0) / 1.2);
    if t > -DEAD_ZONE then 0 else t
  }

  /** Scaling `value - 51` and negating is scaling the negated reading with
      `+ 51`: the commented controller's pushed-up speed is the negation of
      the speed the other script sends for the same reading. */
  lemma UpSpeedIsNegatedDownSpeed(value: int)
    ensures UpSpeed(value) == -DownSpeed(-value)
    ensures UpSpeed(value) < 0 <==> value <= -DEAD_ZONE_READING
  {
    var x := ((-value) as real / 128.0 + 51.0) / 1.2;
    assert (value as real / 128.0 - 51.0) / 1.2 == -x;
    TruncOdd(x);
  }

  /** For readings in the stick's range every speed fits in a byte. */
  lemma DownSpeedFitsByte(value: int)
    requires STICK_MIN <= value <= -STICK_MIN
    ensures 0 <= DownSpeed(value) <= 255
  {
    assert (value as real / 128.0 + 51.0) / 1.2 < 256.0;
  }

  /** A harder push never gives a lower speed. */
  lemma DownSpeedMonotone(a: int, b: int)
    requires a <= b
    ensures DownSpeed(a) <= DownSpeed(b)
  {
    var x := (a as real / 128.0 + 51.0) / 1.2;
    var y := (b as real / 128.0 + 51.0) / 1.2;
    assert x <= y;
    TruncMonotone(x, y);
  }
}
