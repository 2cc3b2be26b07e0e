/** The stand-alone encoder reader of the Tyr rover: one encoder on a
    gear-ratio-50 motor, its position shown in degrees. The endless
    read-and-print loop is left out. */
module ReadSingleEncoder {
  import MotorEncoder

  const GEAR_RATIO: int := 50
  /** Encoder counts per turn of the output shaft: 600. */
  const COUNTS_PER_REV: int := MotorEncoder.COUNTS_PER_MOTOR_REV * GEAR_RATIO

  /** `to_degrees`: `position * 360 / COUNTS_PER_REV`. Zero counts is 0
      degrees, 600 counts is one full turn, and the angle has the
      position's sign. */
  function ToDegrees(position: int): (d: real)
    ensures d * 600.0 == position as real * 360.0
    ensures position == 0 ==> d == 0.0
    ensures position == 600 ==> d == 360.0
    ensures d > 0.0 <==> position > 0
  {
    assert COUNTS_PER_REV == 600;
    MotorEncoder.ToDegrees(position, COUNTS_PER_REV)
  }

  /** The conversion is odd, and each further turn of 600 counts adds
      exactly 360 degrees, so `k` turns add `360 k`. */
  lemma {:induction false} WholeTurns(position: int, k: nat)
    ensures ToDegrees(-position) == -ToDegrees(position)
    ensures ToDegrees(position + 600 * k) == ToDegrees(position) + 360.0 * k as real
  {
    if k > 0 {
      WholeTurns(position, k - 1);
      assert ToDegrees(position + 600 * k) == ToDegrees(position + 600 * (k - 1)) + 360.0;
    }
  }
}
