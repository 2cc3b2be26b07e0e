/** The first gamepad script, `try_pyps4.py`: each right-stick event is
    turned into at most one I2C block write of one byte to the motor
    controller; the other handlers only print. */
module TryPyps4 {
  import opened Wrappers
  import opened JoystickScaling

  const MOTOR2040_ADDR: int := 0x40

  /** One `write_i2c_block_data(address, register, data)` call. */
  datatype BusWrite = BusWrite(address: int, register: int, data: seq<int>)

  datatype Event =
    | XPress | XRelease
    | R3Down(value: int) | R3Up(value: int) | R3YAtRest
    | R3Left(value: int) | R3Right(value: int)
    | L3Up(value: int) | L3Down(value: int) | L3Left(value: int) | L3Right(value: int)

  /** The bus write an event's handler makes, if any. Pushing down drives
      register 0x01; pushing up negates the reading, scales it the same way
      and drives register 0x00; rest writes 0 to register 0x00. */
  function Handle(e: Event): (w: Option<BusWrite>)
    ensures w.Some? <==> e.R3Down? || e.R3Up? || e.R3YAtRest?
    ensures w.Some? ==> w.value.address == MOTOR2040_ADDR && |w.value.data| == 1
    ensures w.Some? ==> (w.value.register == 0x01 <==> e.R3Down?)
    ensures w.Some? ==> w.value.register in {0x00, 0x01}
    ensures e.R3Down? ==> (w.value.data[0] > 0 <==> e.value >= DEAD_ZONE_READING)
    ensures e.R3Up? ==> (w.value.data[0] > 0 <==> e.value <= -DEAD_ZONE_READING)
    ensures e.R3YAtRest? ==> w == Some(BusWrite(MOTOR2040_ADDR, 0x00, [0]))
  {
    match e
    case R3Down(value) => Some(BusWrite(MOTOR2040_ADDR, 0x01, [DownSpeed(value)]))
    case R3Up(value) => Some(BusWrite(MOTOR2040_ADDR, 0x00, [DownSpeed(-value)]))
    case R3YAtRest => Some(BusWrite(MOTOR2040_ADDR, 0x00, [0]))
    case _ => None
  }

  /** Readings of the stick's range send a stop (0) or a speed in 50..255:
      the byte always fits, and the dead zone is never left by a value
      below 50. */
  lemma SentByteInRange(e: Event)
    requires (e.R3Down? || e.R3Up?) ==> InStickRange(e.value)
    ensures Handle(e).Some? ==>
      var b := Handle(e).value.data[0];
      b == 0 || (DEAD_ZONE <= b <= 255)
  {
    if e.R3Down? {
      DownSpeedFitsByte(e.value);
    } else if e.R3Up? {
      DownSpeedFitsByte(-e.value);
    }
  }
}
