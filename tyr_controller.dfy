/** The commented Tyr rover controller: right-stick events set the speed of
    the main wheel (`v0`) or the steering angle (`alpha`), derive the
    secondary wheels' angle and speeds in car mode, turn two steering servos
    and send the speeds to the motor controller over I2C. The bus writes and
    servo angles are recorded; whether the motor controller and the servo
    board are attached is fixed when the controller is built. */
module TyrController {
  import opened JoystickScaling

  const MOTOR2040_ADDR: int := 0x44
  const MAX_RANGE: int := 180
  const HALF_RANGE: int := MAX_RANGE / 2
  /** Stick units per degree of steering. */
  const COEF: int := STICK_MAX / HALF_RANGE
  /** Below this steering angle all wheels turn alike. */
  const SMALL_ANGLE: int := 3

  /** One `write_i2c_block_data(address, register, data)` call. */
  datatype BusWrite = BusWrite(address: int, register: int, data: seq<int>)

  /** The secondary wheels' angle and speeds. */
  datatype Wheels = Wheels(beta: int, v1: int, v2: int, v3: int)

  function Abs(x: int): int
  {
    if x < 0 then -x else x
  }

  /** The direction bit `move` adds to each register: 0 backward, 1 forward. */
  function DirectionBit(v0: int): (i: int)
    ensures i == 0 <==> v0 < 0
    ensures i == 0 || i == 1
  {
    if v0 < 0 then 0 else 1
  }

  /** The three writes of `move`: the magnitude of `v0` to registers 0x00
      and 0x04 and `v1` to 0x02, each offset by the direction bit. The
      magnitudes sent are never negative. */
  function MoveWrites(v0: int, v1: int): (ws: seq<BusWrite>)
    ensures |ws| == 3
    ensures forall k :: 0 <= k < 3 ==> ws[k].address == MOTOR2040_ADDR && |ws[k].data| == 1
    ensures ws[0].register == 0x00 + DirectionBit(v0) && ws[0].data[0] == Abs(v0) >= 0
    ensures ws[1].register == 0x02 + DirectionBit(v0) && ws[1].data[0] == v1
    ensures ws[2].register == 0x04 + DirectionBit(v0) && ws[2].data[0] == Abs(v0)
  {
    var i := DirectionBit(v0);
    var m := Abs(v0);
    [BusWrite(MOTOR2040_ADDR, 0x00 + i, [m]), BusWrite(MOTOR2040_ADDR, 0x02 + i, [v1]),
     BusWrite(MOTOR2040_ADDR, 0x04 + i, [m])]
  }

  /** The steering angle for a left push: `value // COEF + 1`. */
  function LeftAngle(value: int): int
  {
    value / COEF + 1
  }

  /** The steering angle for a right push: `value // COEF`. */
  function RightAngle(value: int): int
  {
    value / COEF
  }

  /** Over the stick's range a left push steers by -90 to 1 degrees and a
      right push by -91 to 90, so the servo angle `90 + alpha` stays within
      the servos' 0..180 range for left pushes (negative readings) and right
      pushes (positive readings). */
  lemma SteeringAngleRange(value: int)
    requires InStickRange(value)
    ensures value <= 0 ==> -90 <= LeftAngle(value) <= 1 && 0 <= HALF_RANGE + LeftAngle(value) <= MAX_RANGE
    ensures value >= 0 ==> 0 <= RightAngle(value) <= 90 && HALF_RANGE <= HALF_RANGE + RightAngle(value) <= MAX_RANGE
    ensures -91 <= RightAngle(value) <= 90
  {
    assert COEF == 364;
  }

  /** The secondary wheels' angle from the turning circle stays within
      0..90 degrees for steering angles of 3 to 91 degrees: with both wheel
      distances 100, `round(degrees(atan(100 / R)))` lies between 0 and 46
      there. */
  ghost predicate BetaBounded(geometry: (int, int) -> Wheels)
  {
    forall a, s :: SMALL_ANGLE <= a <= HALF_RANGE + 1 ==> 0 <= geometry(a, s).beta <= HALF_RANGE
  }

  class MyController {
    var carMode: bool
    /** Main wheel speed and the three secondary wheel speeds. */
    var v0: int
    var v1: int
    var v2: int
    var v3: int
    /** Main wheel angle and secondary wheel angle. */
    var alpha: int
    var beta: int
    /** The turning-circle computation of `for_car_mode` for angles of 3
        degrees and more, from `(|alpha|, |v0|)`. */
    const geometry: (int, int) -> Wheels
    const busConnected: bool
    const servosConnected: bool
    /** The bus writes made so far. */
    var writes: seq<BusWrite>
    /** The angles of servos 0 and 1. */
    var servo0: int
    var servo1: int

    constructor (geometry: (int, int) -> Wheels, busConnected: bool, servosConnected: bool)
      ensures carMode && v0 == 0 && v1 == 0 && v2 == 0 && v3 == 0 && alpha == 0 && beta == 0
      ensures this.geometry == geometry && this.busConnected == busConnected
      ensures this.servosConnected == servosConnected
      ensures writes == [] && servo0 == HALF_RANGE && servo1 == HALF_RANGE
    {
      carMode := true;
      v0, v1, v2, v3 := 0, 0, 0, 0;
      alpha, beta := 0, 0;
      this.geometry := geometry;
      this.busConnected := busConnected;
      this.servosConnected := servosConnected;
      writes := [];
      servo0, servo1 := HALF_RANGE, HALF_RANGE;
    }

    /** The secondary wheels `for_car_mode` derives from the current angle
        and speed. */
    function CarModeWheels(): (w: Wheels)
      reads this
      ensures Abs(alpha) < SMALL_ANGLE ==>
        w.beta == Abs(alpha) && w.v1 == Abs(v0) && w.v2 == Abs(v0) && w.v3 == Abs(v0)
      ensures Abs(alpha) >= SMALL_ANGLE ==> w == geometry(Abs(alpha), Abs(v0))
    {
      if Abs(alpha) < SMALL_ANGLE then Wheels(Abs(alpha), Abs(v0), Abs(v0), Abs(v0))
      else geometry(Abs(alpha), Abs(v0))
    }

    /** `for_car_mode()`: below 3 degrees every wheel gets the main wheel's
        angle and speed; it reports `true` only on that branch. */
    method ForCarMode() returns (small: bool)
      modifies this`beta, this`v1, this`v2, this`v3
      ensures small <==> Abs(alpha) < SMALL_ANGLE
      ensures Wheels(beta, v1, v2, v3) == CarModeWheels()
    {
      var a := Abs(alpha);
      var s := Abs(v0);
      if a < SMALL_ANGLE {
        beta := a;
        v1, v2, v3 := s, s, s;
        return true;
      }
      var w := geometry(a, s);
      beta, v1, v2, v3 := w.beta, w.v1, w.v2, w.v3;
      small := false;
    }

    /** `move()`: nothing reaches a disconnected motor controller. */
    method Move()
      modifies this`writes
      ensures writes == old(writes) + if busConnected then MoveWrites(v0, v1) else []
    {
      if busConnected {
        writes := writes + MoveWrites(v0, v1);
      }
    }

    /** `on_R3_down(value)`: forward speed, 0 in the dead zone. */
    method OnR3Down(value: int)
      modifies this
      ensures v0 == DownSpeed(value) && (v0 == 0 || v0 >= DEAD_ZONE)
      ensures alpha == old(alpha) && Wheels(beta, v1, v2, v3) == CarModeWheels()
      ensures writes == old(writes) + if busConnected then MoveWrites(v0, v1) else []
      ensures servo0 == old(servo0) && servo1 == old(servo1) && carMode == old(carMode)
    {
      v0 := DownSpeed(value);
      var _ := ForCarMode();
      Move();
    }

    /** `on_R3_up(value)`: backward speed, 0 in the dead zone. */
    method OnR3Up(value: int)
      modifies this
      ensures v0 == UpSpeed(value) && (v0 == 0 || v0 <= -DEAD_ZONE)
      ensures alpha == old(alpha) && Wheels(beta, v1, v2, v3) == CarModeWheels()
      ensures writes == old(writes) + if busConnected then MoveWrites(v0, v1) else []
      ensures servo0 == old(servo0) && servo1 == old(servo1) && carMode == old(carMode)
    {
      v0 := UpSpeed(value);
      var _ := ForCarMode();
      Move();
    }

    /** `on_R3_y_at_rest()`: stop the main wheel before moving. */
    method OnR3YAtRest()
      modifies this
      ensures v0 == 0 && alpha == old(alpha) && Wheels(beta, v1, v2, v3) == CarModeWheels()
      ensures writes == old(writes) + if busConnected then MoveWrites(0, v1) else []
      ensures servo0 == old(servo0) && servo1 == old(servo1) && carMode == old(carMode)
    {
      v0 := 0;
      var _ := ForCarMode();
      Move();
    }

    /** `on_R3_left(value)`: steer left; servo 0 gets `90 - beta` and servo 1
        gets `90 + alpha`. */
    method OnR3Left(value: int)
      modifies this
      ensures alpha == LeftAngle(value) && v0 == old(v0)
      ensures Wheels(beta, v1, v2, v3) == CarModeWheels()
      ensures servosConnected ==> servo0 == HALF_RANGE - beta && servo1 == HALF_RANGE + alpha
      ensures !servosConnected ==> servo0 == old(servo0) && servo1 == old(servo1)
      ensures servosConnected && BetaBounded(geometry) && InStickRange(value) && value <= 0 ==>
        0 <= servo0 <= MAX_RANGE && 0 <= servo1 <= MAX_RANGE
      ensures writes == old(writes) + if busConnected then MoveWrites(v0, v1) else []
      ensures carMode == old(carMode)
    {
      if InStickRange(value) {
        SteeringAngleRange(value);
      }
      alpha := LeftAngle(value);
      var _ := ForCarMode();
      if servosConnected {
        servo0 := HALF_RANGE - beta;
        servo1 := HALF_RANGE + alpha;
      }
      Move();
    }

    /** `on_R3_right(value)`: steer right; servo 0 gets `90 + alpha` and
        servo 1 gets `90 + beta`. */
    method OnR3Right(value: int)
      modifies this
      ensures alpha == RightAngle(value) && v0 == old(v0)
      ensures Wheels(beta, v1, v2, v3) == CarModeWheels()
      ensures servosConnected ==> servo0 == HALF_RANGE + alpha && servo1 == HALF_RANGE + beta
      ensures !servosConnected ==> servo0 == old(servo0) && servo1 == old(servo1)
      ensures servosConnected && BetaBounded(geometry) && InStickRange(value) && value >= 0 ==>
        0 <= servo0 <= MAX_RANGE && 0 <= servo1 <= MAX_RANGE
      ensures writes == old(writes) + if busConnected then MoveWrites(v0, v1) else []
      ensures carMode == old(carMode)
    {
      if InStickRange(value) {
        SteeringAngleRange(value);
      }
      alpha := RightAngle(value);
      var _ := ForCarMode();
      if servosConnected {
        servo0 := HALF_RANGE + alpha;
        servo1 := HALF_RANGE + beta;
      }
      Move();
    }
  }

  /** With the stick in its range, the speed bytes `move` sends after a
      push are 0 or 50..255. */
  lemma PushSendsByte(value: int, v1: int)
    requires InStickRange(value)
    ensures var ws := MoveWrites(DownSpeed(value), v1);
      ws[0].data[0] == 0 || DEAD_ZONE <= ws[0].data[0] <= 255
    ensures var ws := MoveWrites(UpSpeed(value), v1);
      ws[0].register == 0x00 + DirectionBit(UpSpeed(value))
      && (ws[0].data[0] == 0 || DEAD_ZONE <= ws[0].data[0] <= 255)
  {
    DownSpeedFitsByte(value);
    DownSpeedFitsByte(-value);
    UpSpeedIsNegatedDownSpeed(value);
  }
}
