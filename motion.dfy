/** One simulation tick of the vehicle as values: the new speed chosen from
    the throttle's sign, and the turn torque command. */
module Motion {
  import opened Mathf

  datatype Option<T> = None | Some(value: T)

  /** What one `Update` hands to the physics engine: nothing at all when the
      tick is skipped, otherwise an optional yaw torque (a velocity change)
      and the speed along the vehicle's forward axis. */
  datatype TickOutput = NoCommands | Commands(torque: Option<real>, forwardVelocity: real)

  /** Speed after one coasting tick (`ApplyDeceleration`). */
  function Coast(speed: real, maxDelta: real): real
  {
    if speed > 0.0 then MoveTowards(speed, 0.0, maxDelta)
    else if speed < 0.0 then MoveTowards(speed, 0.0, maxDelta)
    else speed
  }

  /** Speed after one tick with the given throttle: accelerate toward
      `maxSpeed` or brake toward `-maxSpeed`, both by at most `step` (the
      acceleration rate times the tick length and sensitivity), or coast
      toward zero by at most `coastStep` (the deceleration times the tick length). */
  function NextSpeed(speed: real, throttle: real, maxSpeed: real, step: real, coastStep: real): real
  {
    if throttle > 0.0 then MoveTowards(speed, maxSpeed, step)
    else if throttle < 0.0 then MoveTowards(speed, -maxSpeed, step)
    else Coast(speed, coastStep)
  }

  /** A coasting tick slows toward zero and never reverses. */
  lemma CoastStep(speed: real, maxDelta: real)
    ensures speed == 0.0 ==> Coast(speed, maxDelta) == 0.0
    // never passes zero, so the direction of travel is kept
    ensures maxDelta >= 0.0 && speed > 0.0 ==> 0.0 <= Coast(speed, maxDelta) <= speed
    ensures maxDelta >= 0.0 && speed < 0.0 ==> speed <= Coast(speed, maxDelta) <= 0.0
    // slows by at most maxDelta, and by exactly that unless it stops
    ensures maxDelta >= 0.0 ==> Abs(speed - Coast(speed, maxDelta)) <= maxDelta
    ensures maxDelta >= 0.0 && Coast(speed, maxDelta) != 0.0 ==> Abs(speed - Coast(speed, maxDelta)) == maxDelta
  {
    MoveTowardsStep(speed, 0.0, maxDelta);
  }

  /** A tick moves the speed toward the target its throttle's sign selects,
      by a bounded step that never overshoots. */
  lemma NextSpeedStep(speed: real, throttle: real, maxSpeed: real, step: real, coastStep: real)
    // accelerating: toward +maxSpeed by at most step
    ensures throttle > 0.0 && step >= 0.0 ==>
      Min(speed, maxSpeed) <= NextSpeed(speed, throttle, maxSpeed, step, coastStep) <= Max(speed, maxSpeed) &&
      Abs(NextSpeed(speed, throttle, maxSpeed, step, coastStep) - speed) <= step
    // braking: toward -maxSpeed, with the same step bound
    ensures throttle < 0.0 && step >= 0.0 ==>
      Min(speed, -maxSpeed) <= NextSpeed(speed, throttle, maxSpeed, step, coastStep) <= Max(speed, -maxSpeed) &&
      Abs(NextSpeed(speed, throttle, maxSpeed, step, coastStep) - speed) <= step
    // coasting: toward zero by at most coastStep, never reversing
    ensures throttle == 0.0 && coastStep >= 0.0 ==>
      var r := NextSpeed(speed, throttle, maxSpeed, step, coastStep);
      Abs(r) <= Abs(speed) && Abs(speed - r) <= coastStep && (speed >= 0.0 ==> r >= 0.0) && (speed <= 0.0 ==> r <= 0.0)
  {
    MoveTowardsStep(speed, maxSpeed, step);
    MoveTowardsStep(speed, -maxSpeed, step);
    CoastStep(speed, coastStep);
  }

  /** The yaw torque of one tick: emitted only when the turn amount clears
      the 0.01 dead zone. */
  function TurnTorque(turn: real, handling: real, dt: real, turnSensitivity: real): Option<real>
  {
    var turnAmount := turn * handling;
    if Abs(turnAmount) > 0.01 then Some(turnAmount * dt * 10.0 * turnSensitivity) else None
  }

  /** Speed after `n` ticks with the same throttle. */
  function SpeedRun(speed: real, throttle: real, maxSpeed: real, step: real, coastStep: real, n: nat): real
    decreases n
  {
    if n == 0 then speed
    else SpeedRun(NextSpeed(speed, throttle, maxSpeed, step, coastStep), throttle, maxSpeed, step, coastStep, n - 1)
  }

  /** The step depends on the throttle's sign only, never on its magnitude. */
  lemma ThrottleMagnitudeIgnored(speed: real, t1: real, t2: real, maxSpeed: real, step: real, coastStep: real)
    requires (t1 > 0.0 <==> t2 > 0.0) && (t1 < 0.0 <==> t2 < 0.0)
    ensures NextSpeed(speed, t1, maxSpeed, step, coastStep) == NextSpeed(speed, t2, maxSpeed, step, coastStep)
  {
  }

  /** Sustained throttle from at or below top speed climbs by a full step per
      tick until it reaches top speed, then holds there: after `n` ticks the
      speed is `min(maxSpeed, speed + n * step)`. */
  lemma {:induction false} FullThrottleRun(speed: real, throttle: real, maxSpeed: real, step: real,
                                           coastStep: real, n: nat, distance: real)
    requires throttle > 0.0 && step >= 0.0 && speed <= maxSpeed
    requires distance == n as real * step
    ensures SpeedRun(speed, throttle, maxSpeed, step, coastStep, n) == Min(maxSpeed, speed + distance)
    decreases n
  {
    if n > 0 {
      var next := NextSpeed(speed, throttle, maxSpeed, step, coastStep);
      MoveTowardsStep(speed, maxSpeed, step);
      FullThrottleRun(next, throttle, maxSpeed, step, coastStep, n - 1, distance - step);
    }
  }

  /** Sustained reverse throttle from at or above `-maxSpeed` descends by a
      full step per tick until it reaches `-maxSpeed`, then holds there. */
  lemma {:induction false} FullBrakeRun(speed: real, throttle: real, maxSpeed: real, step: real,
                                        coastStep: real, n: nat, distance: real)
    requires throttle < 0.0 && step >= 0.0 && -maxSpeed <= speed
    requires distance == n as real * step
    ensures SpeedRun(speed, throttle, maxSpeed, step, coastStep, n) == Max(-maxSpeed, speed - distance)
    decreases n
  {
    if n > 0 {
      var next := NextSpeed(speed, throttle, maxSpeed, step, coastStep);
      MoveTowardsStep(speed, -maxSpeed, step);
      FullBrakeRun(next, throttle, maxSpeed, step, coastStep, n - 1, distance - step);
    }
  }

  /** Coasting with a positive deceleration step loses one step of speed per
      tick, keeping its direction, and then rests at exactly zero. */
  lemma {:induction false} CoastRun(speed: real, maxSpeed: real, step: real, coastStep: real,
                                    n: nat, distance: real)
    requires coastStep > 0.0
    requires distance == n as real * coastStep
    ensures SpeedRun(speed, 0.0, maxSpeed, step, coastStep, n)
         == if Abs(speed) <= distance then 0.0 else speed - Sign(speed) * distance
    decreases n
  {
    if n > 0 {
      var next := NextSpeed(speed, 0.0, maxSpeed, step, coastStep);
      CoastStep(speed, coastStep);
      CoastRun(next, maxSpeed, step, coastStep, n - 1, distance - coastStep);
    }
  }

  /** Enough coasting ticks stop the vehicle exactly, from any speed, and it
      stays stopped. */
  lemma CoastSettles(speed: real, maxSpeed: real, step: real, coastStep: real, n: nat, distance: real)
    requires coastStep > 0.0
    requires distance == n as real * coastStep && distance >= Abs(speed)
    ensures SpeedRun(speed, 0.0, maxSpeed, step, coastStep, n) == 0.0
  {
    CoastRun(speed, maxSpeed, step, coastStep, n, distance);
  }

  /** With positive handling, time step and sensitivity, an emitted torque
      turns the way the input points, and an input inside the dead zone
      emits none. */
  lemma TorqueFollowsTurn(turn: real, handling: real, dt: real, turnSensitivity: real)
    requires handling > 0.0 && dt > 0.0 && turnSensitivity > 0.0
    ensures TurnTorque(turn, handling, dt, turnSensitivity).Some? <==> Abs(turn) * handling > 0.01
    ensures TurnTorque(turn, handling, dt, turnSensitivity).Some? ==>
      (TurnTorque(turn, handling, dt, turnSensitivity).value > 0.0 <==> turn > 0.0)
  {
    var amount := turn * handling;
    assert Abs(amount) == Abs(turn) * handling;
    var c := dt * 10.0 * turnSensitivity;
    assert c > 0.0;
    assert amount * dt * 10.0 * turnSensitivity == amount * c;
    if turn > 0.0 {
      assert amount > 0.0;
    } else if turn < 0.0 {
      assert amount < 0.0;
    }
  }
}
