/**
 * The prototype flying ship (FlyingShipFixed): thrust along forward and up,
 * a plain speed ceiling, mouse look with per-axis inversion, and a roll that
 * A/D steer within a limit and that levels itself out when released.
 */
module Flying {
  import opened Physics
  import opened Inputs

  /** Degrees of roll per second per unit of rotation speed while A or D is held. */
  const RollRate := 50.0

  /** Auto-level rate, per second, as a fraction of the current roll. */
  const LevelSpeed := 30.0

  /** Below this many degrees the roll counts as level. */
  const LevelThreshold := 0.1

  function Abs(x: real): real {
    if x < 0.0 then -x else x
  }

  /** Unity's `Mathf.Clamp`: `lo` below it, else `hi` above it, else the value itself. */
  function MathfClamp(v: real, lo: real, hi: real): (r: real)
    ensures lo <= hi ==> lo <= r <= hi
    ensures lo <= v <= hi ==> r == v
    ensures lo <= hi && v < lo ==> r == lo
    ensures lo <= hi && v > hi ==> r == hi
  {
    if v < lo then lo else if v > hi then hi else v
  }

  // ----- Movement -----

  /**
   * The unscaled thrust in the local frame: W adds forward and S takes it
   * away, Space adds up and LeftShift takes it away.
   */
  function ThrustDirection(s: InputSample): (dir: Vec3)
    ensures dir.x == 0.0
    ensures dir.z == Held(s.w) - Held(s.s)
    ensures dir.y == Held(s.space) - Held(s.leftShift)
  {
    var withW := if s.w then Add(Zero, Forward) else Zero;
    var withS := if s.s then Sub(withW, Forward) else withW;
    var withSpace := if s.space then Add(withS, Up) else withS;
    if s.leftShift then Sub(withSpace, Up) else withSpace
  }

  /** Opposite keys held together cancel out. */
  lemma OppositeKeysCancel(s: InputSample)
    ensures s.w == s.s ==> ThrustDirection(s).z == 0.0
    ensures s.space == s.leftShift ==> ThrustDirection(s).y == 0.0
  {
  }

  // ----- Look -----

  /**
   * The Euler rotation a mouse sample applies: pitch against the vertical
   * motion and yaw with the horizontal motion, each negated by its own flag.
   */
  function LookAngles(mouseX: real, mouseY: real, rotationSpeed: real,
                      invertPitch: bool, invertYaw: bool): (r: Vec3)
    ensures r.z == 0.0
    ensures r.y == (if invertYaw then -(mouseX * rotationSpeed) else mouseX * rotationSpeed)
    ensures r.x == (if invertPitch then mouseY * rotationSpeed else -(mouseY * rotationSpeed))
  {
    var yaw := if invertYaw then -(mouseX * rotationSpeed) else mouseX * rotationSpeed;
    var pitch := if invertPitch then -(mouseY * rotationSpeed) else mouseY * rotationSpeed;
    Vec3(-pitch, yaw, 0.0)
  }

  /** Each inversion flag flips its own axis and leaves the other alone. */
  lemma InversionIsPerAxis(mouseX: real, mouseY: real, rotationSpeed: real,
                           invertPitch: bool, invertYaw: bool)
    ensures var r := LookAngles(mouseX, mouseY, rotationSpeed, invertPitch, invertYaw);
            var p := LookAngles(mouseX, mouseY, rotationSpeed, !invertPitch, invertYaw);
            var y := LookAngles(mouseX, mouseY, rotationSpeed, invertPitch, !invertYaw);
            p.x == -r.x && p.y == r.y && y.y == -r.y && y.x == r.x
  {
  }

  // ----- Roll -----

  /** The roll signal: +1 for A, -1 for D, and D wins when both are held. */
  function RollInput(a: bool, d: bool): (r: real)
    ensures d ==> r == -1.0
    ensures a && !d ==> r == 1.0
    ensures !a && !d ==> r == 0.0
  {
    if d then -1.0 else if a then 1.0 else 0.0
  }

  /** The tracked roll after a step, and the roll rotation applied to the ship. */
  datatype RollStep = RollStep(roll: real, rollDelta: real)

  /** Steering: the roll moves with the input but never past `maxRollAngle` either way. */
  function SteerRoll(roll: real, rollInput: real, rotationSpeed: real, dt: real,
                     maxRollAngle: real): (r: RollStep)
    ensures maxRollAngle >= 0.0 ==> -maxRollAngle <= r.roll <= maxRollAngle
    ensures var t := roll + rollInput * rotationSpeed * RollRate * dt;
            -maxRollAngle <= t <= maxRollAngle ==> r.roll == t
    ensures var t := roll + rollInput * rotationSpeed * RollRate * dt;
            maxRollAngle >= 0.0 && t > maxRollAngle ==> r.roll == maxRollAngle
    ensures var t := roll + rollInput * rotationSpeed * RollRate * dt;
            maxRollAngle >= 0.0 && t < -maxRollAngle ==> r.roll == -maxRollAngle
    ensures r.rollDelta == r.roll - roll
  {
    var unclamped := roll + rollInput * rotationSpeed * RollRate * dt;
    var targetRoll := MathfClamp(unclamped, -maxRollAngle, maxRollAngle);
    RollStep(targetRoll, targetRoll - roll)
  }

  /**
   * Auto-levelling: a roll beyond the threshold loses the fraction
   * `LevelSpeed * dt` of itself (all of it once that fraction reaches 1),
   * never crossing level, and what ends up under the threshold snaps to
   * exactly level.
   */
  function AutoLevel(roll: real, dt: real): (r: RollStep)
    ensures Abs(roll) <= LevelThreshold ==> r == RollStep(roll, 0.0)
    ensures dt >= 0.0 && roll > LevelThreshold ==> 0.0 <= r.roll <= roll
    ensures dt >= 0.0 && roll < -LevelThreshold ==> roll <= r.roll <= 0.0
    ensures dt > 0.0 && Abs(roll) > LevelThreshold ==> Abs(r.roll) < Abs(roll)
    ensures Abs(roll) > LevelThreshold ==> Abs(r.rollDelta) <= Abs(roll)
    ensures 0.0 <= LevelSpeed * dt <= 1.0 && Abs(roll) > LevelThreshold ==>
      r.roll == 0.0 || r.roll == roll * (1.0 - LevelSpeed * dt)
    ensures 0.0 <= LevelSpeed * dt <= 1.0 && Abs(roll) > LevelThreshold ==>
      r.rollDelta == -(roll * (LevelSpeed * dt))
    ensures (0.0 <= LevelSpeed * dt <= 1.0 && Abs(roll) > LevelThreshold &&
             Abs(roll * (1.0 - LevelSpeed * dt)) >= LevelThreshold) ==>
      r.roll == roll * (1.0 - LevelSpeed * dt)
    ensures LevelSpeed * dt >= 1.0 && Abs(roll) > LevelThreshold ==> r.roll == 0.0
    ensures LevelSpeed * dt >= 1.0 && Abs(roll) > LevelThreshold ==> r.rollDelta == -roll
    ensures Abs(roll) > LevelThreshold ==> r.roll == 0.0 || Abs(r.roll) >= LevelThreshold
    ensures r.roll == 0.0 || r.roll == roll + r.rollDelta
  {
    if Abs(roll) > LevelThreshold then
      var unclamped := -roll * LevelSpeed * dt;
      var rollDelta := MathfClamp(unclamped, -Abs(roll), Abs(roll));
      var leveled := roll + rollDelta;
      LevelStepArithmetic(roll, dt);
      ClampKeepsFraction(roll, LevelSpeed * dt);
      RollStep(if Abs(leveled) < LevelThreshold then 0.0 else leveled, rollDelta)
    else RollStep(roll, 0.0)
  }

  /**
   * The arithmetic of one auto-level step, stated on the product
   * `roll * (LevelSpeed * dt)` so that the step itself stays linear.
   */
  lemma LevelStepArithmetic(roll: real, dt: real)
    ensures -roll * LevelSpeed * dt == -(roll * (LevelSpeed * dt))
    ensures roll * (1.0 - LevelSpeed * dt) == roll - roll * (LevelSpeed * dt)
    ensures dt >= 0.0 && roll > 0.0 ==> roll * (LevelSpeed * dt) >= 0.0
    ensures dt >= 0.0 && roll < 0.0 ==> roll * (LevelSpeed * dt) <= 0.0
    ensures dt > 0.0 && roll > 0.0 ==> roll * (LevelSpeed * dt) > 0.0
    ensures dt > 0.0 && roll < 0.0 ==> roll * (LevelSpeed * dt) < 0.0
    ensures 0.0 <= LevelSpeed * dt <= 1.0 && roll > 0.0 ==> roll * (LevelSpeed * dt) <= roll
    ensures 0.0 <= LevelSpeed * dt <= 1.0 && roll < 0.0 ==> roll * (LevelSpeed * dt) >= roll
    ensures LevelSpeed * dt >= 1.0 && roll > 0.0 ==> roll * (LevelSpeed * dt) >= roll
    ensures LevelSpeed * dt >= 1.0 && roll < 0.0 ==> roll * (LevelSpeed * dt) <= roll
  {
  }

  /**
   * Taking a fraction `k` of at most the whole roll stays inside the clamp
   * auto-levelling applies, so the clamp leaves it unchanged.
   */
  lemma ClampKeepsFraction(roll: real, k: real)
    ensures 0.0 <= k <= 1.0 ==> MathfClamp(-(roll * k), -Abs(roll), Abs(roll)) == -(roll * k)
  {
    if k < 0.0 || k > 1.0 {
    } else if roll >= 0.0 {
      assert 0.0 <= roll * k <= roll;
    } else {
      assert roll <= roll * k <= 0.0;
    }
  }

  /** One frame of roll: steer while A or D is held, level out otherwise. */
  function NextRoll(roll: real, a: bool, d: bool, rotationSpeed: real, dt: real,
                    maxRollAngle: real): (r: RollStep)
    ensures maxRollAngle >= 0.0 && dt >= 0.0 && Abs(roll) <= maxRollAngle ==>
      Abs(r.roll) <= maxRollAngle
    ensures !a && !d && dt >= 0.0 ==> Abs(r.roll) <= Abs(roll)
    ensures !a && !d && dt > 0.0 && Abs(roll) > LevelThreshold ==> Abs(r.roll) < Abs(roll)
    ensures !a && !d && dt >= 0.0 ==> (roll >= 0.0 ==> r.roll >= 0.0) && (roll <= 0.0 ==> r.roll <= 0.0)
  {
    var rollInput := RollInput(a, d);
    if rollInput != 0.0 then SteerRoll(roll, rollInput, rotationSpeed, dt, maxRollAngle)
    else AutoLevel(roll, dt)
  }

  /** One frame of the roll keys: A held, D held, and the frame time. */
  datatype RollTick = RollTick(a: bool, d: bool, dt: real)

  function RollAfterTicks(roll: real, rotationSpeed: real, maxRollAngle: real,
                          ticks: seq<RollTick>): real
    decreases |ticks|
  {
    if ticks == [] then roll
    else
      var step := NextRoll(roll, ticks[0].a, ticks[0].d, rotationSpeed, ticks[0].dt, maxRollAngle);
      RollAfterTicks(step.roll, rotationSpeed, maxRollAngle, ticks[1..])
  }

  predicate ForwardInTime(t: RollTick) {
    t.dt >= 0.0
  }

  predicate Released(t: RollTick) {
    !t.a && !t.d && t.dt >= 0.0
  }

  /** A roll within the limit stays within it, whatever keys are pressed. */
  lemma {:induction false} RollStaysWithinLimit(roll: real, rotationSpeed: real,
                                               maxRollAngle: real, ticks: seq<RollTick>)
    requires maxRollAngle >= 0.0 && Abs(roll) <= maxRollAngle
    requires forall i :: 0 <= i < |ticks| ==> ForwardInTime(ticks[i])
    ensures Abs(RollAfterTicks(roll, rotationSpeed, maxRollAngle, ticks)) <= maxRollAngle
    decreases |ticks|
  {
    if ticks != [] {
      assert ForwardInTime(ticks[0]);
      var step := NextRoll(roll, ticks[0].a, ticks[0].d, rotationSpeed, ticks[0].dt, maxRollAngle);
      assert forall i :: 0 <= i < |ticks[1..]| ==> ForwardInTime(ticks[1..][i]) by {
        forall i | 0 <= i < |ticks[1..]| ensures ForwardInTime(ticks[1..][i]) {
          assert ticks[1..][i] == ticks[i + 1];
        }
      }
      RollStaysWithinLimit(step.roll, rotationSpeed, maxRollAngle, ticks[1..]);
    }
  }

  /**
   * With the keys released the roll never grows and never crosses level: it
   * keeps its sign or comes to rest at zero.
   */
  lemma {:induction false} AutoLevelNeverGrows(roll: real, rotationSpeed: real,
                                              maxRollAngle: real, ticks: seq<RollTick>)
    requires forall i :: 0 <= i < |ticks| ==> Released(ticks[i])
    ensures var r := RollAfterTicks(roll, rotationSpeed, maxRollAngle, ticks);
      Abs(r) <= Abs(roll) && (roll >= 0.0 ==> r >= 0.0) && (roll <= 0.0 ==> r <= 0.0)
    decreases |ticks|
  {
    if ticks != [] {
      assert Released(ticks[0]);
      var step := NextRoll(roll, ticks[0].a, ticks[0].d, rotationSpeed, ticks[0].dt, maxRollAngle);
      assert forall i :: 0 <= i < |ticks[1..]| ==> Released(ticks[1..][i]) by {
        forall i | 0 <= i < |ticks[1..]| ensures Released(ticks[1..][i]) {
          assert ticks[1..][i] == ticks[i + 1];
        }
      }
      AutoLevelNeverGrows(step.roll, rotationSpeed, maxRollAngle, ticks[1..]);
    }
  }

  /** The prototype ship: its tuning, its body, and the roll it tracks. */
  class FlyingShip {
    var thrustPower: real
    var rotationSpeed: real
    var maxSpeed: real
    var invertPitch: bool
    var invertYaw: bool
    var maxRollAngle: real
    var currentRoll: real
    const body: Body

    /** The default tuning, level. */
    constructor (body: Body)
      ensures this.body == body
      ensures thrustPower == 15.0 && rotationSpeed == 2.0 && maxSpeed == 20.0
      ensures !invertPitch && !invertYaw && maxRollAngle == 45.0
      ensures currentRoll == 0.0
    {
      this.body := body;
      thrustPower := 15.0;
      rotationSpeed := 2.0;
      maxSpeed := 20.0;
      invertPitch := false;
      invertYaw := false;
      maxRollAngle := 45.0;
      currentRoll := 0.0;
    }

    /**
     * Returns the thrust for the physics engine and caps the body's speed.
     * `speed` is the body's current speed, as the physics engine reports it.
     */
    method HandleMovement(s: InputSample, speed: real) returns (force: Vec3)
      requires IsMagnitude(body.velocity, speed)
      modifies body`velocity
      ensures force == Scale(ThrustDirection(s), thrustPower)
      ensures body.velocity == ClampSpeed(old(body.velocity), speed, maxSpeed)
      ensures speed > maxSpeed >= 0.0 ==> IsMagnitude(body.velocity, maxSpeed)
      ensures speed <= maxSpeed ==> body.velocity == old(body.velocity)
    {
      force := Scale(ThrustDirection(s), thrustPower);
      if speed > maxSpeed {
        body.velocity := Scale(Normalized(body.velocity, speed), maxSpeed);
      }
    }

    /**
     * Returns the look rotation and the roll rotation applied this frame, and
     * updates the tracked roll.
     */
    method HandleRotation(s: InputSample, dt: real) returns (look: Vec3, rollDelta: real)
      modifies this`currentRoll
      ensures look == LookAngles(s.mouseX, s.mouseY, rotationSpeed, invertPitch, invertYaw)
      ensures RollStep(currentRoll, rollDelta)
           == NextRoll(old(currentRoll), s.a, s.d, rotationSpeed, dt, maxRollAngle)
      ensures maxRollAngle >= 0.0 && dt >= 0.0 && Abs(old(currentRoll)) <= maxRollAngle ==>
        Abs(currentRoll) <= maxRollAngle
      ensures (s.a || s.d) ==> currentRoll == old(currentRoll) + rollDelta
    {
      look := LookAngles(s.mouseX, s.mouseY, rotationSpeed, invertPitch, invertYaw);

      var rollInput := 0.0;
      if s.a { rollInput := 1.0; }
      if s.d { rollInput := -1.0; }
      assert rollInput == RollInput(s.a, s.d);

      if rollInput != 0.0 {
        rollDelta := Steer(rollInput, dt);
      } else if Abs(currentRoll) > LevelThreshold {
        rollDelta := Level(dt);
      } else {
        rollDelta := 0.0;
      }
    }

    /** Steers the tracked roll toward the input, clamped to the roll limit. */
    method Steer(rollInput: real, dt: real) returns (rollDelta: real)
      modifies this`currentRoll
      ensures RollStep(currentRoll, rollDelta)
           == SteerRoll(old(currentRoll), rollInput, rotationSpeed, dt, maxRollAngle)
    {
      var targetRoll := currentRoll + rollInput * rotationSpeed * RollRate * dt;
      targetRoll := MathfClamp(targetRoll, -maxRollAngle, maxRollAngle);
      rollDelta := targetRoll - currentRoll;
      currentRoll := targetRoll;
    }

    /** Levels the tracked roll out by one frame's worth, snapping it to zero when close. */
    method Level(dt: real) returns (rollDelta: real)
      requires Abs(currentRoll) > LevelThreshold
      modifies this`currentRoll
      ensures RollStep(currentRoll, rollDelta) == AutoLevel(old(currentRoll), dt)
    {
      rollDelta := -currentRoll * LevelSpeed * dt;
      rollDelta := MathfClamp(rollDelta, -Abs(currentRoll), Abs(currentRoll));
      currentRoll := currentRoll + rollDelta;
      if Abs(currentRoll) < LevelThreshold { currentRoll := 0.0; }
    }

    /** One frame: movement, then rotation. */
    method Update(s: InputSample, speed: real, dt: real) returns (force: Vec3, look: Vec3, rollDelta: real)
      requires IsMagnitude(body.velocity, speed)
      modifies body`velocity, this`currentRoll
      ensures force == Scale(ThrustDirection(s), thrustPower)
      ensures body.velocity == ClampSpeed(old(body.velocity), speed, maxSpeed)
      ensures look == LookAngles(s.mouseX, s.mouseY, rotationSpeed, invertPitch, invertYaw)
      ensures RollStep(currentRoll, rollDelta)
           == NextRoll(old(currentRoll), s.a, s.d, rotationSpeed, dt, maxRollAngle)
    {
      force := HandleMovement(s, speed);
      look, rollDelta := HandleRotation(s, dt);
    }
  }
}
