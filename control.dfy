/**
 * The six-degree-of-freedom ship controller (ShipController): per-tick
 * thrust and torque from the keys and mouse, a fuel-limited boost, a
 * rate-limited primary weapon, the speed ceiling, token pickups, and the
 * damage / destruction / respawn transition.
 */
module Control {
  import opened Wrappers
  import opened Physics
  import opened Inputs
  import opened Ships

  // ----- Movement and rotation -----

  /** Boost is on when the boost key is held and the tank is not empty. */
  function BoostActive(held: bool, fuel: real): (b: bool)
    ensures b ==> held && fuel > 0.0
    ensures held && fuel > 0.0 ==> b
  {
    held && fuel > 0.0
  }

  /** The factor boosting applies to thrust and to the speed ceiling. */
  function BoostModifier(boosting: bool, boostMultiplier: real): real {
    if boosting then boostMultiplier else 1.0
  }

  /**
   * The thrust of one tick, in the ship's local frame: forward (W over S),
   * right (D over A) and up (Space over LeftShift), each signal times its
   * power, times the boost multiplier while boosting.
   */
  function MoveForce(s: InputSample, boosting: bool,
                     thrustPower: real, strafePower: real, liftPower: real,
                     boostMultiplier: real): (f: Vec3)
    ensures f.z == AxisSignal(s.w, s.s) * thrustPower * BoostModifier(boosting, boostMultiplier)
    ensures f.x == AxisSignal(s.d, s.a) * strafePower * BoostModifier(boosting, boostMultiplier)
    ensures f.y == AxisSignal(s.space, s.leftShift) * liftPower * BoostModifier(boosting, boostMultiplier)
  {
    var boostMod := BoostModifier(boosting, boostMultiplier);
    var forward := AxisSignal(s.w, s.s) * thrustPower * boostMod;
    var right := AxisSignal(s.d, s.a) * strafePower * boostMod;
    var up := AxisSignal(s.space, s.leftShift) * liftPower * boostMod;
    Vec3(right, up, forward)
  }

  /** Boosting multiplies the whole thrust vector by the boost multiplier. */
  lemma BoostScalesForce(s: InputSample, thrustPower: real, strafePower: real,
                         liftPower: real, boostMultiplier: real)
    ensures MoveForce(s, true, thrustPower, strafePower, liftPower, boostMultiplier)
         == Scale(MoveForce(s, false, thrustPower, strafePower, liftPower, boostMultiplier), boostMultiplier)
  {
  }

  /**
   * The torque vector of one tick as handed to `AddTorque`, in world axes:
   * about x against the mouse's vertical motion, about y with its horizontal
   * motion, and about z twice the rotation speed (E over Q). These are pitch,
   * yaw and roll only while the ship is unrotated.
   */
  function Torque(s: InputSample, rotationSpeed: real): (t: Vec3)
    ensures t.x == -(s.mouseY * rotationSpeed) && t.y == s.mouseX * rotationSpeed
    ensures t.z == 2.0 * rotationSpeed || t.z == 0.0 || t.z == -2.0 * rotationSpeed
    ensures s.e ==> t.z == 2.0 * rotationSpeed
    ensures s.q && !s.e ==> t.z == -2.0 * rotationSpeed
    ensures !s.q && !s.e ==> t.z == 0.0
  {
    var mouseX := s.mouseX * rotationSpeed;
    var mouseY := s.mouseY * rotationSpeed;
    var roll := AxisSignal(s.e, s.q) * (rotationSpeed * 2.0);
    Vec3(-mouseY, mouseX, roll)
  }

  // ----- Fire gate -----

  /** Whether a fire happened, and the next time firing is allowed. */
  datatype FireDecision = FireDecision(fired: bool, nextFireTime: real)

  /**
   * The primary weapon fires when the button is held and the current time is
   * past the next allowed fire time; a fire pushes that time `fireRate` ahead.
   */
  function FireGate(held: bool, time: real, nextFireTime: real, fireRate: real): (g: FireDecision)
    ensures g.fired ==> held && time > nextFireTime
    ensures held && time > nextFireTime ==> g.fired
    ensures g.fired ==> g.nextFireTime == time + fireRate
    ensures !g.fired ==> g.nextFireTime == nextFireTime
  {
    if held && time > nextFireTime then FireDecision(true, time + fireRate)
    else FireDecision(false, nextFireTime)
  }

  /** One poll of the fire button: whether it is held, and the clock. */
  datatype FireSample = FireSample(held: bool, time: real)

  /** The times at which shots go off over a run of polls. */
  function FireTimes(samples: seq<FireSample>, nextFireTime: real, fireRate: real): seq<real>
    decreases |samples|
  {
    if samples == [] then []
    else
      var g := FireGate(samples[0].held, samples[0].time, nextFireTime, fireRate);
      (if g.fired then [samples[0].time] else []) + FireTimes(samples[1..], g.nextFireTime, fireRate)
  }

  /**
   * Over any run of polls the first shot comes after the initial next-fire
   * time, and every shot comes more than `fireRate` after the one before.
   */
  lemma {:induction false} FiresAreSpaced(samples: seq<FireSample>, nextFireTime: real, fireRate: real)
    ensures var f := FireTimes(samples, nextFireTime, fireRate);
      (|f| > 0 ==> f[0] > nextFireTime) &&
      forall i :: 0 < i < |f| ==> f[i] > f[i - 1] + fireRate
    decreases |samples|
  {
    if samples != [] {
      var g := FireGate(samples[0].held, samples[0].time, nextFireTime, fireRate);
      FiresAreSpaced(samples[1..], g.nextFireTime, fireRate);
    }
  }

  // ----- Fuel -----

  /**
   * Fuel after one tick: drained by `boostFuelCost * dt` but not below empty
   * while boosting, else refilled by `fuelRegenRate * dt` but not above full.
   */
  function NextFuel(fuel: real, maxFuel: real, boosting: bool,
                    fuelRegenRate: real, boostFuelCost: real, dt: real): (r: real)
    ensures boosting ==> r >= 0.0 && r >= fuel - boostFuelCost * dt
    ensures boosting ==> r == 0.0 || r == fuel - boostFuelCost * dt
    ensures !boosting ==> r <= maxFuel && r <= fuel + fuelRegenRate * dt
    ensures !boosting ==> r == maxFuel || r == fuel + fuelRegenRate * dt
  {
    if boosting then
      var drained := fuel - boostFuelCost * dt;
      if 0.0 > drained then 0.0 else drained
    else
      var refilled := fuel + fuelRegenRate * dt;
      if maxFuel < refilled then maxFuel else refilled
  }

  /** With non-negative rates and step, one tick keeps the tank between empty and full. */
  lemma FuelStepInRange(fuel: real, maxFuel: real, boosting: bool,
                        fuelRegenRate: real, boostFuelCost: real, dt: real)
    requires 0.0 <= fuel <= maxFuel
    requires fuelRegenRate >= 0.0 && boostFuelCost >= 0.0 && dt >= 0.0
    ensures 0.0 <= NextFuel(fuel, maxFuel, boosting, fuelRegenRate, boostFuelCost, dt) <= maxFuel
  {
  }

  /** One tick of the boost key: held or not, and the elapsed time. */
  datatype FuelTick = FuelTick(boostHeld: bool, dt: real)

  /** Fuel after a run of ticks, boost decided at the start of each from the fuel then left. */
  function FuelAfterTicks(fuel: real, maxFuel: real, fuelRegenRate: real,
                          boostFuelCost: real, ticks: seq<FuelTick>): real
    decreases |ticks|
  {
    if ticks == [] then fuel
    else
      var boosting := BoostActive(ticks[0].boostHeld, fuel);
      FuelAfterTicks(NextFuel(fuel, maxFuel, boosting, fuelRegenRate, boostFuelCost, ticks[0].dt),
                     maxFuel, fuelRegenRate, boostFuelCost, ticks[1..])
  }

  predicate NonNegativeSteps(ticks: seq<FuelTick>) {
    forall i :: 0 <= i < |ticks| ==> ticks[i].dt >= 0.0
  }

  /** Starting between empty and full, the tank stays there for any run of ticks. */
  lemma {:induction false} FuelStaysInRange(fuel: real, maxFuel: real, fuelRegenRate: real,
                                           boostFuelCost: real, ticks: seq<FuelTick>)
    requires 0.0 <= fuel <= maxFuel
    requires fuelRegenRate >= 0.0 && boostFuelCost >= 0.0
    requires NonNegativeSteps(ticks)
    ensures 0.0 <= FuelAfterTicks(fuel, maxFuel, fuelRegenRate, boostFuelCost, ticks) <= maxFuel
    decreases |ticks|
  {
    if ticks != [] {
      var boosting := BoostActive(ticks[0].boostHeld, fuel);
      FuelStepInRange(fuel, maxFuel, boosting, fuelRegenRate, boostFuelCost, ticks[0].dt);
      assert NonNegativeSteps(ticks[1..]) by {
        forall i | 0 <= i < |ticks[1..]| ensures ticks[1..][i].dt >= 0.0 {
          assert ticks[1..][i] == ticks[i + 1];
        }
      }
      FuelStaysInRange(NextFuel(fuel, maxFuel, boosting, fuelRegenRate, boostFuelCost, ticks[0].dt),
                       maxFuel, fuelRegenRate, boostFuelCost, ticks[1..]);
    }
  }

  /** A tick that starts on an empty tank refills even with the boost key held. */
  lemma EmptyTankRefills(maxFuel: real, fuelRegenRate: real, boostFuelCost: real, dt: real)
    requires fuelRegenRate >= 0.0 && dt >= 0.0 && maxFuel >= 0.0
    ensures !BoostActive(true, 0.0)
    ensures NextFuel(0.0, maxFuel, BoostActive(true, 0.0), fuelRegenRate, boostFuelCost, dt) >= 0.0
    ensures NextFuel(0.0, maxFuel, BoostActive(true, 0.0), fuelRegenRate, boostFuelCost, dt)
         == if fuelRegenRate * dt < maxFuel then fuelRegenRate * dt else maxFuel
  {
  }

  // ----- Tokens -----

  /** The pickup component a token object carries; its value is set by the world. */
  datatype TokenPickup = TokenPickup(value: int)

  /** What the ship flew into: the object's tag and its pickup component, if any. */
  datatype Collider = Collider(tag: string, pickup: Option<TokenPickup>)

  const TokenPickupTag := "TokenPickup"

  /** The collider is a token pickup the ship collects. */
  predicate IsToken(other: Collider) {
    other.tag == TokenPickupTag && other.pickup.Some?
  }

  /** The token balance after flying into `other`: a token's value is added. */
  function TokensAfterTrigger(tokens: int, other: Collider): (t: int)
    ensures !IsToken(other) ==> t == tokens
    ensures IsToken(other) ==> t - tokens == other.pickup.value.value
    ensures IsToken(other) && other.pickup.value.value >= 0 ==> t >= tokens
  {
    if other.tag == TokenPickupTag then
      match other.pickup
      case Some(token) => tokens + token.value
      case None => tokens
    else tokens
  }

  /** C#'s `t / 2` on `int`, which truncates toward zero. */
  function HalfTowardZero(t: int): int {
    if t >= 0 then t / 2 else -((-t) / 2)
  }

  /** The split of the balance on destruction: what the ship keeps and what it drops. */
  datatype Forfeiture = Forfeiture(kept: int, dropped: int)

  /**
   * On destruction half the balance, rounded down, is dropped; the ship keeps
   * the rest, the larger half of an odd balance.
   */
  function Forfeit(tokens: int): (r: Forfeiture)
    ensures r.kept + r.dropped == tokens
    ensures tokens >= 0 ==> 0 <= r.dropped <= r.kept <= tokens && r.kept - r.dropped <= 1
    ensures tokens < 0 ==> tokens <= r.kept <= r.dropped <= 0 && r.dropped - r.kept <= 1
  {
    var droppedTokens := HalfTowardZero(tokens);
    Forfeiture(tokens - droppedTokens, droppedTokens)
  }

  lemma ForfeitExamples()
    ensures Forfeit(10) == Forfeiture(5, 5)
    ensures Forfeit(5) == Forfeiture(3, 2)
    ensures Forfeit(0) == Forfeiture(0, 0)
  {
  }

  /** What can happen to the balance between ticks: a trigger contact, or a destruction. */
  datatype TokenEvent = Contact(other: Collider) | Destruction

  function TokensAfterEvents(tokens: int, events: seq<TokenEvent>): int
    decreases |events|
  {
    if events == [] then tokens
    else
      var t := match events[0]
        case Contact(other) => TokensAfterTrigger(tokens, other)
        case Destruction => Forfeit(tokens).kept;
      TokensAfterEvents(t, events[1..])
  }

  predicate NonNegativePickup(e: TokenEvent) {
    e.Contact? && IsToken(e.other) ==> e.other.pickup.value.value >= 0
  }

  /** A non-negative balance stays non-negative through pickups of non-negative value and deaths. */
  lemma {:induction false} TokensNeverNegative(tokens: int, events: seq<TokenEvent>)
    requires tokens >= 0
    requires forall i :: 0 <= i < |events| ==> NonNegativePickup(events[i])
    ensures TokensAfterEvents(tokens, events) >= 0
    decreases |events|
  {
    if events != [] {
      var t := match events[0]
        case Contact(other) => TokensAfterTrigger(tokens, other)
        case Destruction => Forfeit(tokens).kept;
      assert NonNegativePickup(events[0]);
      assert forall i :: 0 <= i < |events[1..]| ==> NonNegativePickup(events[1..][i]) by {
        forall i | 0 <= i < |events[1..]| ensures NonNegativePickup(events[1..][i]) {
          assert events[1..][i] == events[i + 1];
        }
      }
      TokensNeverNegative(t, events[1..]);
    }
  }

  // ----- Damage, destruction, respawn -----

  /** The hit drops the shield to zero or below. */
  predicate Destroyed(shield: real, damage: real) {
    shield - damage <= 0.0
  }

  /**
   * The shield after a hit: reduced by the damage, or, when that leaves
   * nothing, refilled to maximum by the respawn.
   */
  function ShieldAfterDamage(shield: real, maxShield: real, damage: real): (r: real)
    ensures !Destroyed(shield, damage) ==> r == shield - damage
    ensures Destroyed(shield, damage) ==> r == maxShield
    ensures maxShield > 0.0 ==> r > 0.0
    ensures damage >= 0.0 && shield <= maxShield ==> r <= maxShield
  {
    var s := shield - damage;
    if s <= 0.0 then maxShield else s
  }

  lemma ShieldExamples()
    ensures ShieldAfterDamage(1.0, 100.0, 5.0) == 100.0
    ensures ShieldAfterDamage(100.0, 100.0, 30.0) == 70.0
    ensures ShieldAfterDamage(100.0, 100.0, -5.0) == 105.0
  {
  }

  /** The controller attached to a ship: its tuning, fuel, weapon timer and tokens. */
  class ShipController {
    var thrustPower: real
    var strafePower: real
    var liftPower: real
    var rotationSpeed: real
    var boostMultiplier: real

    var fireRate: real

    var maxFuel: real
    var currentFuel: real
    var fuelRegenRate: real
    var boostFuelCost: real

    var collectedTokens: int

    const ship: ShipBase
    const body: Body
    var nextFireTime: real
    var isBoosting: bool

    /** The tank is between empty and full and its rates are non-negative. */
    ghost predicate FuelInvariant()
      reads this
    {
      0.0 <= currentFuel <= maxFuel && fuelRegenRate >= 0.0 && boostFuelCost >= 0.0
    }

    /** The default tuning, with the tank filled at start. */
    constructor (ship: ShipBase, body: Body)
      ensures this.ship == ship && this.body == body
      ensures thrustPower == 15.0 && strafePower == 12.0 && liftPower == 12.0
      ensures rotationSpeed == 3.0 && boostMultiplier == 2.0 && fireRate == 0.2
      ensures maxFuel == 100.0 && currentFuel == maxFuel
      ensures fuelRegenRate == 20.0 && boostFuelCost == 30.0
      ensures collectedTokens == 0 && nextFireTime == 0.0 && !isBoosting
      ensures FuelInvariant()
    {
      this.ship := ship;
      this.body := body;
      thrustPower := 15.0;
      strafePower := 12.0;
      liftPower := 12.0;
      rotationSpeed := 3.0;
      boostMultiplier := 2.0;
      fireRate := 0.2;
      maxFuel := 100.0;
      currentFuel := 100.0;
      fuelRegenRate := 20.0;
      boostFuelCost := 30.0;
      collectedTokens := 0;
      nextFireTime := 0.0;
      isBoosting := false;
      new;
      currentFuel := maxFuel;
    }

    /**
     * Decides boost from the fuel left before anything drains it, and returns
     * the local-frame thrust for the physics engine.
     */
    method HandleMovement(s: InputSample) returns (force: Vec3)
      modifies this`isBoosting
      ensures isBoosting == BoostActive(s.leftControl, currentFuel)
      ensures force == MoveForce(s, isBoosting, thrustPower, strafePower, liftPower, boostMultiplier)
    {
      isBoosting := s.leftControl && currentFuel > 0.0;
      force := MoveForce(s, isBoosting, thrustPower, strafePower, liftPower, boostMultiplier);
    }

    /** Returns the torque for the physics engine. */
    method HandleRotation(s: InputSample) returns (torque: Vec3)
      ensures torque == Torque(s, rotationSpeed)
      ensures torque.z == 2.0 * rotationSpeed || torque.z == 0.0 || torque.z == -2.0 * rotationSpeed
    {
      torque := Torque(s, rotationSpeed);
    }

    /** Fires the primary weapon when the button is held and the cooldown has passed. */
    method HandleWeapons(s: InputSample, time: real) returns (fired: bool)
      modifies this`nextFireTime
      ensures fired <==> s.mouseButton0 && time > old(nextFireTime)
      ensures fired ==> nextFireTime == time + fireRate
      ensures !fired ==> nextFireTime == old(nextFireTime)
    {
      fired := false;
      if s.mouseButton0 && time > nextFireTime {
        fired := true;
        nextFireTime := time + fireRate;
      }
    }

    /** Drains fuel while boosting, regenerates it otherwise. */
    method UpdateFuel(dt: real)
      modifies this`currentFuel
      ensures currentFuel == NextFuel(old(currentFuel), maxFuel, isBoosting, fuelRegenRate, boostFuelCost, dt)
      ensures old(FuelInvariant()) && dt >= 0.0 ==> FuelInvariant()
    {
      if isBoosting {
        currentFuel := currentFuel - boostFuelCost * dt;
        currentFuel := if 0.0 > currentFuel then 0.0 else currentFuel;
      } else {
        currentFuel := currentFuel + fuelRegenRate * dt;
        currentFuel := if maxFuel < currentFuel then maxFuel else currentFuel;
      }
      if old(FuelInvariant()) && dt >= 0.0 {
        FuelStepInRange(old(currentFuel), maxFuel, isBoosting, fuelRegenRate, boostFuelCost, dt);
      }
    }

    /**
     * Caps the body's speed at the ship's maximum, times the boost multiplier
     * while boosting. `speed` is the body's current speed, as the physics engine reports it.
     */
    method ClampVelocity(speed: real)
      requires IsMagnitude(body.velocity, speed)
      modifies body`velocity
      ensures body.velocity == ClampSpeed(old(body.velocity), speed,
                                          ship.maxSpeed * BoostModifier(isBoosting, boostMultiplier))
    {
      var maxVel := ship.maxSpeed * BoostModifier(isBoosting, boostMultiplier);
      if speed > maxVel {
        body.velocity := Scale(Normalized(body.velocity, speed), maxVel);
      }
    }

    /** Collects a token pickup the ship flies into. */
    method OnTriggerEnter(other: Collider)
      modifies this`collectedTokens
      ensures collectedTokens == TokensAfterTrigger(old(collectedTokens), other)
    {
      if other.tag == TokenPickupTag {
        if other.pickup.Some? {
          collectedTokens := collectedTokens + other.pickup.value.value;
        }
      }
    }

    /** Applies a hit to the shield; a hit that empties it destroys and respawns the ship. */
    method TakeDamage(damage: real)
      modifies ship`currentShield, body, this`collectedTokens
      ensures ship.currentShield == ShieldAfterDamage(old(ship.currentShield), ship.maxShield, damage)
      ensures ship.maxShield > 0.0 ==> ship.currentShield > 0.0
      ensures Destroyed(old(ship.currentShield), damage) ==>
        body.AtSpawn() && collectedTokens == Forfeit(old(collectedTokens)).kept
      ensures !Destroyed(old(ship.currentShield), damage) ==>
        unchanged(body) && collectedTokens == old(collectedTokens)
    {
      ship.currentShield := ship.currentShield - damage;
      if ship.currentShield <= 0.0 {
        var _ := OnShipDestroyed();
      }
    }

    /**
     * Respawns the ship at the origin, at rest, with a full shield, and drops
     * half of its tokens, which it reports.
     */
    method OnShipDestroyed() returns (droppedTokens: int)
      modifies ship`currentShield, body, this`collectedTokens
      ensures body.AtSpawn() && ship.currentShield == ship.maxShield
      ensures droppedTokens == Forfeit(old(collectedTokens)).dropped
      ensures collectedTokens == Forfeit(old(collectedTokens)).kept
    {
      body.position := Zero;
      body.rotation := Identity;
      body.velocity := Zero;
      body.angularVelocity := Zero;
      ship.currentShield := ship.maxShield;
      droppedTokens := HalfTowardZero(collectedTokens);
      collectedTokens := collectedTokens - droppedTokens;
    }

    /** The per-frame step: the weapon, then the fuel. */
    method Update(s: InputSample, time: real, dt: real) returns (fired: bool)
      modifies this`nextFireTime, this`currentFuel
      ensures fired <==> s.mouseButton0 && time > old(nextFireTime)
      ensures nextFireTime == FireGate(s.mouseButton0, time, old(nextFireTime), fireRate).nextFireTime
      ensures currentFuel == NextFuel(old(currentFuel), maxFuel, isBoosting, fuelRegenRate, boostFuelCost, dt)
      ensures old(FuelInvariant()) && dt >= 0.0 ==> FuelInvariant()
    {
      fired := HandleWeapons(s, time);
      UpdateFuel(dt);
    }

    /**
     * The per-physics-step: thrust, then torque, then the speed ceiling.
     * `speed` is the body's speed, as the physics engine reports it.
     */
    method FixedUpdate(s: InputSample, speed: real) returns (force: Vec3, torque: Vec3)
      requires IsMagnitude(body.velocity, speed)
      modifies this`isBoosting, body`velocity
      ensures isBoosting == BoostActive(s.leftControl, currentFuel)
      ensures force == MoveForce(s, isBoosting, thrustPower, strafePower, liftPower, boostMultiplier)
      ensures torque == Torque(s, rotationSpeed)
      ensures body.velocity == ClampSpeed(old(body.velocity), speed,
                                          ship.maxSpeed * BoostModifier(isBoosting, boostMultiplier))
    {
      force := HandleMovement(s);
      torque := HandleRotation(s);
      ClampVelocity(speed);
    }
  }
}
