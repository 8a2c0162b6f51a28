# Plasma Siege ship simulation, modelled in Dafny

This project models the ship simulation of Plasma Siege, a Unity space-combat game:

- **ShipBase** holds a ship's stats and its level and experience. It also
  decides NFT-minting eligibility and holds three upgrade slots in each of
  three categories.
- **ScoutShip** is the one ship tier in the source. It sets the baseline
  stats and the mass.
- **ShipController** runs the ship each tick:
  - thrust and torque from the keys and the mouse;
  - a boost that needs fuel, with fuel drained while boosting and
    regenerated otherwise;
  - a primary weapon limited by its fire rate;
  - a hard speed ceiling;
  - token pickups;
  - the damage → destruction → respawn transition, which refills the
    shield and drops half of the tokens.
- **FlyingShipFixed** is the prototype controller. It has thrust along
  forward and up, a plain speed ceiling, and mouse look with per-axis
  inversion. Its roll is steered by A/D within `±maxRollAngle` and levels
  itself out when the keys are released.

Modules:

- `Ships` (ships.dfy) models `ShipBase.cs`. It has the pure level table
  `CalculateLevel`, the `UpgradeSlot` value, and the `ShipBase` class whose
  `AddExperience` updates `experience` and `level` in place.
- `Scout` (scout.dfy) models `ScoutShip.cs`. `InitializeStats` writes the
  inherited fields of a `ShipBase`.
- `Control` (control.dfy) models `ShipController.cs`. Every per-tick rule is a
  pure function with its own contract: `BoostActive`, `MoveForce`, `Torque`,
  `FireGate`, `NextFuel`, `TokensAfterTrigger`, `Forfeit` and
  `ShieldAfterDamage`. The `ShipController` class has one method per source
  method, except that `Start` becomes the constructor and `FirePrimary` has
  no method of its own (a fire is the `fired` result); each states its new state through these functions. Lemmas
  follow whole runs of ticks: fuel stays between empty and full, shots are
  more than `fireRate` apart, and the token balance never goes negative.
- `Flying` (flying.dfy) models `FlyingShipFixed.cs`. The `FlyingShip` class
  tracks `currentRoll`. Lemmas over runs of frames show that the roll stays
  within its limit, and that once released it never grows and never crosses
  level.
- Helper modules:
  - `Physics` (physics.dfy) has vectors over the reals, the rigid body as a
    plain holder of position, rotation and velocities, and the speed clamp
    shared by both controllers.
  - `Inputs` (inputs.dfy) has the input sample that replaces Unity's input
    polling.
  - `Wrappers` (wrappers.dfy) has `Option`.

Modelling choices:

- Floats are `real`.
- Magnitudes come from the physics engine. A clamp takes the body's
  current `speed` with `IsMagnitude(v, speed)`, meaning `speed ≥ 0` and
  `speed² = |v|²`.
- `v.normalized` is `v` scaled by the positive factor `1/speed`, or the
  zero vector when the speed is 0. So, for a non-negative limit, a clamped
  velocity is a non-negative rescale of the old one. A negative limit (a
  negative `maxSpeed` or `boostMultiplier`) reverses the velocity, as
  `ShipController.cs` does.
- Thrust forces are returned in the ship's local frame (x right, y up,
  z forward) instead of being passed to `AddForce`; the source builds them
  from `transform.right/up/forward`, so it applies them along the ship's own
  axes. `ShipController`'s torque is returned as the vector the source hands
  to `AddTorque`, which Unity reads in world axes: it turns the ship about
  world x, y and z, which are pitch, yaw and roll only while the ship is
  unrotated.
- `FloorToInt(exp / 1000f)` is Dafny's `exp / 1000`, which floors for a
  positive divisor, negative `exp` included.
- C#'s truncating `collectedTokens / 2` is written out as `HalfTowardZero`.
- Unvalidated inputs are modelled as written:
  - a negative `damage` raises the shield, possibly above `maxShield`
    (`Control.ShieldExamples` shows 100 → 105);
  - a negative experience `amount` lowers `experience`, but the guard in
    `AddExperience` still never lowers `level`.

  The properties that need these inputs to be non-negative say so in their
  `requires`.

Points of the code worth knowing:

- `ShipController.cs` has no invert flags for pitch or yaw. Only
  `FlyingShipFixed.cs` has them.
- In `ShipController.cs`, `HandleMovement` runs in `FixedUpdate` and
  `UpdateFuel` runs in `Update`. The two share the `isBoosting` field, and
  the model keeps that field. `Control.FuelAfterTicks` takes a boost
  decision and a fuel update as one tick.
- Only the per-slot `UpgradeSlot.GetBonus` exists. There is no bonus total
  per upgrade category.
- `CanMintNFT` tests `level >= 10`. Under the level invariant
  `1 ≤ level ≤ 10` that is `level == 10`, and the contract says so.
- While auto-levelling, the roll applied to the transform is `rollDelta`,
  which is at most the current roll in size. When the tracked roll then
  snaps to 0, the change in `currentRoll` is not `rollDelta`.
  `Flying.AutoLevel` states `roll == 0 || roll == old + delta`.

## Model

| member | source | states |
|---|---|---|
| `Ships.UpgradeSlot.GetBonus` | PlasmaSeige/Assets/Scripts/Ships/ShipBase.cs:88-91 | an empty slot gives bonus 0; an occupied slot gives its installed upgrade's bonus |
| `Ships.CalculateLevel` | PlasmaSeige/Assets/Scripts/Ships/ShipBase.cs:62-65 | the level never exceeds 10 and is at least 1 for non-negative experience; it is 10 exactly from 9000 experience on; below 10, level `l` is the thousand-point band `[(l-1)·1000, l·1000)` holding the experience |
| `Ships.CalculateLevelMonotone` | PlasmaSeige/Assets/Scripts/Ships/ShipBase.cs:62-65 | more experience never gives a lower level |
| `Ships.CalculateLevelExamples` | PlasmaSeige/Assets/Scripts/Ships/ShipBase.cs:62-65 | 0→1, 999→1, 1000→2, 9000→10, 50000→10 |
| `Ships.LevelAfter` | PlasmaSeige/Assets/Scripts/Ships/ShipBase.cs:54-59 | the level after an award never drops; it rises to the computed level whenever that is higher, and otherwise stays; it never passes 10 when it started at or below 10 |
| `Ships.LevelStaysInSync` | PlasmaSeige/Assets/Scripts/Ships/ShipBase.cs:51-65 | if the level agrees with the experience, it still agrees after a non-negative award |
| `Ships.ShipBase.constructor` | PlasmaSeige/Assets/Scripts/Ships/ShipBase.cs:10-25 | a new ship is at level 1 with 0 experience; it is not minted; it has three empty slots in each upgrade category |
| `Ships.ShipBase.AddExperience` | PlasmaSeige/Assets/Scripts/Ships/ShipBase.cs:51-60 | experience grows by the amount unconditionally; the level only rises, and only to the computed level when that is ≤10; the level stays in [1,10]; it stays equal to `CalculateLevel(experience)` for non-negative awards; no other field changes |
| `Ships.ShipBase.CanMintNFT` | PlasmaSeige/Assets/Scripts/Ships/ShipBase.cs:76-79 | eligible only when not yet minted; under the level invariant, eligible exactly at level 10 when not minted |
| `Scout.InitializeStats` | PlasmaSeige/Assets/Scripts/Ships/ScoutShip.cs:9-16 | the tier is Scout; max shield is 100 and the current shield starts full; max speed is 80; one weapon slot; only these five fields change |
| `Scout.GetShipMass` | PlasmaSeige/Assets/Scripts/Ships/ScoutShip.cs:18 | the Scout's mass is the constant 0.8: positive and lighter than one unit |
| `Physics.Normalized` | PlasmaSeige/Assets/Scripts/Ships/ShipController.cs:141 | for a moving body, `v.normalized` is `v` scaled by the positive factor `1/speed` (same direction) and has length 1; for a body at rest it is zero |
| `Physics.ClampSpeed` | PlasmaSeige/Assets/Scripts/Ships/ShipController.cs:136-143 | at or under the limit the velocity is unchanged; over a non-negative limit the result has length exactly the limit and is `v` scaled by `limit/speed ∈ [0,1)`, so the direction is kept |
| `Inputs.AxisSignal` | PlasmaSeige/Assets/Scripts/Ships/ShipController.cs:67-69 | a key pair gives -1, 0 or 1; positive exactly when the positive key is held; negative exactly when only the negative key is held |
| `Control.BoostActive` | PlasmaSeige/Assets/Scripts/Ships/ShipController.cs:72 | boost is on if and only if the boost key is held and fuel is above zero |
| `Control.MoveForce` | PlasmaSeige/Assets/Scripts/Ships/ShipController.cs:64-82 | each local force component is its key-pair signal × its power × (the boost multiplier when boosting, else 1) |
| `Control.BoostScalesForce` | PlasmaSeige/Assets/Scripts/Ships/ShipController.cs:73-79 | the boosted thrust vector is the unboosted one scaled by the boost multiplier |
| `Control.Torque` | PlasmaSeige/Assets/Scripts/Ships/ShipController.cs:84-98 | the world-axis torque handed to `AddTorque` is `(-mouseY·speed, mouseX·speed, roll)`; roll is one of `2·speed`, 0 or `-2·speed`; E wins over Q |
| `Control.FireGate` | PlasmaSeige/Assets/Scripts/Ships/ShipController.cs:100-107 | a shot happens if and only if the button is held and the time is past `nextFireTime`; a shot sets `nextFireTime` to time + `fireRate`; a blocked poll leaves it as it was |
| `Control.FiresAreSpaced` | PlasmaSeige/Assets/Scripts/Ships/ShipController.cs:100-107 | in any run of polls the first shot is after the initial `nextFireTime` and each shot is more than `fireRate` after the previous one |
| `Control.NextFuel` | PlasmaSeige/Assets/Scripts/Ships/ShipController.cs:122-134 | boosting drains by `boostFuelCost·dt` floored at 0; not boosting refills by `fuelRegenRate·dt` capped at `maxFuel`; exactly one of the two per call |
| `Control.FuelStepInRange` | PlasmaSeige/Assets/Scripts/Ships/ShipController.cs:122-134 | with non-negative rates and step, one update keeps fuel in [0, maxFuel] |
| `Control.FuelStaysInRange` | PlasmaSeige/Assets/Scripts/Ships/ShipController.cs:122-134 | starting in [0, maxFuel], fuel stays there over any run of ticks with non-negative steps |
| `Control.EmptyTankRefills` | PlasmaSeige/Assets/Scripts/Ships/ShipController.cs:72 | a tick that starts with an empty tank and the boost key held does not boost; it refills, to `min(maxFuel, fuelRegenRate·dt)` |
| `Control.TokensAfterTrigger` | PlasmaSeige/Assets/Scripts/Ships/ShipController.cs:145-157 | only a collider tagged `TokenPickup` that has a pickup component changes the balance, by that pickup's value; a non-negative pickup never lowers it |
| `Control.Forfeit` | PlasmaSeige/Assets/Scripts/Ships/ShipController.cs:181-182 | kept + dropped = the balance; for a non-negative balance both parts are non-negative and the ship keeps the larger half (at most one more than it drops) |
| `Control.ForfeitExamples` | PlasmaSeige/Assets/Scripts/Ships/ShipController.cs:181-182 | 10 → keep 5, drop 5; 5 → keep 3, drop 2; 0 → 0, 0 |
| `Control.TokensNeverNegative` | PlasmaSeige/Assets/Scripts/Ships/ShipController.cs:145-184 | a non-negative balance stays non-negative through any run of non-negative pickups and destructions |
| `Control.ShieldAfterDamage` | PlasmaSeige/Assets/Scripts/Ships/ShipController.cs:159-178 | a hit that leaves shield above 0 just subtracts; one that leaves ≤0 refills to `maxShield`; with `maxShield > 0` the shield is positive afterwards; with non-negative damage a shield within `maxShield` stays within it |
| `Control.ShieldExamples` | PlasmaSeige/Assets/Scripts/Ships/ShipController.cs:159-178 | shield 1 hit for 5 respawns at 100; shield 100 hit for 30 is 70; a negative hit of -5 raises 100 to 105 |
| `Control.ShipController.constructor` | PlasmaSeige/Assets/Scripts/Ships/ShipController.cs:11-39 | the default tuning; the tank starts full; no tokens; not boosting |
| `Control.ShipController.HandleMovement` | PlasmaSeige/Assets/Scripts/Ships/ShipController.cs:64-82 | boost is decided from the fuel before any drain; the returned thrust is `MoveForce` for that boost state |
| `Control.ShipController.HandleRotation` | PlasmaSeige/Assets/Scripts/Ships/ShipController.cs:84-98 | returns the torque of `Torque`, whose roll is one of three values |
| `Control.ShipController.HandleWeapons` | PlasmaSeige/Assets/Scripts/Ships/ShipController.cs:100-107 | fires exactly when the button is held and the time is past `nextFireTime`, then moves that time `fireRate` ahead; a blocked call leaves it unchanged |
| `Control.ShipController.UpdateFuel` | PlasmaSeige/Assets/Scripts/Ships/ShipController.cs:122-134 | the new fuel is `NextFuel` for the current boost state; the fuel invariant is preserved for a non-negative step |
| `Control.ShipController.ClampVelocity` | PlasmaSeige/Assets/Scripts/Ships/ShipController.cs:136-143 | the body's velocity becomes `ClampSpeed` at `maxSpeed` × (the boost multiplier when boosting, else 1) |
| `Control.ShipController.OnTriggerEnter` | PlasmaSeige/Assets/Scripts/Ships/ShipController.cs:145-157 | the balance becomes `TokensAfterTrigger` of the old one |
| `Control.ShipController.TakeDamage` | PlasmaSeige/Assets/Scripts/Ships/ShipController.cs:159-168 | the shield becomes `ShieldAfterDamage`, which is positive when `maxShield > 0`; on destruction the body is back at spawn and the ship keeps the larger half of its tokens; otherwise body and tokens are untouched |
| `Control.ShipController.OnShipDestroyed` | PlasmaSeige/Assets/Scripts/Ships/ShipController.cs:170-184 | the body is at the origin, unrotated, with no linear or angular velocity; the shield is full; half of the tokens, rounded toward zero (the floor half for a non-negative balance), is dropped and reported |
| `Control.ShipController.Update` | PlasmaSeige/Assets/Scripts/Ships/ShipController.cs:45-55 | the fire gate, then the fuel update, with the fuel invariant kept |
| `Control.ShipController.FixedUpdate` | PlasmaSeige/Assets/Scripts/Ships/ShipController.cs:57-62 | thrust, torque, then the speed ceiling for the boost state just decided |
| `Flying.MathfClamp` | plasmasiegeUnity/Assets/FlyingShipFixed.cs:128 | with `lo ≤ hi` the result lies in `[lo, hi]`; it is the value itself when already inside, else the bound it crossed |
| `Flying.ThrustDirection` | plasmasiegeUnity/Assets/FlyingShipFixed.cs:74-82 | forward is held(W) − held(S); up is held(Space) − held(LeftShift); there is no sideways part |
| `Flying.OppositeKeysCancel` | plasmasiegeUnity/Assets/FlyingShipFixed.cs:76-82 | W with S, or Space with LeftShift, held together give no thrust on that axis |
| `Flying.LookAngles` | plasmasiegeUnity/Assets/FlyingShipFixed.cs:111-118 | pitch is `-mouseY·speed` and yaw is `mouseX·speed`, each negated when its flag is set; no roll |
| `Flying.InversionIsPerAxis` | plasmasiegeUnity/Assets/FlyingShipFixed.cs:114-116 | toggling one invert flag negates only its own axis |
| `Flying.RollInput` | plasmasiegeUnity/Assets/FlyingShipFixed.cs:121-123 | +1 for A; -1 for D; D wins when both are held; 0 for neither |
| `Flying.SteerRoll` | plasmasiegeUnity/Assets/FlyingShipFixed.cs:125-133 | the new roll is the old roll plus input × rotation speed × 50 × dt when that lies within `[-maxRollAngle, maxRollAngle]`, and the crossed bound otherwise (for a non-negative limit); so with a non-negative limit it stays in that range; the applied roll equals the change in tracked roll |
| `Flying.AutoLevel` | plasmasiegeUnity/Assets/FlyingShipFixed.cs:137-147 | a roll within 0.1 is left alone; while `30·dt ≤ 1` a larger roll is turned by exactly `−roll·30·dt` and becomes `roll·(1 − 30·dt)`, or 0 when that lands within 0.1 of level; once `30·dt ≥ 1` it becomes 0 and is turned by exactly `−roll`; for `dt > 0` its size strictly shrinks; it never crosses 0; the applied roll is at most the current roll in size; it ends either at exactly 0 or at least 0.1 away from it |
| `Flying.NextRoll` | plasmasiegeUnity/Assets/FlyingShipFixed.cs:121-148 | one frame keeps a roll within the limit; with the keys released it never increases the size of the roll, strictly decreases a roll beyond 0.1 when `dt > 0`, and keeps its sign or comes to 0 |
| `Flying.RollStaysWithinLimit` | plasmasiegeUnity/Assets/FlyingShipFixed.cs:125-148 | a roll within `±maxRollAngle` stays within it over any run of frames with non-negative steps |
| `Flying.AutoLevelNeverGrows` | plasmasiegeUnity/Assets/FlyingShipFixed.cs:134-148 | over any run of released frames the size of the roll never grows and the roll never changes sign |
| `Flying.FlyingShip.constructor` | plasmasiegeUnity/Assets/FlyingShipFixed.cs:6-24 | the default tuning; the roll starts level |
| `Flying.FlyingShip.HandleMovement` | plasmasiegeUnity/Assets/FlyingShipFixed.cs:72-92 | returns `ThrustDirection` scaled by `thrustPower`; over `maxSpeed` the velocity is rescaled to exactly `maxSpeed`, otherwise it is unchanged |
| `Flying.FlyingShip.HandleRotation` | plasmasiegeUnity/Assets/FlyingShipFixed.cs:94-152 | returns the look rotation and applied roll; the tracked roll follows `NextRoll`; a roll within the limit stays within it; under input, the applied roll equals the change in tracked roll |
| `Flying.FlyingShip.Steer` | plasmasiegeUnity/Assets/FlyingShipFixed.cs:125-133 | the input branch updates the tracked roll as `SteerRoll` |
| `Flying.FlyingShip.Level` | plasmasiegeUnity/Assets/FlyingShipFixed.cs:137-147 | the auto-level branch updates the tracked roll as `AutoLevel` |
| `Flying.FlyingShip.Update` | plasmasiegeUnity/Assets/FlyingShipFixed.cs:57-63 | movement, then rotation, as the two methods state |

## Left out

- Physics integration is not modelled: `AddForce`, `AddTorque`, drag,
  angular drag, mass, gravity and interpolation, including
  `ShipBase.ConfigurePhysics` and the rigidbody set-up in
  `FlyingShipFixed.Start`. The body is only a holder of position, rotation
  and velocities that the controllers read and overwrite.
- The local-to-world rotation of forces (`transform.forward/right/up`) is not
  modelled. Forces are returned in the ship's local frame, the
  `ShipController` torque as its world-axis vector, and the look rotation as
  Euler angles.
- IEEE-754 rounding is not modelled, nor is Unity's rule that a vector
  shorter than 1e-5 normalises to zero. Floats are reals. `0.1f` is 0.1.
- Input polling is not modelled. It becomes the `InputSample` record, and
  the clock (`Time.time`, `Time.deltaTime`) becomes parameters.
- Logging and debug drawing are not modelled: `Debug.Log`, the Tab status
  line, `FirePrimary`'s `DrawRay` loop over weapon mounts, and the
  `OnLevelUp` notices. A fire is reported as the `fired` result.
- `Destroy(other.gameObject)` after a pickup is not modelled. The pickup's
  lifetime belongs to the world.
- Camera follow (`UpdateCamera`), the mouse-constraint computation, whose
  clamped position is never used, and cursor locking are not modelled.
  Neither is the primitive ship spawned in `FlyingShipFixed.Start`, nor
  `Update`'s early return when that ship is missing: the model's body
  always exists.
- `UpgradeConfig` is not part of this model. Its `GetBonus` result is carried
  as a value. The source has no code that installs upgrades.
- The NFT mint transaction and anything that sets `isNFT` or
  `nftMintAddress` are not modelled. No method of the model changes them.
- Fighter and Destroyer ship classes are not part of this model. Only the
  Scout tier's `InitializeStats` exists in the source.
- `Ships.ShipBase.AddExperience`: does not model 32-bit wrap-around of
  `experience + amount`, because experience is an unbounded `int`.
- `Control.ShipController.OnTriggerEnter`: does not model 32-bit wrap-around
  of `collectedTokens`, because the balance is an unbounded `int`.
- `Ships.ShipBase.constructor`: the C# field initialisers `new UpgradeSlot[3]`
  create three null references per category, which become default slots only
  through Unity's serialisation; the model starts each element as the empty
  slot, so it does not capture a `GetBonus` call on a null element throwing.
