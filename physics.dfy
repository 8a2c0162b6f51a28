/**
 * The rigid-body capability both ship controllers push around: vectors over
 * the reals, orientations, and a body that holds the kinematic state.
 * Integration of forces and torques is not modelled; the body only holds
 * what the controllers read and overwrite.
 */
module Physics {

  /** A 3-vector. In a ship's local frame x is right, y is up and z is forward. */
  datatype Vec3 = Vec3(x: real, y: real, z: real)

  const Zero := Vec3(0.0, 0.0, 0.0)

  /** Unit axes of a ship's local frame. */
  const Up := Vec3(0.0, 1.0, 0.0)
  const Forward := Vec3(0.0, 0.0, 1.0)

  function Add(a: Vec3, b: Vec3): Vec3 {
    Vec3(a.x + b.x, a.y + b.y, a.z + b.z)
  }

  function Sub(a: Vec3, b: Vec3): Vec3 {
    Vec3(a.x - b.x, a.y - b.y, a.z - b.z)
  }

  function Scale(v: Vec3, k: real): Vec3 {
    Vec3(k * v.x, k * v.y, k * v.z)
  }

  /** The squared Euclidean length. */
  function NormSq(v: Vec3): real {
    v.x * v.x + v.y * v.y + v.z * v.z
  }

  /** `m` is the Euclidean length of `v`, as the physics engine reports it. */
  predicate IsMagnitude(v: Vec3, m: real) {
    m >= 0.0 && m * m == NormSq(v)
  }

  lemma NormSqScale(v: Vec3, k: real)
    ensures NormSq(Scale(v, k)) == k * k * NormSq(v)
  {
  }

  /**
   * `v.normalized`: the unit vector along `v`, or the zero vector when `v`
   * has no length.
   */
  function Normalized(v: Vec3, speed: real): (u: Vec3)
    requires IsMagnitude(v, speed)
    ensures speed > 0.0 ==> IsMagnitude(u, 1.0)
    ensures speed > 0.0 ==> 1.0 / speed > 0.0 && u == Scale(v, 1.0 / speed)
    ensures speed == 0.0 ==> u == Zero
  {
    if speed == 0.0 then Zero
    else
      NormSqScale(v, 1.0 / speed);
      assert (1.0 / speed) * (1.0 / speed) * (speed * speed) == 1.0;
      Scale(v, 1.0 / speed)
  }

  /**
   * The hard speed ceiling both controllers apply: when the body is faster
   * than `limit`, its velocity becomes `v.normalized * limit`.
   */
  function ClampSpeed(v: Vec3, speed: real, limit: real): (r: Vec3)
    requires IsMagnitude(v, speed)
    ensures speed <= limit ==> r == v
    ensures speed > limit >= 0.0 ==> IsMagnitude(r, limit)
    ensures speed > limit && speed > 0.0 ==> r == Scale(v, limit / speed)
    ensures speed > limit >= 0.0 ==> 0.0 <= limit / speed < 1.0
  {
    if speed > limit then
      var u := Normalized(v, speed);
      if speed > 0.0 then
        NormSqScale(u, limit);
        assert Scale(u, limit) == Scale(v, limit / speed);
        Scale(u, limit)
      else Scale(u, limit)
    else v
  }

  /** A unit quaternion as Unity stores a rotation. */
  datatype Quat = Quat(w: real, x: real, y: real, z: real)

  const Identity := Quat(1.0, 0.0, 0.0, 0.0)

  /** The Transform and Rigidbody of a ship: where it is, how it is turned, how it moves. */
  class Body {
    var position: Vec3
    var rotation: Quat
    var velocity: Vec3
    var angularVelocity: Vec3

    /** A body at the spawn point, at rest, unrotated. */
    constructor ()
      ensures position == Zero && rotation == Identity
      ensures velocity == Zero && angularVelocity == Zero
    {
      position := Zero;
      rotation := Identity;
      velocity := Zero;
      angularVelocity := Zero;
    }

    /** The body is at the spawn point, unrotated and at rest. */
    predicate AtSpawn()
      reads this
    {
      position == Zero && rotation == Identity && velocity == Zero && angularVelocity == Zero
    }
  }
}
