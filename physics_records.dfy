/** The plain records the physics setup builds: material coefficients and
    the per-body data the contact callbacks read. */
module PhysicsRecords {

  /** `MaterialProperties`: the friction and restitution of a physics
      material, and whether the shape is a trigger (false unless set). */
  datatype MaterialProperties = MaterialProperties(
    staticFriction: real,
    dynamicFriction: real,
    restitution: real,
    isTrigger: bool)

  /** The record built when only the three coefficients are given. */
  function Material(staticFriction: real, dynamicFriction: real, restitution: real): (m: MaterialProperties)
    ensures !m.isTrigger
    ensures m.staticFriction == staticFriction && m.dynamicFriction == dynamicFriction
    ensures m.restitution == restitution
  {
    MaterialProperties(staticFriction, dynamicFriction, restitution, false)
  }

  /** `PhysicsData`: the record attached to a physics body for the contact
      callbacks. The owner pointer is an opaque handle. */
  datatype PhysicsData = PhysicsData(
    owner: nat,
    isGround: bool,
    isDynamic: bool,
    isCoin: bool,
    isPiston: bool)
}
