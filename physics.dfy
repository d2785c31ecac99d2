/**
 * The rigid-body world the sandbox delegates to (ReactPhysics3D), reduced to what the
 * frame loop reads and writes: each body's pose, type, box collider, linear velocity
 * and mass.  The solver is opaque: `solve(i, bodies, dt)` is the pose body i has
 * after one step of dt, given every body before the step.
 */
module Physics {
  import opened Wrappers
  import opened LinAlg

  datatype BodyType = Static | Kinematic | Dynamic

  /** A body transform: position and orientation quaternion. */
  datatype Pose = Pose(position: Vec3, orientation: Quat)

  const IdentityOrientation := Quat(1.0, 0.0, 0.0, 0.0)

  /**
   * `halfExtents` is the box collider, if one was added; `mass` is None until the
   * application sets it explicitly (the engine derives one from the colliders).
   */
  datatype RigidBody = RigidBody(pose: Pose, bodyType: BodyType, halfExtents: Option<Vec3>,
                                 linearVelocity: Vec3, mass: Option<real>)

  /** A body with the engine's creation defaults: dynamic, at rest, no collider. */
  function NewBody(pose: Pose): RigidBody {
    RigidBody(pose, Dynamic, None, Origin, None)
  }

  /** The world after one step of dt: every body takes the pose the solver gives it. */
  function Advance(solve: (nat, seq<RigidBody>, real) -> Pose, bodies: seq<RigidBody>, dt: real): (r: seq<RigidBody>)
    ensures |r| == |bodies|
    ensures forall i :: 0 <= i < |r| ==> r[i] == bodies[i].(pose := solve(i, bodies, dt))
  {
    seq(|bodies|, i requires 0 <= i < |bodies| => bodies[i].(pose := solve(i, bodies, dt)))
  }

  class World {
    /** Every body ever created, indexed by the handle createRigidBody returned. */
    var bodies: seq<RigidBody>
    /** The dt of every update() call so far, in order. */
    var steps: seq<real>
    const solve: (nat, seq<RigidBody>, real) -> Pose

    constructor (solve: (nat, seq<RigidBody>, real) -> Pose)
      ensures bodies == [] && steps == [] && this.solve == solve
    {
      bodies := [];
      steps := [];
      this.solve := solve;
    }

    method CreateRigidBody(pose: Pose) returns (h: nat)
      modifies this`bodies
      ensures h == |old(bodies)|
      ensures bodies == old(bodies) + [NewBody(pose)]
    {
      h := |bodies|;
      bodies := bodies + [NewBody(pose)];
    }

    method SetType(h: nat, t: BodyType)
      requires h < |bodies|
      modifies this`bodies
      ensures bodies == old(bodies)[h := old(bodies)[h].(bodyType := t)]
    {
      bodies := bodies[h := bodies[h].(bodyType := t)];
    }

    method AddBoxCollider(h: nat, halfExtents: Vec3)
      requires h < |bodies|
      modifies this`bodies
      ensures bodies == old(bodies)[h := old(bodies)[h].(halfExtents := Some(halfExtents))]
    {
      bodies := bodies[h := bodies[h].(halfExtents := Some(halfExtents))];
    }

    method SetLinearVelocity(h: nat, v: Vec3)
      requires h < |bodies|
      modifies this`bodies
      ensures bodies == old(bodies)[h := old(bodies)[h].(linearVelocity := v)]
    {
      bodies := bodies[h := bodies[h].(linearVelocity := v)];
    }

    method SetMass(h: nat, m: real)
      requires h < |bodies|
      modifies this`bodies
      ensures bodies == old(bodies)[h := old(bodies)[h].(mass := Some(m))]
    {
      bodies := bodies[h := bodies[h].(mass := Some(m))];
    }

    /** world->update(dt): one solver step over all bodies, logged. */
    method Update(dt: real)
      modifies this`bodies, this`steps
      ensures bodies == Advance(solve, old(bodies), dt)
      ensures steps == old(steps) + [dt]
    {
      bodies := Advance(solve, bodies, dt);
      steps := steps + [dt];
    }
  }
}
