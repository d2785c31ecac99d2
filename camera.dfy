/**
 * The first-person camera: position and orientation, the field of view, the key
 * flags and mouse record the window callbacks write, and the projection and view
 * matrices.  Normalisation, cross-product normalisation, sine and cosine, and the
 * perspective and look-at builders are the opaque operations of FloatOps.
 */
module Camera {
  import opened LinAlg

  /** The movement keys currently held. */
  datatype Keys = Keys(forward: bool, back: bool, left: bool, right: bool, shift: bool, space: bool)

  const NoKeys := Keys(false, false, false, false, false, false)

  /** The mouse record: cursor bookkeeping and the offsets of the last motion event. */
  datatype Mouse = Mouse(x: real, y: real, lastX: real, lastY: real, xoffset: real, yoffset: real,
                         firstMouse: bool, sensitivity: real)

  const InitialMouse := Mouse(0.0, 0.0, 0.0, 0.0, 0.0, 0.0, true, 0.1)

  datatype Matrices = Matrices(projection: Mat4, view: Mat4)

  const MinFov := 10.0
  const MaxFov := 145.0
  const MaxPitch := 89.0
  /** The aspect ratio updateFOV always uses, whatever the window size. */
  const FixedAspect := 1920.0 / 1080.0

  /** v limited to [lo, hi]: first raised to lo if below it, then lowered to hi if above it. */
  function Clamp(v: real, lo: real, hi: real): (r: real)
    requires lo <= hi
    ensures lo <= r <= hi
    ensures lo <= v <= hi ==> r == v
    ensures v < lo ==> r == lo
    ensures v > hi ==> r == hi
  {
    var raised := if v < lo then lo else v;
    if raised > hi then hi else raised
  }

  /** Clamping twice is clamping once. */
  lemma ClampIdempotent(v: real, lo: real, hi: real)
    requires lo <= hi
    ensures Clamp(Clamp(v, lo, hi), lo, hi) == Clamp(v, lo, hi)
  {
  }

  /** The projection with its y axis flipped, as setPerspective stores it. */
  function FlipY(m: Mat4): (r: Mat4)
    ensures r.c0 == m.c0 && r.c2 == m.c2 && r.c3 == m.c3
    ensures r.c1 == m.c1.(y := -m.c1.y)
  {
    m.(c1 := m.c1.(y := -m.c1.y))
  }

  /** Flipping twice restores the matrix. */
  lemma FlipYInvolution(m: Mat4)
    ensures FlipY(FlipY(m)) == m
  {
  }

  /** +1 when only `plus` is held, -1 when only `minus` is, 0 when both or neither are. */
  function Axis(plus: bool, minus: bool): (r: real)
    ensures plus == minus ==> r == 0.0
    ensures plus && !minus ==> r == 1.0
    ensures minus && !plus ==> r == -1.0
  {
    (if plus then 1.0 else 0.0) - (if minus then 1.0 else 0.0)
  }

  /**
   * Where the held keys move the camera in one update, given the three displacement
   * vectors a single key contributes: front, right and up, each already multiplied
   * by the frame's velocity.
   */
  function Displacement(k: Keys, front: Vec3, right: Vec3, up: Vec3): Vec3 {
    Add(Add(Times(front, Axis(k.forward, k.back)), Times(right, Axis(k.right, k.left))),
        Times(up, Axis(k.space, k.shift)))
  }

  /**
   * The motion of one camera update over `timeDelta` seconds at `movementSpeed`: the key
   * displacement along the front vector, the normalised right vector front x up, and the
   * up vector, each scaled by the velocity movementSpeed * timeDelta.
   */
  function KeyMotion(ops: FloatOps, k: Keys, front: Vec3, up: Vec3, movementSpeed: real, timeDelta: real): Vec3 {
    var velocity := movementSpeed * timeDelta;
    Displacement(k, Times(front, velocity), Times(ops.normalize(Cross(front, up)), velocity), Times(up, velocity))
  }

  /** One pair of opposite keys, applied in either order, moves by `d` times their axis value. */
  lemma PairStep(p: Vec3, q: Vec3, d: Vec3, plus: bool, minus: bool)
    requires q == Sub(Add(p, if plus then d else Origin), if minus then d else Origin)
    ensures q == Add(p, Times(d, Axis(plus, minus)))
  {
    if plus && minus {
      assert Axis(plus, minus) == 0.0;
    } else if plus {
      assert Axis(plus, minus) == 1.0;
    } else if minus {
      assert Axis(plus, minus) == -1.0;
    } else {
      assert Axis(plus, minus) == 0.0;
    }
  }

  lemma AddThree(p: Vec3, a: Vec3, b: Vec3, c: Vec3)
    ensures Add(Add(Add(p, a), b), c) == Add(p, Add(Add(a, b), c))
  {
  }

  /** With no key held the camera does not move. */
  lemma NoKeysNoMovement(front: Vec3, right: Vec3, up: Vec3)
    ensures Displacement(NoKeys, front, right, up) == Origin
  {
  }

  /** Holding forward and back together cancels out along the view axis. */
  lemma ForwardBackCancel(k: Keys, front: Vec3, right: Vec3, up: Vec3)
    requires k.forward && k.back
    ensures Displacement(k, front, right, up) == Displacement(k.(forward := false, back := false), front, right, up)
  {
  }

  /** The view direction for the given yaw and pitch, in degrees. */
  function Direction(ops: FloatOps, yaw: real, pitch: real): Vec3 {
    Vec3(ops.cosDeg(yaw) * ops.cosDeg(pitch), ops.sinDeg(pitch), ops.sinDeg(yaw) * ops.cosDeg(pitch))
  }

  class FPSCamera {
    var pitch: real
    var yaw: real
    var cameraDirection: Vec3
    var znear: real
    var zfar: real
    var cameraPos: Vec3
    var cameraFront: Vec3
    var cameraUp: Vec3
    var fov: real
    var matrices: Matrices
    var mouse: Mouse
    var keys: Keys
    const ops: FloatOps

    /** The view matrix derived from the current position, target and up vector. */
    ghost predicate ViewCurrent()
      reads this
    {
      matrices.view == ops.lookAt(cameraPos, Add(cameraPos, cameraFront), cameraUp)
    }

    /** The member initialisers, then the first view matrix. */
    constructor (ops: FloatOps)
      ensures this.ops == ops
      ensures pitch == 0.0 && yaw == -90.0 && cameraDirection == Origin
      ensures cameraPos == Vec3(0.0, 2.0, 3.0) && cameraFront == Vec3(0.0, 0.0, -1.0) && cameraUp == Vec3(0.0, 1.0, 0.0)
      ensures mouse == InitialMouse && keys == NoKeys
      ensures fov == 0.0 && znear == 0.0 && zfar == 0.0 && matrices.projection == Identity
      ensures ViewCurrent()
    {
      this.ops := ops;
      pitch, yaw := 0.0, -90.0;
      cameraDirection := Origin;
      cameraPos, cameraFront, cameraUp := Vec3(0.0, 2.0, 3.0), Vec3(0.0, 0.0, -1.0), Vec3(0.0, 1.0, 0.0);
      fov, znear, zfar := 0.0, 0.0, 0.0;
      mouse, keys := InitialMouse, NoKeys;
      matrices := Matrices(Identity, Identity);
      new;
      matrices := matrices.(view := ops.lookAt(cameraPos, GetCameraTarget(), cameraUp));
    }

    /** The point the camera looks at: one front vector ahead of its position. */
    function GetCameraTarget(): (t: Vec3)
      reads this
      ensures Sub(t, cameraPos) == cameraFront
    {
      Add(cameraPos, cameraFront)
    }

    function GetCameraDirection(): (d: Vec3)
      reads this
      ensures d == cameraDirection
    {
      cameraDirection
    }

    /**
     * A point ahead of the camera target: `distance` along the normalised direction,
     * `xOffset` along the normalised right vector and `yOffset` along the up vector.
     */
    function GetSpawnPositionInFront(distance: real, xOffset: real, yOffset: real): (p: Vec3)
      reads this
      ensures Sub(p, GetCameraTarget()) ==
        Add(Add(Times(SpawnForward(), distance), Times(SpawnRight(), xOffset)), Times(cameraUp, yOffset))
    {
      var forward := ops.normalize(cameraDirection);
      var right := ops.normalize(Cross(cameraUp, forward));
      Add(Add(Add(GetCameraTarget(), Times(forward, distance)), Times(right, xOffset)), Times(cameraUp, yOffset))
    }

    /** The unit vector along the camera direction that the spawn point moves along. */
    function SpawnForward(): Vec3
      reads this
    {
      ops.normalize(cameraDirection)
    }

    /** The unit vector perpendicular to the up vector and `SpawnForward`. */
    function SpawnRight(): Vec3
      reads this
    {
      ops.normalize(Cross(cameraUp, SpawnForward()))
    }

    /** Record the field of view and clip planes and rebuild the y-flipped projection. */
    method SetPerspective(fov: real, aspect: real, znear: real, zfar: real)
      modifies this`fov, this`znear, this`zfar, this`matrices
      ensures this.fov == fov && this.znear == znear && this.zfar == zfar
      ensures matrices == old(matrices).(projection := FlipY(ops.perspective(fov, aspect, znear, zfar)))
    {
      this.fov := fov;
      this.znear := znear;
      this.zfar := zfar;
      var p := ops.perspective(fov, aspect, znear, zfar);
      matrices := matrices.(projection := p);
      matrices := matrices.(projection := matrices.projection.(c1 := matrices.projection.c1.(y := matrices.projection.c1.y * -1.0)));
    }

    /**
     * Move the camera by `movementSpeed * timeDelta` along the front vector, the
     * normalised right vector and the up vector, once for each held key, with
     * opposite keys subtracting; then rebuild the view.
     */
    method UpdateCameraPos(timeDelta: real, movementSpeed: real)
      modifies this`cameraPos, this`matrices
      ensures ViewCurrent() && matrices.projection == old(matrices.projection)
      ensures cameraPos == Add(old(cameraPos), KeyMotion(ops, keys, cameraFront, cameraUp, movementSpeed, timeDelta))
    {
      var velocity := movementSpeed * timeDelta;
      Move(Times(cameraFront, velocity), Times(ops.normalize(Cross(cameraFront, cameraUp)), velocity),
           Times(cameraUp, velocity));
      matrices := matrices.(view := ops.lookAt(cameraPos, GetCameraTarget(), cameraUp));
    }

    /** Move by d if `plus` is held, then back by d if `minus` is held. */
    method AddThenSub(d: Vec3, plus: bool, minus: bool)
      modifies this`cameraPos
      ensures cameraPos == Add(old(cameraPos), Times(d, Axis(plus, minus)))
    {
      ghost var p := cameraPos;
      if plus {
        cameraPos := Add(cameraPos, d);
      }
      if minus {
        cameraPos := Sub(cameraPos, d);
      }
      PairStep(p, cameraPos, d, plus, minus);
    }

    /** Move back by d if `minus` is held, then by d if `plus` is held. */
    method SubThenAdd(d: Vec3, minus: bool, plus: bool)
      modifies this`cameraPos
      ensures cameraPos == Add(old(cameraPos), Times(d, Axis(plus, minus)))
    {
      ghost var p := cameraPos;
      if minus {
        cameraPos := Sub(cameraPos, d);
      }
      if plus {
        cameraPos := Add(cameraPos, d);
      }
      PairStep(p, cameraPos, d, plus, minus);
    }

    /** The six key tests of updateCameraPos, each moving by its own displacement vector. */
    method Move(df: Vec3, dr: Vec3, du: Vec3)
      modifies this`cameraPos
      ensures cameraPos == Add(old(cameraPos), Displacement(keys, df, dr, du))
    {
      ghost var p0 := cameraPos;
      AddThenSub(df, keys.forward, keys.back);
      SubThenAdd(dr, keys.left, keys.right);
      SubThenAdd(du, keys.shift, keys.space);
      AddThree(p0, Times(df, Axis(keys.forward, keys.back)), Times(dr, Axis(keys.right, keys.left)),
               Times(du, Axis(keys.space, keys.shift)));
    }

    /**
     * Apply the last mouse offsets: pitch goes down by the y offset and is clamped to
     * [-89, 89], yaw goes up by the x offset without a clamp; the direction is
     * rebuilt from the two angles and the front vector is its normalisation.
     */
    method UpdateCameraDirection()
      modifies this`pitch, this`yaw, this`cameraDirection, this`cameraFront, this`matrices
      ensures pitch == Clamp(old(pitch) - mouse.yoffset, -MaxPitch, MaxPitch)
      ensures -MaxPitch <= pitch <= MaxPitch
      ensures yaw == old(yaw) + mouse.xoffset
      ensures cameraDirection == Direction(ops, yaw, pitch)
      ensures cameraFront == ops.normalize(cameraDirection)
      ensures ViewCurrent() && matrices.projection == old(matrices.projection)
    {
      pitch := pitch - mouse.yoffset;
      yaw := yaw + mouse.xoffset;
      if pitch > 89.0 {
        pitch := 89.0;
      }
      if pitch < -89.0 {
        pitch := -89.0;
      }
      cameraDirection := Direction(ops, yaw, pitch);
      cameraFront := ops.normalize(cameraDirection);
      matrices := matrices.(view := ops.lookAt(cameraPos, GetCameraTarget(), cameraUp));
    }

    /**
     * Change the field of view by `inc`, clamp it to [10, 145] and rebuild the
     * projection with the fixed 1920:1080 aspect and the stored clip planes.
     */
    method UpdateFOV(inc: real)
      modifies this`fov, this`znear, this`zfar, this`matrices
      ensures znear == old(znear) && zfar == old(zfar)
      ensures fov == Clamp(old(fov) + inc, MinFov, MaxFov)
      ensures MinFov <= fov <= MaxFov
      ensures matrices == old(matrices).(projection := FlipY(ops.perspective(fov, FixedAspect, znear, zfar)))
    {
      fov := fov + inc;
      if fov < 10.0 {
        fov := 10.0;
      }
      if fov > 145.0 {
        fov := 145.0;
      }
      SetPerspective(fov, 1920.0 / 1080.0, znear, zfar);
    }
  }

  /** With no distance and no offsets the spawn point is the camera target. */
  lemma SpawnAtTarget(c: FPSCamera)
    ensures c.GetSpawnPositionInFront(0.0, 0.0, 0.0) == c.GetCameraTarget()
  {
    assert Times(c.SpawnForward(), 0.0) == Origin && Times(c.SpawnRight(), 0.0) == Origin && Times(c.cameraUp, 0.0) == Origin;
  }

  /**
   * The spawn point moves linearly with each argument: adding `dd` to the distance,
   * `dx` to the right offset or `dy` to the up offset moves it by that much along
   * the forward, right or up vector.
   */
  lemma SpawnLinear(c: FPSCamera, d: real, x: real, y: real, dd: real, dx: real, dy: real)
    ensures c.GetSpawnPositionInFront(d + dd, x + dx, y + dy) ==
      Add(c.GetSpawnPositionInFront(d, x, y),
          Add(Add(Times(c.SpawnForward(), dd), Times(c.SpawnRight(), dx)), Times(c.cameraUp, dy)))
  {
  }
}
