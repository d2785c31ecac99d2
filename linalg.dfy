/**
 * The vector and matrix values the sandbox passes around (glm's vec2, vec3, vec4,
 * quat and mat4), over exact reals.  A matrix is stored column by column, as glm
 * stores it, so the fourth column `c3` is the translation column.
 */
module LinAlg {

  datatype Vec2 = Vec2(x: real, y: real)
  datatype Vec3 = Vec3(x: real, y: real, z: real)
  datatype Vec4 = Vec4(x: real, y: real, z: real, w: real)
  /** A quaternion in glm's (w, x, y, z) order. */
  datatype Quat = Quat(w: real, x: real, y: real, z: real)
  datatype Mat4 = Mat4(c0: Vec4, c1: Vec4, c2: Vec4, c3: Vec4)

  const Origin := Vec3(0.0, 0.0, 0.0)
  const Ones := Vec3(1.0, 1.0, 1.0)

  const Identity := Mat4(Vec4(1.0, 0.0, 0.0, 0.0),
                         Vec4(0.0, 1.0, 0.0, 0.0),
                         Vec4(0.0, 0.0, 1.0, 0.0),
                         Vec4(0.0, 0.0, 0.0, 1.0))

  function Add(a: Vec3, b: Vec3): Vec3 { Vec3(a.x + b.x, a.y + b.y, a.z + b.z) }
  function Sub(a: Vec3, b: Vec3): Vec3 { Vec3(a.x - b.x, a.y - b.y, a.z - b.z) }
  function Times(a: Vec3, s: real): Vec3 { Vec3(a.x * s, a.y * s, a.z * s) }
  function Neg(a: Vec3): Vec3 { Vec3(-a.x, -a.y, -a.z) }

  /** The component-wise product, which is what two successive glm::scale calls compose to. */
  function Hadamard(a: Vec3, b: Vec3): Vec3 { Vec3(a.x * b.x, a.y * b.y, a.z * b.z) }

  function Cross(a: Vec3, b: Vec3): Vec3 {
    Vec3(a.y * b.z - a.z * b.y, a.z * b.x - a.x * b.z, a.x * b.y - a.y * b.x)
  }

  function Point(v: Vec3): Vec4 { Vec4(v.x, v.y, v.z, 1.0) }
  function Times4(a: Vec4, s: real): Vec4 { Vec4(a.x * s, a.y * s, a.z * s, a.w * s) }
  function Add4(a: Vec4, b: Vec4): Vec4 { Vec4(a.x + b.x, a.y + b.y, a.z + b.z, a.w + b.w) }

  /** The xyz part of the translation column: what `glm::vec3(m[3][0], m[3][1], m[3][2])` reads. */
  function TranslationOf(m: Mat4): Vec3 { Vec3(m.c3.x, m.c3.y, m.c3.z) }

  /** glm::translate(m, v): the translation column becomes m * (v, 1); the other columns stay. */
  function Translate(m: Mat4, v: Vec3): (r: Mat4)
    ensures r.c0 == m.c0 && r.c1 == m.c1 && r.c2 == m.c2
  {
    m.(c3 := Add4(Add4(Add4(Times4(m.c0, v.x), Times4(m.c1, v.y)), Times4(m.c2, v.z)), m.c3))
  }

  /** glm::scale(m, v): post-multiplies columns 0, 1 and 2 by v.x, v.y, v.z; column 3 is untouched. */
  function Scale(m: Mat4, v: Vec3): (r: Mat4)
    ensures r.c3 == m.c3
  {
    Mat4(Times4(m.c0, v.x), Times4(m.c1, v.y), Times4(m.c2, v.z), m.c3)
  }

  /** Translating the identity puts the offset, as a point, into the translation column. */
  lemma TranslateIdentity(v: Vec3)
    ensures Translate(Identity, v) == Identity.(c3 := Point(v))
  {
  }

  /** Two scalings compound: scaling by a and then by b is scaling by their component-wise product. */
  lemma ScaleCompose(m: Mat4, a: Vec3, b: Vec3)
    ensures Scale(Scale(m, a), b) == Scale(m, Hadamard(a, b))
  {
    var h := Hadamard(a, b);
    ScaleColumn(m.c0, a.x, b.x, h.x);
    ScaleColumn(m.c1, a.y, b.y, h.y);
    ScaleColumn(m.c2, a.z, b.z, h.z);
  }

  lemma ScaleColumn(c: Vec4, p: real, q: real, pq: real)
    requires pq == p * q
    ensures Times4(Times4(c, p), q) == Times4(c, pq)
  {
    assert (c.x * p) * q == c.x * (p * q);
    assert (c.y * p) * q == c.y * (p * q);
    assert (c.z * p) * q == c.z * (p * q);
    assert (c.w * p) * q == c.w * (p * q);
  }

  /**
   * The numerics the sandbox takes from glm and the C library and that this model
   * leaves opaque: normalisation and vector length (square roots), the quaternion to
   * rotation-matrix conversion, sine and cosine of an angle in degrees, and the
   * projection and view matrix builders.
   */
  datatype FloatOps = FloatOps(
    normalize: Vec3 -> Vec3,
    length: Vec4 -> real,
    rotationOf: Quat -> Mat4,
    sinDeg: real -> real,
    cosDeg: real -> real,
    perspective: (real, real, real, real) -> Mat4,
    lookAt: (Vec3, Vec3, Vec3) -> Mat4)
}
