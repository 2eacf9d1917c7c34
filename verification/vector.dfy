/** The 2-, 3- and 4-component vector kernel (vector.c). Components are reals; the C float arrays
    become immutable records, and an operation called in place (out == input) is `x := F(x, ...)`. */
module Vector {
  import opened Util

  datatype Vec2 = Vec2(x: real, y: real)
  datatype Vec3 = Vec3(x: real, y: real, z: real)
  datatype Vec4 = Vec4(x: real, y: real, z: real, w: real)

  /* ---------------- Vector2 ---------------- */

  function Vec2Fill(value: real): Vec2 {
    Vec2(value, value)
  }

  /** Vec2Identity fills with zero. */
  function Vec2Identity(): Vec2 {
    Vec2Fill(0.0)
  }

  function Vec2Add(v1: Vec2, v2: Vec2): Vec2 {
    Vec2(v1.x + v2.x, v1.y + v2.y)
  }

  function Vec2Subtract(v1: Vec2, v2: Vec2): Vec2 {
    Vec2(v1.x - v2.x, v1.y - v2.y)
  }

  function Vec2Scalar(v: Vec2, scalar: real): Vec2 {
    Vec2(v.x * scalar, v.y * scalar)
  }

  function Vec2Dot(v1: Vec2, v2: Vec2): real {
    v1.x * v2.x + v1.y * v2.y
  }

  function Vec2Length(v: Vec2, m: Libm): real {
    m.sqrt(Vec2Dot(v, v))
  }

  /** Vec2Normalize divides by the length without checking it, so a zero length is excluded. */
  function Vec2Normalize(v: Vec2, m: Libm): (r: Vec2)
    requires Vec2Length(v, m) != 0.0
    ensures Vec2Scalar(r, Vec2Length(v, m)) == v
  {
    var len := Vec2Length(v, m);
    Vec2(v.x / len, v.y / len)
  }

  /* ---------------- Vector3 ---------------- */

  function Vec3Fill(value: real): (r: Vec3)
    ensures r.x == value && r.y == value && r.z == value
    ensures r == Vec3Scalar(Vec3(1.0, 1.0, 1.0), value)
  {
    Vec3(value, value, value)
  }

  /** Vec3Identity fills with zero. */
  function Vec3Identity(): Vec3 {
    Vec3Fill(0.0)
  }

  function Vec3Add(v1: Vec3, v2: Vec3): Vec3 {
    Vec3(v1.x + v2.x, v1.y + v2.y, v1.z + v2.z)
  }

  function Vec3Subtract(v1: Vec3, v2: Vec3): Vec3 {
    Vec3(v1.x - v2.x, v1.y - v2.y, v1.z - v2.z)
  }

  function Vec3Scalar(v: Vec3, scalar: real): Vec3 {
    Vec3(v.x * scalar, v.y * scalar, v.z * scalar)
  }

  function Vec3Dot(v1: Vec3, v2: Vec3): real {
    v1.x * v2.x + v1.y * v2.y + v1.z * v2.z
  }

  /** The cyclic cross product; the C code builds it in a temporary, so the result depends only
      on the values of the inputs even when `out` is one of them. */
  function Vec3Cross(v1: Vec3, v2: Vec3): Vec3 {
    Vec3(v1.y * v2.z - v1.z * v2.y,
         v1.z * v2.x - v1.x * v2.z,
         v1.x * v2.y - v1.y * v2.x)
  }

  /** Vec3Divide has no zero check of its own; its callers guard the divisor. */
  function Vec3Divide(v: Vec3, scalar: real): (r: Vec3)
    requires scalar != 0.0
    ensures Vec3Scalar(r, scalar) == v
  {
    Vec3(v.x / scalar, v.y / scalar, v.z / scalar)
  }

  function Vec3Length(v: Vec3, m: Libm): real {
    m.sqrt(Vec3Dot(v, v))
  }

  /** Vec3Normalize writes out = v / length, except that a zero length returns before any write,
      leaving whatever `out` held. */
  function Vec3Normalize(out: Vec3, v: Vec3, m: Libm): (r: Vec3)
    ensures Vec3Length(v, m) == 0.0 ==> r == out
    ensures Vec3Length(v, m) != 0.0 ==> Vec3Scalar(r, Vec3Length(v, m)) == v
  {
    var len := Vec3Length(v, m);
    if len == 0.0 then out else Vec3Divide(v, len)
  }

  /* ---------------- Vector4 ---------------- */

  function Vec4Fill(value: real): Vec4 {
    Vec4(value, value, value, value)
  }

  /** Vec4Identity: zero x, y, z and w = 1. */
  function Vec4Identity(): (r: Vec4)
    ensures r.x == 0.0 && r.y == 0.0 && r.z == 0.0 && r.w == 1.0
    ensures Vec4MakeWFirst(r) == Vec4(1.0, 0.0, 0.0, 0.0)
  {
    Vec4(0.0, 0.0, 0.0, 1.0)
  }

  /** Moves the last component to the front (through a temporary, so in place is safe). */
  function Vec4MakeWFirst(v: Vec4): Vec4 {
    Vec4(v.w, v.x, v.y, v.z)
  }

  /** Moves the first component to the back. */
  function Vec4MakeWLast(v: Vec4): Vec4 {
    Vec4(v.y, v.z, v.w, v.x)
  }

  /* ---------------- Laws ---------------- */

  /** Subtraction undoes addition, componentwise. */
  lemma AddSubtractInverse(a: Vec3, b: Vec3)
    ensures Vec3Subtract(Vec3Add(a, b), b) == a
    ensures Vec3Add(Vec3Subtract(a, b), b) == a
  {}

  lemma DotSymmetric(a: Vec3, b: Vec3)
    ensures Vec3Dot(a, b) == Vec3Dot(b, a)
  {}

  /** cross(a, b) = -cross(b, a), cross(a, a) = 0, and cross(a, b) is orthogonal to a and b. */
  lemma CrossLaws(a: Vec3, b: Vec3)
    ensures Vec3Cross(a, b) == Vec3Scalar(Vec3Cross(b, a), -1.0)
    ensures Vec3Cross(a, a) == Vec3Identity()
    ensures Vec3Dot(Vec3Cross(a, b), a) == 0.0
    ensures Vec3Dot(Vec3Cross(a, b), b) == 0.0
  {}

  /** Dividing by s is scaling by 1/s. */
  lemma DivideIsScaleByReciprocal(v: Vec3, s: real)
    requires s != 0.0
    ensures Vec3Divide(v, s) == Vec3Scalar(v, 1.0 / s)
  {}

  /** MakeWFirst and MakeWLast undo each other. */
  lemma MakeWFirstLastInverse(v: Vec4)
    ensures Vec4MakeWLast(Vec4MakeWFirst(v)) == v
    ensures Vec4MakeWFirst(Vec4MakeWLast(v)) == v
  {}
}
