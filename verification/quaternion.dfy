/** The quaternion kernel (quaternion.c). Components are stored x, y, z, w: the scalar part is the
    last element. */
module Quaternion {
  import opened Util
  import opened Vector

  datatype Quat = Quat(x: real, y: real, z: real, w: real)

  /** The vector part (x, y, z), the first three elements the kernel hands to the Vec3 routines. */
  function VectorPart(q: Quat): Vec3 {
    Vec3(q.x, q.y, q.z)
  }

  /** A pure quaternion (v, 0). */
  function Pure(v: Vec3): Quat {
    Quat(v.x, v.y, v.z, 0.0)
  }

  function Conjugate(q: Quat): Quat {
    Quat(-q.x, -q.y, -q.z, q.w)
  }

  function NormSquared(q: Quat): real {
    q.x * q.x + q.y * q.y + q.z * q.z + q.w * q.w
  }

  /** QuaternionIdentity: zero vector part, w = 1. */
  function QuaternionIdentity(): (r: Quat)
    ensures VectorPart(r) == Vec3Identity() && r.w == 1.0
  {
    Quat(0.0, 0.0, 0.0, 1.0)
  }

  /** QuaternionMult: the Hamilton product q1 q2, computed through a temporary. */
  function QuaternionMult(q1: Quat, q2: Quat): Quat {
    Quat(q1.w * q2.x + q1.x * q2.w + q1.y * q2.z - q1.z * q2.y,
         q1.w * q2.y - q1.x * q2.z + q1.y * q2.w + q1.z * q2.x,
         q1.w * q2.z + q1.x * q2.y - q1.y * q2.x + q1.z * q2.w,
         q1.w * q2.w - q1.x * q2.x - q1.y * q2.y - q1.z * q2.z)
  }

  /** QuaternionVec3Rotation: 2 (u.v) u + (w^2 - u.u) v + 2 w (u x v), where u is the vector part
      of q; the three terms are the kernel's temporaries, summed componentwise. */
  function QuaternionVec3Rotation(v: Vec3, q: Quat): Vec3 {
    var qDotV := q.x * v.x + q.y * v.y + q.z * v.z;
    var qDotQ := q.x * q.x + q.y * q.y + q.z * q.z;
    var s := q.w * q.w - qDotQ;
    Vec3(q.x * (2.0 * qDotV) + v.x * s + (q.y * v.z - q.z * v.y) * (2.0 * q.w),
         q.y * (2.0 * qDotV) + v.y * s + (q.z * v.x - q.x * v.z) * (2.0 * q.w),
         q.z * (2.0 * qDotV) + v.z * s + (q.x * v.y - q.y * v.x) * (2.0 * q.w))
  }

  /** QuaternionNormalize(out, q): the length is taken from `out`, but it is `q` that is divided.
      Every caller inside the kernel passes the same array twice; the Python binding does not. */
  function QuaternionNormalize(out: Quat, q: Quat, m: Libm): (r: Quat)
    requires m.sqrt(NormSquared(out)) != 0.0
    ensures var len := m.sqrt(NormSquared(out));
            Quat(r.x * len, r.y * len, r.z * len, r.w * len) == q
  {
    var len := m.sqrt(NormSquared(out));
    Quat(q.x / len, q.y / len, q.z / len, q.w / len)
  }

  /** The quaternion QuaternionFromAxisAngle builds before normalizing it in place: the axis scaled
      by sin(a/2) and w = cos(a/2), where a is the angle in degrees converted to radians. */
  function AxisAngleRaw(x: real, y: real, z: real, degrees: real, m: Libm): Quat {
    var a := degrees * DegToRad;
    var fac := m.sin(a / 2.0);
    Quat(x * fac, y * fac, z * fac, m.cos(a / 2.0))
  }

  /** QuaternionFromAxisAngle: the raw axis-angle quaternion divided by its own length. */
  function QuaternionFromAxisAngle(x: real, y: real, z: real, degrees: real, m: Libm): (r: Quat)
    requires m.sqrt(NormSquared(AxisAngleRaw(x, y, z, degrees, m))) != 0.0
    ensures var raw := AxisAngleRaw(x, y, z, degrees, m);
            var len := m.sqrt(NormSquared(raw));
            Quat(r.x * len, r.y * len, r.z * len, r.w * len) == raw
  {
    var raw := AxisAngleRaw(x, y, z, degrees, m);
    QuaternionNormalize(raw, raw, m)
  }

  /* ---------------- Laws ---------------- */

  /** The identity is a two-sided unit of the product. */
  lemma MultIdentity(q: Quat)
    ensures QuaternionMult(QuaternionIdentity(), q) == q
    ensures QuaternionMult(q, QuaternionIdentity()) == q
  {}

  /** Swapping the factors keeps the scalar part and moves the vector part by twice the cross
      product of the vector parts, so the product commutes exactly when the vector parts are
      parallel. */
  lemma MultCommutator(a: Quat, b: Quat)
    ensures QuaternionMult(a, b).w == QuaternionMult(b, a).w
    ensures VectorPart(QuaternionMult(a, b))
         == Vec3Add(VectorPart(QuaternionMult(b, a)), Vec3Scalar(Vec3Cross(VectorPart(a), VectorPart(b)), 2.0))
  {
    CommutatorX(a, b);
    CommutatorY(a, b);
    CommutatorZ(a, b);
    CommutatorW(a, b);
    ShiftedByCross(VectorPart(QuaternionMult(b, a)), VectorPart(a), VectorPart(b), VectorPart(QuaternionMult(a, b)));
  }

  lemma ShiftedByCross(u: Vec3, a: Vec3, b: Vec3, w: Vec3)
    requires w.x == u.x + (a.y * b.z - a.z * b.y) * 2.0
    requires w.y == u.y + (a.z * b.x - a.x * b.z) * 2.0
    requires w.z == u.z + (a.x * b.y - a.y * b.x) * 2.0
    ensures w == Vec3Add(u, Vec3Scalar(Vec3Cross(a, b), 2.0))
  {}

  lemma CommutatorW(a: Quat, b: Quat)
    ensures QuaternionMult(a, b).w == QuaternionMult(b, a).w
  {}

  lemma CommutatorX(a: Quat, b: Quat)
    ensures QuaternionMult(a, b).x == QuaternionMult(b, a).x + (a.y * b.z - a.z * b.y) * 2.0
  {}

  lemma CommutatorY(a: Quat, b: Quat)
    ensures QuaternionMult(a, b).y == QuaternionMult(b, a).y + (a.z * b.x - a.x * b.z) * 2.0
  {}

  lemma CommutatorZ(a: Quat, b: Quat)
    ensures QuaternionMult(a, b).z == QuaternionMult(b, a).z + (a.x * b.y - a.y * b.x) * 2.0
  {}

  /** The squared norm is multiplicative. */
  lemma NormMultiplicative(a: Quat, b: Quat)
    ensures NormSquared(QuaternionMult(a, b)) == NormSquared(a) * NormSquared(b)
  {
    var ab := QuaternionMult(a, b);
    NormOfProduct(a.x, a.y, a.z, a.w, b.x, b.y, b.z, b.w, ab.x, ab.y, ab.z, ab.w);
  }

  /** The closed form agrees with the sandwich product q (v, 0) q*, for every q (unit or not). */
  lemma RotationIsSandwich(v: Vec3, q: Quat)
    ensures Pure(QuaternionVec3Rotation(v, q)) == QuaternionMult(QuaternionMult(q, Pure(v)), Conjugate(q))
  {
    SandwichX(v, q);
    SandwichY(v, q);
    SandwichZ(v, q);
    SandwichW(v, q);
  }

  lemma SandwichX(v: Vec3, q: Quat)
    ensures QuaternionVec3Rotation(v, q).x == QuaternionMult(QuaternionMult(q, Pure(v)), Conjugate(q)).x
  {
    var p, c := Pure(v), Conjugate(q);
    var t := QuaternionMult(q, p);
    var s := QuaternionMult(t, c);
    var r := QuaternionVec3Rotation(v, q);
    Sandwich0(v.x, v.y, v.z, q.x, q.y, q.z, q.w, p.x, p.y, p.z, p.w, t.x, t.y, t.z, t.w, c.x, c.y, c.z, c.w, s.x, r.x);
  }

  lemma SandwichY(v: Vec3, q: Quat)
    ensures QuaternionVec3Rotation(v, q).y == QuaternionMult(QuaternionMult(q, Pure(v)), Conjugate(q)).y
  {
    var p, c := Pure(v), Conjugate(q);
    var t := QuaternionMult(q, p);
    var s := QuaternionMult(t, c);
    var r := QuaternionVec3Rotation(v, q);
    Sandwich1(v.x, v.y, v.z, q.x, q.y, q.z, q.w, p.x, p.y, p.z, p.w, t.x, t.y, t.z, t.w, c.x, c.y, c.z, c.w, s.y, r.y);
  }

  lemma SandwichZ(v: Vec3, q: Quat)
    ensures QuaternionVec3Rotation(v, q).z == QuaternionMult(QuaternionMult(q, Pure(v)), Conjugate(q)).z
  {
    var p, c := Pure(v), Conjugate(q);
    var t := QuaternionMult(q, p);
    var s := QuaternionMult(t, c);
    var r := QuaternionVec3Rotation(v, q);
    Sandwich2(v.x, v.y, v.z, q.x, q.y, q.z, q.w, p.x, p.y, p.z, p.w, t.x, t.y, t.z, t.w, c.x, c.y, c.z, c.w, s.z, r.z);
  }

  lemma SandwichW(v: Vec3, q: Quat)
    ensures QuaternionMult(QuaternionMult(q, Pure(v)), Conjugate(q)).w == 0.0
  {
    var p, c := Pure(v), Conjugate(q);
    var t := QuaternionMult(q, p);
    var s := QuaternionMult(t, c);
    var r := QuaternionVec3Rotation(v, q);
    SandwichScalar(v.x, v.y, v.z, q.x, q.y, q.z, q.w, p.x, p.y, p.z, p.w, t.x, t.y, t.z, t.w, c.x, c.y, c.z, c.w, s.w);
  }

  /* The polynomial identities behind the laws above, over the components as separate reals. */

  lemma NormOfProduct(a0: real, a1: real, a2: real, a3: real, b0: real, b1: real, b2: real, b3: real, p0: real, p1: real, p2: real, p3: real)
    requires p0 == a3 * b0 + a0 * b3 + a1 * b2 - a2 * b1
    requires p1 == a3 * b1 - a0 * b2 + a1 * b3 + a2 * b0
    requires p2 == a3 * b2 + a0 * b1 - a1 * b0 + a2 * b3
    requires p3 == a3 * b3 - a0 * b0 - a1 * b1 - a2 * b2
    ensures p0 * p0 + p1 * p1 + p2 * p2 + p3 * p3
         == (a0 * a0 + a1 * a1 + a2 * a2 + a3 * a3) * (b0 * b0 + b1 * b1 + b2 * b2 + b3 * b3)
  {}

  lemma Sandwich0(v0: real, v1: real, v2: real, q0: real, q1: real, q2: real, q3: real, p0: real, p1: real, p2: real, p3: real, t0: real, t1: real, t2: real, t3: real, c0: real, c1: real, c2: real, c3: real, s: real, r: real)
    requires p0 == v0 && p1 == v1 && p2 == v2 && p3 == 0.0
    requires c0 == -q0 && c1 == -q1 && c2 == -q2 && c3 == q3
    requires t0 == q3 * p0 + q0 * p3 + q1 * p2 - q2 * p1
    requires t1 == q3 * p1 - q0 * p2 + q1 * p3 + q2 * p0
    requires t2 == q3 * p2 + q0 * p1 - q1 * p0 + q2 * p3
    requires t3 == q3 * p3 - q0 * p0 - q1 * p1 - q2 * p2
    requires s == t3 * c0 + t0 * c3 + t1 * c2 - t2 * c1
    requires r == q0 * (2.0 * (q0 * v0 + q1 * v1 + q2 * v2)) + v0 * (q3 * q3 - (q0 * q0 + q1 * q1 + q2 * q2)) + (q1 * v2 - q2 * v1) * (2.0 * q3)
    ensures r == s
  {}

  lemma Sandwich1(v0: real, v1: real, v2: real, q0: real, q1: real, q2: real, q3: real, p0: real, p1: real, p2: real, p3: real, t0: real, t1: real, t2: real, t3: real, c0: real, c1: real, c2: real, c3: real, s: real, r: real)
    requires p0 == v0 && p1 == v1 && p2 == v2 && p3 == 0.0
    requires c0 == -q0 && c1 == -q1 && c2 == -q2 && c3 == q3
    requires t0 == q3 * p0 + q0 * p3 + q1 * p2 - q2 * p1
    requires t1 == q3 * p1 - q0 * p2 + q1 * p3 + q2 * p0
    requires t2 == q3 * p2 + q0 * p1 - q1 * p0 + q2 * p3
    requires t3 == q3 * p3 - q0 * p0 - q1 * p1 - q2 * p2
    requires s == t3 * c1 - t0 * c2 + t1 * c3 + t2 * c0
    requires r == q1 * (2.0 * (q0 * v0 + q1 * v1 + q2 * v2)) + v1 * (q3 * q3 - (q0 * q0 + q1 * q1 + q2 * q2)) + (q2 * v0 - q0 * v2) * (2.0 * q3)
    ensures r == s
  {}

  lemma Sandwich2(v0: real, v1: real, v2: real, q0: real, q1: real, q2: real, q3: real, p0: real, p1: real, p2: real, p3: real, t0: real, t1: real, t2: real, t3: real, c0: real, c1: real, c2: real, c3: real, s: real, r: real)
    requires p0 == v0 && p1 == v1 && p2 == v2 && p3 == 0.0
    requires c0 == -q0 && c1 == -q1 && c2 == -q2 && c3 == q3
    requires t0 == q3 * p0 + q0 * p3 + q1 * p2 - q2 * p1
    requires t1 == q3 * p1 - q0 * p2 + q1 * p3 + q2 * p0
    requires t2 == q3 * p2 + q0 * p1 - q1 * p0 + q2 * p3
    requires t3 == q3 * p3 - q0 * p0 - q1 * p1 - q2 * p2
    requires s == t3 * c2 + t0 * c1 - t1 * c0 + t2 * c3
    requires r == q2 * (2.0 * (q0 * v0 + q1 * v1 + q2 * v2)) + v2 * (q3 * q3 - (q0 * q0 + q1 * q1 + q2 * q2)) + (q0 * v1 - q1 * v0) * (2.0 * q3)
    ensures r == s
  {}

  lemma SandwichScalar(v0: real, v1: real, v2: real, q0: real, q1: real, q2: real, q3: real, p0: real, p1: real, p2: real, p3: real, t0: real, t1: real, t2: real, t3: real, c0: real, c1: real, c2: real, c3: real, s: real)
    requires p0 == v0 && p1 == v1 && p2 == v2 && p3 == 0.0
    requires c0 == -q0 && c1 == -q1 && c2 == -q2 && c3 == q3
    requires t0 == q3 * p0 + q0 * p3 + q1 * p2 - q2 * p1
    requires t1 == q3 * p1 - q0 * p2 + q1 * p3 + q2 * p0
    requires t2 == q3 * p2 + q0 * p1 - q1 * p0 + q2 * p3
    requires t3 == q3 * p3 - q0 * p0 - q1 * p1 - q2 * p2
    requires s == t3 * c3 - t0 * c0 - t1 * c1 - t2 * c2
    ensures s == 0.0
  {}

  /** Rotating by the identity leaves the vector unchanged. */
  lemma RotationByIdentity(v: Vec3)
    ensures QuaternionVec3Rotation(v, QuaternionIdentity()) == v
  {}

  /** A zero angle about any axis gives the identity when the math routines are exact at zero
      and one. */
  lemma FromAxisAngleZero(x: real, y: real, z: real, m: Libm)
    requires m.sin(0.0) == 0.0 && m.cos(0.0) == 1.0 && m.sqrt(1.0) == 1.0
    ensures QuaternionFromAxisAngle(x, y, z, 0.0, m) == QuaternionIdentity()
  {
    assert AxisAngleRaw(x, y, z, 0.0, m) == QuaternionIdentity();
  }

  /** The product is not commutative: i j = k but j i = -k. */
  lemma MultNotCommutative()
    ensures QuaternionMult(Quat(1.0, 0.0, 0.0, 0.0), Quat(0.0, 1.0, 0.0, 0.0)) == Quat(0.0, 0.0, 1.0, 0.0)
    ensures QuaternionMult(Quat(0.0, 1.0, 0.0, 0.0), Quat(1.0, 0.0, 0.0, 0.0)) == Quat(0.0, 0.0, -1.0, 0.0)
  {
    var ji := QuaternionMult(Quat(0.0, 1.0, 0.0, 0.0), Quat(1.0, 0.0, 0.0, 0.0));
    assert ji.z == 0.0 - 1.0;
  }

  /** Rotation by a fixed quaternion is linear in the vector: it maps sums to sums and scaled
      vectors to scaled images. */
  lemma RotationIsLinear(a: Vec3, b: Vec3, k: real, q: Quat)
    ensures QuaternionVec3Rotation(Vec3Add(a, b), q) == Vec3Add(QuaternionVec3Rotation(a, q), QuaternionVec3Rotation(b, q))
    ensures QuaternionVec3Rotation(Vec3Scalar(a, k), q) == Vec3Scalar(QuaternionVec3Rotation(a, q), k)
  {
    RotationAdds(a, b, q);
    RotationScales(a, k, q);
  }

  /** The additive half of linearity, one component at a time. */
  lemma RotationAdds(a: Vec3, b: Vec3, q: Quat)
    ensures QuaternionVec3Rotation(Vec3Add(a, b), q) == Vec3Add(QuaternionVec3Rotation(a, q), QuaternionVec3Rotation(b, q))
  {
    AddsX(a, b, q);
    AddsY(a, b, q);
    AddsZ(a, b, q);
    SameComponents(QuaternionVec3Rotation(Vec3Add(a, b), q), Vec3Add(QuaternionVec3Rotation(a, q), QuaternionVec3Rotation(b, q)));
  }

  lemma AddsX(a: Vec3, b: Vec3, q: Quat)
    ensures QuaternionVec3Rotation(Vec3Add(a, b), q).x == QuaternionVec3Rotation(a, q).x + QuaternionVec3Rotation(b, q).x
  {}

  lemma AddsY(a: Vec3, b: Vec3, q: Quat)
    ensures QuaternionVec3Rotation(Vec3Add(a, b), q).y == QuaternionVec3Rotation(a, q).y + QuaternionVec3Rotation(b, q).y
  {}

  lemma AddsZ(a: Vec3, b: Vec3, q: Quat)
    ensures QuaternionVec3Rotation(Vec3Add(a, b), q).z == QuaternionVec3Rotation(a, q).z + QuaternionVec3Rotation(b, q).z
  {}

  /** The scaling half of linearity, one component at a time. */
  lemma RotationScales(a: Vec3, k: real, q: Quat)
    ensures QuaternionVec3Rotation(Vec3Scalar(a, k), q) == Vec3Scalar(QuaternionVec3Rotation(a, q), k)
  {
    ScalesX(a, k, q);
    ScalesY(a, k, q);
    ScalesZ(a, k, q);
    SameComponents(QuaternionVec3Rotation(Vec3Scalar(a, k), q), Vec3Scalar(QuaternionVec3Rotation(a, q), k));
  }

  lemma SameComponents(u: Vec3, v: Vec3)
    requires u.x == v.x && u.y == v.y && u.z == v.z
    ensures u == v
  {}

  lemma ScalesX(a: Vec3, k: real, q: Quat)
    ensures QuaternionVec3Rotation(Vec3Scalar(a, k), q).x == QuaternionVec3Rotation(a, q).x * k
  {}

  lemma ScalesY(a: Vec3, k: real, q: Quat)
    ensures QuaternionVec3Rotation(Vec3Scalar(a, k), q).y == QuaternionVec3Rotation(a, q).y * k
  {}

  lemma ScalesZ(a: Vec3, k: real, q: Quat)
    ensures QuaternionVec3Rotation(Vec3Scalar(a, k), q).z == QuaternionVec3Rotation(a, q).z * k
  {}
}
