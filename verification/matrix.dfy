/** The 4x4 matrix kernel (matrix.c). A matrix is sixteen reals in row-major order; vectors are
    rows multiplied on the left, so translations live in elements 12, 13 and 14. */
module Matrix {
  import opened Util
  import opened Vector
  import opened Quaternion
  import opened Expansion

  type Mat3 = s: seq<real> | |s| == 9 witness [0.0, 0.0, 0.0, 0.0, 0.0, 0.0, 0.0, 0.0, 0.0]

  type Mat4 = s: seq<real> | |s| == 16 witness seq(16, _ => 0.0)

  /** The element in row i, column j. */
  function Get(m: Mat4, i: nat, j: nat): real
    requires i < 4 && j < 4
  {
    m[4 * i + j]
  }

  /** The element in row i, column j of a 3x3 matrix. */
  function Get3(m: Mat3, i: nat, j: nat): real
    requires i < 3 && j < 3
  {
    m[3 * i + j]
  }

  /** Mat3Identity: ones where the flat index is a multiple of 4. */
  function Mat3Identity(): (r: Mat3)
    ensures forall i, j | 0 <= i < 3 && 0 <= j < 3 :: Get3(r, i, j) == if i == j then 1.0 else 0.0
  {
    seq(9, k => if k % 4 == 0 then 1.0 else 0.0)
  }

  /** Mat4Identity: ones where the flat index is a multiple of 5. */
  function Mat4Identity(): (r: Mat4)
    ensures forall i, j | 0 <= i < 4 && 0 <= j < 4 :: Get(r, i, j) == if i == j then 1.0 else 0.0
  {
    seq(16, k => if k % 5 == 0 then 1.0 else 0.0)
  }

  function Mat4Fill(value: real): Mat4 {
    seq(16, _ => value)
  }

  /** Mat4Transpose, computed through a temporary. */
  function Mat4Transpose(m: Mat4): (r: Mat4)
    ensures forall i, j | 0 <= i < 4 && 0 <= j < 4 :: Get(r, i, j) == Get(m, j, i)
  {
    seq(16, k requires 0 <= k < 16 => m[(k % 4) * 4 + k / 4])
  }

  /** Mat4TranslationFA: the identity with the offset in the last row. */
  function Mat4Translation(v: Vec3): Mat4 {
    Mat4Identity()[12 := v.x][13 := v.y][14 := v.z]
  }

  /** Mat4ScalingFA: the identity with the factors on the diagonal. */
  function Mat4Scaling(v: Vec3): Mat4 {
    Mat4Identity()[0 := v.x][5 := v.y][10 := v.z]
  }

  /** Mat4RotationX: the angle is in degrees. */
  function Mat4RotationX(theta: real, m: Libm): Mat4 {
    var t := theta * DegToRad;
    var st, ct := m.sin(t), m.cos(t);
    Mat4Identity()[5 := ct][6 := st][9 := -st][10 := ct]
  }

  function Mat4RotationY(theta: real, m: Libm): Mat4 {
    var t := theta * DegToRad;
    var ct, st := m.cos(t), m.sin(t);
    Mat4Identity()[0 := ct][2 := -st][8 := st][10 := ct]
  }

  function Mat4RotationZ(theta: real, m: Libm): Mat4 {
    var t := theta * DegToRad;
    var ct, st := m.cos(t), m.sin(t);
    Mat4Identity()[0 := ct][1 := st][4 := -st][5 := ct]
  }

  /** The length Mat4RotationAxisFA divides the axis by. */
  function AxisLength(v: Vec3, m: Libm): real {
    m.sqrt(v.x * v.x + v.y * v.y + v.z * v.z)
  }

  /** Mat4RotationAxisFA: rotation by theta degrees about the axis v, which is first divided by
      its length (there is no check for a zero axis). */
  function Mat4RotationAxis(v: Vec3, theta: real, m: Libm): Mat4
    requires AxisLength(v, m) != 0.0
  {
    var t := theta * DegToRad;
    var len := AxisLength(v, m);
    var x, y, z := v.x / len, v.y / len, v.z / len;
    var c, s := m.cos(t), m.sin(t);
    var nc := 1.0 - c;
    var xy, yz, zx := x * y, y * z, z * x;
    var xs, ys, zs := x * s, y * s, z * s;
    Mat4Identity()[0 := x * x * nc + c][1 := xy * nc + zs][2 := zx * nc - ys]
                  [4 := xy * nc - zs][5 := y * y * nc + c][6 := yz * nc + xs]
                  [8 := zx * nc + ys][9 := yz * nc - xs][10 := z * z * nc + c]
  }

  /** Mat4RotationQuaternionFA: the rotation matrix of q / |q|; the zero quaternion gives the
      identity because the scale factor is then 0 instead of 2 / n. */
  function Mat4RotationQuaternion(q: Quat): Mat4 {
    var x, y, z, w := q.x, q.y, q.z, q.w;
    var n := x * x + y * y + z * z + w * w;
    var s := if n == 0.0 then 0.0 else 2.0 / n;
    var wx, wy, wz := s * w * x, s * w * y, s * w * z;
    var xx, xy, xz := s * x * x, s * x * y, s * x * z;
    var yy, yz, zz := s * y * y, s * y * z, s * z * z;
    Mat4Identity()[0 := 1.0 - (yy + zz)][4 := xy - wz][8 := xz + wy]
                  [1 := xy + wz][5 := 1.0 - (xx + zz)][9 := yz - wx]
                  [2 := xz - wy][6 := yz + wx][10 := 1.0 - (xx + yy)]
  }

  /** Row i of a against column j of b. */
  function RowCol(a: Mat4, b: Mat4, i: nat, j: nat): real
    requires i < 4 && j < 4
  {
    a[4 * i] * b[j] + a[4 * i + 1] * b[4 + j] + a[4 * i + 2] * b[8 + j] + a[4 * i + 3] * b[12 + j]
  }

  /** Mat4Mult: the product m1 m2, computed through a temporary. */
  function Mat4Mult(m1: Mat4, m2: Mat4): Mat4 {
    [RowCol(m1, m2, 0, 0), RowCol(m1, m2, 0, 1), RowCol(m1, m2, 0, 2), RowCol(m1, m2, 0, 3),
     RowCol(m1, m2, 1, 0), RowCol(m1, m2, 1, 1), RowCol(m1, m2, 1, 2), RowCol(m1, m2, 1, 3),
     RowCol(m1, m2, 2, 0), RowCol(m1, m2, 2, 1), RowCol(m1, m2, 2, 2), RowCol(m1, m2, 2, 3),
     RowCol(m1, m2, 3, 0), RowCol(m1, m2, 3, 1), RowCol(m1, m2, 3, 2), RowCol(m1, m2, 3, 3)]
  }

  /** Mat4Vec4Mult: the row vector v times m. */
  function Mat4Vec4Mult(m: Mat4, v: Vec4): Vec4 {
    Vec4(m[0] * v.x + m[4] * v.y + m[8] * v.z + m[12] * v.w,
         m[1] * v.x + m[5] * v.y + m[9] * v.z + m[13] * v.w,
         m[2] * v.x + m[6] * v.y + m[10] * v.z + m[14] * v.w,
         m[3] * v.x + m[7] * v.y + m[11] * v.z + m[15] * v.w)
  }

  /** The cofactor matrix Mat4Inverse builds in `inv`. */
  function Cofactors(m: Mat4): Mat4 {
    [
      m[5] * m[10] * m[15] - m[5] * m[11] * m[14] - m[9] * m[6] * m[15] + m[9] * m[7] * m[14] + m[13] * m[6] * m[11] - m[13] * m[7] * m[10],
      -m[1] * m[10] * m[15] + m[1] * m[11] * m[14] + m[9] * m[2] * m[15] - m[9] * m[3] * m[14] - m[13] * m[2] * m[11] + m[13] * m[3] * m[10],
      m[1] * m[6] * m[15] - m[1] * m[7] * m[14] - m[5] * m[2] * m[15] + m[5] * m[3] * m[14] + m[13] * m[2] * m[7] - m[13] * m[3] * m[6],
      -m[1] * m[6] * m[11] + m[1] * m[7] * m[10] + m[5] * m[2] * m[11] - m[5] * m[3] * m[10] - m[9] * m[2] * m[7] + m[9] * m[3] * m[6],
      -m[4] * m[10] * m[15] + m[4] * m[11] * m[14] + m[8] * m[6] * m[15] - m[8] * m[7] * m[14] - m[12] * m[6] * m[11] + m[12] * m[7] * m[10],
      m[0] * m[10] * m[15] - m[0] * m[11] * m[14] - m[8] * m[2] * m[15] + m[8] * m[3] * m[14] + m[12] * m[2] * m[11] - m[12] * m[3] * m[10],
      -m[0] * m[6] * m[15] + m[0] * m[7] * m[14] + m[4] * m[2] * m[15] - m[4] * m[3] * m[14] - m[12] * m[2] * m[7] + m[12] * m[3] * m[6],
      m[0] * m[6] * m[11] - m[0] * m[7] * m[10] - m[4] * m[2] * m[11] + m[4] * m[3] * m[10] + m[8] * m[2] * m[7] - m[8] * m[3] * m[6],
      m[4] * m[9] * m[15] - m[4] * m[11] * m[13] - m[8] * m[5] * m[15] + m[8] * m[7] * m[13] + m[12] * m[5] * m[11] - m[12] * m[7] * m[9],
      -m[0] * m[9] * m[15] + m[0] * m[11] * m[13] + m[8] * m[1] * m[15] - m[8] * m[3] * m[13] - m[12] * m[1] * m[11] + m[12] * m[3] * m[9],
      m[0] * m[5] * m[15] - m[0] * m[7] * m[13] - m[4] * m[1] * m[15] + m[4] * m[3] * m[13] + m[12] * m[1] * m[7] - m[12] * m[3] * m[5],
      -m[0] * m[5] * m[11] + m[0] * m[7] * m[9] + m[4] * m[1] * m[11] - m[4] * m[3] * m[9] - m[8] * m[1] * m[7] + m[8] * m[3] * m[5],
      -m[4] * m[9] * m[14] + m[4] * m[10] * m[13] + m[8] * m[5] * m[14] - m[8] * m[6] * m[13] - m[12] * m[5] * m[10] + m[12] * m[6] * m[9],
      m[0] * m[9] * m[14] - m[0] * m[10] * m[13] - m[8] * m[1] * m[14] + m[8] * m[2] * m[13] + m[12] * m[1] * m[10] - m[12] * m[2] * m[9],
      -m[0] * m[5] * m[14] + m[0] * m[6] * m[13] + m[4] * m[1] * m[14] - m[4] * m[2] * m[13] - m[12] * m[1] * m[6] + m[12] * m[2] * m[5],
      m[0] * m[5] * m[10] - m[0] * m[6] * m[9] - m[4] * m[1] * m[10] + m[4] * m[2] * m[9] + m[8] * m[1] * m[6] - m[8] * m[2] * m[5]
    ]
  }

  /** The determinant, expanded along the first row. */
  function Determinant(m: Mat4): real {
    var c := Cofactors(m);
    m[0] * c[0] + m[1] * c[4] + m[2] * c[8] + m[3] * c[12]
  }

  /** Mat4Inverse: status 0 and `out` untouched for a singular matrix, otherwise status 1 and the
      cofactors times 1 / det. */
  function Mat4Inverse(out: Mat4, m: Mat4): (r: (int, Mat4))
    ensures r.0 == 0 || r.0 == 1
    ensures r.0 == 0 <==> Determinant(m) == 0.0
    ensures r.0 == 0 ==> r.1 == out
  {
    var det := Determinant(m);
    if det == 0.0 then (0, out)
    else
      var inv := 1.0 / det;
      (1, seq(16, k requires 0 <= k < 16 => Cofactors(m)[k] * inv))
  }

  /** The view matrix of a camera at eye with the given right, up and look axes: the axes are the
      first three columns and the last row holds the eye's coordinates along them, negated. */
  function ViewMatrix(right: Vec3, up: Vec3, look: Vec3, eye: Vec3): Mat4 {
    var neg := Vec3Scalar(eye, -1.0);
    [right.x, up.x, look.x, 0.0,
     right.y, up.y, look.y, 0.0,
     right.z, up.z, look.z, 0.0,
     Vec3Dot(neg, right), Vec3Dot(neg, up), Vec3Dot(neg, look), 1.0]
  }

  /** Mat4LookAtLH: a left-handed view matrix. The look, right and up axes are normalized in
      place, so a zero axis stays zero. */
  function Mat4LookAtLH(camPos: Vec3, camTarget: Vec3, camUp: Vec3, m: Libm): Mat4 {
    var look := Vec3Normalize(Vec3Subtract(camTarget, camPos), Vec3Subtract(camTarget, camPos), m);
    var right := Vec3Normalize(Vec3Cross(camUp, look), Vec3Cross(camUp, look), m);
    var up := Vec3Normalize(Vec3Cross(look, right), Vec3Cross(look, right), m);
    ViewMatrix(right, up, look, camPos)
  }

  /* ---------------- Laws ---------------- */

  /** Transposing twice gives the matrix back. */
  lemma TransposeInvolution(m: Mat4)
    ensures Mat4Transpose(Mat4Transpose(m)) == m
  {
    var t := Mat4Transpose(Mat4Transpose(m));
    forall k | 0 <= k < 16 ensures t[k] == m[k] {
      assert Get(t, k / 4, k % 4) == Get(m, k / 4, k % 4);
    }
  }

  /** The identity is symmetric. */
  lemma TransposeIdentity()
    ensures Mat4Transpose(Mat4Identity()) == Mat4Identity()
  {
    var t := Mat4Transpose(Mat4Identity());
    forall k | 0 <= k < 16 ensures t[k] == Mat4Identity()[k] {
      assert Get(t, k / 4, k % 4) == Get(Mat4Identity(), k / 4, k % 4);
    }
  }

  /** The identity is a two-sided unit of the product. */
  lemma MultIdentity(a: Mat4)
    ensures Mat4Mult(Mat4Identity(), a) == a
    ensures Mat4Mult(a, Mat4Identity()) == a
  {
    var id := Mat4Identity();
    IdentityDisplay();
    ProductColumn0(id, a);
    ProductColumn1(id, a);
    ProductColumn2(id, a);
    ProductColumn3(id, a);
    ProductColumn0(a, id);
    ProductColumn1(a, id);
    ProductColumn2(a, id);
    ProductColumn3(a, id);
    IdentityTimes(id[0], id[1], id[2], id[3], id[4], id[5], id[6], id[7], id[8], id[9], id[10], id[11], id[12], id[13], id[14], id[15], a[0], a[1], a[2], a[3], a[4], a[5], a[6], a[7], a[8], a[9], a[10], a[11], a[12], a[13], a[14], a[15]);
    TimesIdentity(a[0], a[1], a[2], a[3], a[4], a[5], a[6], a[7], a[8], a[9], a[10], a[11], a[12], a[13], a[14], a[15], id[0], id[1], id[2], id[3], id[4], id[5], id[6], id[7], id[8], id[9], id[10], id[11], id[12], id[13], id[14], id[15]);
  }

  /** A translation moves a point (w = 1) by v and leaves a direction (w = 0) alone. */
  lemma TranslationMovesPoints(v: Vec3, p: Vec3)
    ensures Mat4Vec4Mult(Mat4Translation(v), Vec4(p.x, p.y, p.z, 1.0)) == Vec4(p.x + v.x, p.y + v.y, p.z + v.z, 1.0)
    ensures Mat4Vec4Mult(Mat4Translation(v), Vec4(p.x, p.y, p.z, 0.0)) == Vec4(p.x, p.y, p.z, 0.0)
  {
  }

  /** A scaling multiplies each coordinate by its factor and keeps w. */
  lemma ScalingScales(s: Vec3, p: Vec4)
    ensures Mat4Vec4Mult(Mat4Scaling(s), p) == Vec4(p.x * s.x, p.y * s.y, p.z * s.z, p.w)
  {
  }
  /** Multiplying a row vector by a b is multiplying by a and then by b. */
  lemma Vec4MultComposes(a: Mat4, b: Mat4, v: Vec4)
    ensures Mat4Vec4Mult(Mat4Mult(a, b), v) == Mat4Vec4Mult(b, Mat4Vec4Mult(a, v))
  {
    ComposesAtX(a, b, v);
    ComposesAtY(a, b, v);
    ComposesAtZ(a, b, v);
    ComposesAtW(a, b, v);
  }

  lemma ComposesAtX(a: Mat4, b: Mat4, v: Vec4)
    ensures Mat4Vec4Mult(Mat4Mult(a, b), v).x == Mat4Vec4Mult(b, Mat4Vec4Mult(a, v)).x
  {
    var p, u := Mat4Mult(a, b), Mat4Vec4Mult(a, v);
    ProductColumn0(a, b);
    Compose0(a[0], a[1], a[2], a[3], a[4], a[5], a[6], a[7], a[8], a[9], a[10], a[11], a[12], a[13], a[14], a[15], b[0], b[4], b[8], b[12], v.x, v.y, v.z, v.w, p[0], p[4], p[8], p[12], u.x, u.y, u.z, u.w);
  }

  lemma ComposesAtY(a: Mat4, b: Mat4, v: Vec4)
    ensures Mat4Vec4Mult(Mat4Mult(a, b), v).y == Mat4Vec4Mult(b, Mat4Vec4Mult(a, v)).y
  {
    var p, u := Mat4Mult(a, b), Mat4Vec4Mult(a, v);
    ProductColumn1(a, b);
    Compose1(a[0], a[1], a[2], a[3], a[4], a[5], a[6], a[7], a[8], a[9], a[10], a[11], a[12], a[13], a[14], a[15], b[1], b[5], b[9], b[13], v.x, v.y, v.z, v.w, p[1], p[5], p[9], p[13], u.x, u.y, u.z, u.w);
  }

  lemma ComposesAtZ(a: Mat4, b: Mat4, v: Vec4)
    ensures Mat4Vec4Mult(Mat4Mult(a, b), v).z == Mat4Vec4Mult(b, Mat4Vec4Mult(a, v)).z
  {
    var p, u := Mat4Mult(a, b), Mat4Vec4Mult(a, v);
    ProductColumn2(a, b);
    Compose2(a[0], a[1], a[2], a[3], a[4], a[5], a[6], a[7], a[8], a[9], a[10], a[11], a[12], a[13], a[14], a[15], b[2], b[6], b[10], b[14], v.x, v.y, v.z, v.w, p[2], p[6], p[10], p[14], u.x, u.y, u.z, u.w);
  }

  lemma ComposesAtW(a: Mat4, b: Mat4, v: Vec4)
    ensures Mat4Vec4Mult(Mat4Mult(a, b), v).w == Mat4Vec4Mult(b, Mat4Vec4Mult(a, v)).w
  {
    var p, u := Mat4Mult(a, b), Mat4Vec4Mult(a, v);
    ProductColumn3(a, b);
    Compose3(a[0], a[1], a[2], a[3], a[4], a[5], a[6], a[7], a[8], a[9], a[10], a[11], a[12], a[13], a[14], a[15], b[3], b[7], b[11], b[15], v.x, v.y, v.z, v.w, p[3], p[7], p[11], p[15], u.x, u.y, u.z, u.w);
  }

  /* The entries of one column of a product, spelled out. */

  lemma ProductColumn0(a: Mat4, b: Mat4)
    ensures Mat4Mult(a, b)[0] == a[0] * b[0] + a[1] * b[4] + a[2] * b[8] + a[3] * b[12]
    ensures Mat4Mult(a, b)[4] == a[4] * b[0] + a[5] * b[4] + a[6] * b[8] + a[7] * b[12]
    ensures Mat4Mult(a, b)[8] == a[8] * b[0] + a[9] * b[4] + a[10] * b[8] + a[11] * b[12]
    ensures Mat4Mult(a, b)[12] == a[12] * b[0] + a[13] * b[4] + a[14] * b[8] + a[15] * b[12]
  {}

  lemma ProductColumn1(a: Mat4, b: Mat4)
    ensures Mat4Mult(a, b)[1] == a[0] * b[1] + a[1] * b[5] + a[2] * b[9] + a[3] * b[13]
    ensures Mat4Mult(a, b)[5] == a[4] * b[1] + a[5] * b[5] + a[6] * b[9] + a[7] * b[13]
    ensures Mat4Mult(a, b)[9] == a[8] * b[1] + a[9] * b[5] + a[10] * b[9] + a[11] * b[13]
    ensures Mat4Mult(a, b)[13] == a[12] * b[1] + a[13] * b[5] + a[14] * b[9] + a[15] * b[13]
  {}

  lemma ProductColumn2(a: Mat4, b: Mat4)
    ensures Mat4Mult(a, b)[2] == a[0] * b[2] + a[1] * b[6] + a[2] * b[10] + a[3] * b[14]
    ensures Mat4Mult(a, b)[6] == a[4] * b[2] + a[5] * b[6] + a[6] * b[10] + a[7] * b[14]
    ensures Mat4Mult(a, b)[10] == a[8] * b[2] + a[9] * b[6] + a[10] * b[10] + a[11] * b[14]
    ensures Mat4Mult(a, b)[14] == a[12] * b[2] + a[13] * b[6] + a[14] * b[10] + a[15] * b[14]
  {}

  lemma ProductColumn3(a: Mat4, b: Mat4)
    ensures Mat4Mult(a, b)[3] == a[0] * b[3] + a[1] * b[7] + a[2] * b[11] + a[3] * b[15]
    ensures Mat4Mult(a, b)[7] == a[4] * b[3] + a[5] * b[7] + a[6] * b[11] + a[7] * b[15]
    ensures Mat4Mult(a, b)[11] == a[8] * b[3] + a[9] * b[7] + a[10] * b[11] + a[11] * b[15]
    ensures Mat4Mult(a, b)[15] == a[12] * b[3] + a[13] * b[7] + a[14] * b[11] + a[15] * b[15]
  {}

  /** m times its cofactor matrix is det on the diagonal and zero elsewhere. */
  lemma CofactorRightExpansion(m: Mat4)
    ensures forall i, j | 0 <= i < 4 && 0 <= j < 4 ::
              RowCol(m, Cofactors(m), i, j) == if i == j then Determinant(m) else 0.0
  {
    forall i, j | 0 <= i < 4 && 0 <= j < 4
      ensures RowCol(m, Cofactors(m), i, j) == if i == j then Determinant(m) else 0.0
    {
      if i == 0 && j == 1 { RightEntry01(m); }
      else if i == 0 && j == 2 { RightEntry02(m); }
      else if i == 0 && j == 3 { RightEntry03(m); }
      else if i == 1 && j == 0 { RightEntry10(m); }
      else if i == 1 && j == 1 { RightEntry11(m); }
      else if i == 1 && j == 2 { RightEntry12(m); }
      else if i == 1 && j == 3 { RightEntry13(m); }
      else if i == 2 && j == 0 { RightEntry20(m); }
      else if i == 2 && j == 1 { RightEntry21(m); }
      else if i == 2 && j == 2 { RightEntry22(m); }
      else if i == 2 && j == 3 { RightEntry23(m); }
      else if i == 3 && j == 0 { RightEntry30(m); }
      else if i == 3 && j == 1 { RightEntry31(m); }
      else if i == 3 && j == 2 { RightEntry32(m); }
      else if i == 3 && j == 3 { RightEntry33(m); }
    }
  }

  /** The cofactor matrix times m is det on the diagonal and zero elsewhere. */
  lemma CofactorLeftExpansion(m: Mat4)
    ensures forall i, j | 0 <= i < 4 && 0 <= j < 4 ::
              RowCol(Cofactors(m), m, i, j) == if i == j then Determinant(m) else 0.0
  {
    forall i, j | 0 <= i < 4 && 0 <= j < 4
      ensures RowCol(Cofactors(m), m, i, j) == if i == j then Determinant(m) else 0.0
    {
      if i == 0 && j == 0 { LeftEntry00(m); }
      else if i == 0 && j == 1 { LeftEntry01(m); }
      else if i == 0 && j == 2 { LeftEntry02(m); }
      else if i == 0 && j == 3 { LeftEntry03(m); }
      else if i == 1 && j == 0 { LeftEntry10(m); }
      else if i == 1 && j == 1 { LeftEntry11(m); }
      else if i == 1 && j == 2 { LeftEntry12(m); }
      else if i == 1 && j == 3 { LeftEntry13(m); }
      else if i == 2 && j == 0 { LeftEntry20(m); }
      else if i == 2 && j == 1 { LeftEntry21(m); }
      else if i == 2 && j == 2 { LeftEntry22(m); }
      else if i == 2 && j == 3 { LeftEntry23(m); }
      else if i == 3 && j == 0 { LeftEntry30(m); }
      else if i == 3 && j == 1 { LeftEntry31(m); }
      else if i == 3 && j == 2 { LeftEntry32(m); }
      else if i == 3 && j == 3 { LeftEntry33(m); }
    }
  }

  lemma RightEntry01(m: Mat4)
    ensures RowCol(m, Cofactors(m), 0, 1) == 0.0
  {
    var c := Cofactors(m);
    Right01(m[0], m[1], m[2], m[3], m[4], m[5], m[6], m[7], m[8], m[9], m[10], m[11], m[12], m[13], m[14], m[15], c[1], c[5], c[9], c[13]);
  }

  lemma RightEntry02(m: Mat4)
    ensures RowCol(m, Cofactors(m), 0, 2) == 0.0
  {
    var c := Cofactors(m);
    Right02(m[0], m[1], m[2], m[3], m[4], m[5], m[6], m[7], m[8], m[9], m[10], m[11], m[12], m[13], m[14], m[15], c[2], c[6], c[10], c[14]);
  }

  lemma RightEntry03(m: Mat4)
    ensures RowCol(m, Cofactors(m), 0, 3) == 0.0
  {
    var c := Cofactors(m);
    Right03(m[0], m[1], m[2], m[3], m[4], m[5], m[6], m[7], m[8], m[9], m[10], m[11], m[12], m[13], m[14], m[15], c[3], c[7], c[11], c[15]);
  }

  lemma RightEntry10(m: Mat4)
    ensures RowCol(m, Cofactors(m), 1, 0) == 0.0
  {
    var c := Cofactors(m);
    Right10(m[0], m[1], m[2], m[3], m[4], m[5], m[6], m[7], m[8], m[9], m[10], m[11], m[12], m[13], m[14], m[15], c[0], c[4], c[8], c[12]);
  }

  lemma RightEntry11(m: Mat4)
    ensures RowCol(m, Cofactors(m), 1, 1) == Determinant(m)
  {
    var c := Cofactors(m);
    Right11(m[0], m[1], m[2], m[3], m[4], m[5], m[6], m[7], m[8], m[9], m[10], m[11], m[12], m[13], m[14], m[15], c[0], c[1], c[4], c[5], c[8], c[9], c[12], c[13]);
  }

  lemma RightEntry12(m: Mat4)
    ensures RowCol(m, Cofactors(m), 1, 2) == 0.0
  {
    var c := Cofactors(m);
    Right12(m[0], m[1], m[2], m[3], m[4], m[5], m[6], m[7], m[8], m[9], m[10], m[11], m[12], m[13], m[14], m[15], c[2], c[6], c[10], c[14]);
  }

  lemma RightEntry13(m: Mat4)
    ensures RowCol(m, Cofactors(m), 1, 3) == 0.0
  {
    var c := Cofactors(m);
    Right13(m[0], m[1], m[2], m[3], m[4], m[5], m[6], m[7], m[8], m[9], m[10], m[11], m[12], m[13], m[14], m[15], c[3], c[7], c[11], c[15]);
  }

  lemma RightEntry20(m: Mat4)
    ensures RowCol(m, Cofactors(m), 2, 0) == 0.0
  {
    var c := Cofactors(m);
    Right20(m[0], m[1], m[2], m[3], m[4], m[5], m[6], m[7], m[8], m[9], m[10], m[11], m[12], m[13], m[14], m[15], c[0], c[4], c[8], c[12]);
  }

  lemma RightEntry21(m: Mat4)
    ensures RowCol(m, Cofactors(m), 2, 1) == 0.0
  {
    var c := Cofactors(m);
    Right21(m[0], m[1], m[2], m[3], m[4], m[5], m[6], m[7], m[8], m[9], m[10], m[11], m[12], m[13], m[14], m[15], c[1], c[5], c[9], c[13]);
  }

  lemma RightEntry22(m: Mat4)
    ensures RowCol(m, Cofactors(m), 2, 2) == Determinant(m)
  {
    var c := Cofactors(m);
    Right22(m[0], m[1], m[2], m[3], m[4], m[5], m[6], m[7], m[8], m[9], m[10], m[11], m[12], m[13], m[14], m[15], c[0], c[2], c[4], c[6], c[8], c[10], c[12], c[14]);
  }

  lemma RightEntry23(m: Mat4)
    ensures RowCol(m, Cofactors(m), 2, 3) == 0.0
  {
    var c := Cofactors(m);
    Right23(m[0], m[1], m[2], m[3], m[4], m[5], m[6], m[7], m[8], m[9], m[10], m[11], m[12], m[13], m[14], m[15], c[3], c[7], c[11], c[15]);
  }

  lemma RightEntry30(m: Mat4)
    ensures RowCol(m, Cofactors(m), 3, 0) == 0.0
  {
    var c := Cofactors(m);
    Right30(m[0], m[1], m[2], m[3], m[4], m[5], m[6], m[7], m[8], m[9], m[10], m[11], m[12], m[13], m[14], m[15], c[0], c[4], c[8], c[12]);
  }

  lemma RightEntry31(m: Mat4)
    ensures RowCol(m, Cofactors(m), 3, 1) == 0.0
  {
    var c := Cofactors(m);
    Right31(m[0], m[1], m[2], m[3], m[4], m[5], m[6], m[7], m[8], m[9], m[10], m[11], m[12], m[13], m[14], m[15], c[1], c[5], c[9], c[13]);
  }

  lemma RightEntry32(m: Mat4)
    ensures RowCol(m, Cofactors(m), 3, 2) == 0.0
  {
    var c := Cofactors(m);
    Right32(m[0], m[1], m[2], m[3], m[4], m[5], m[6], m[7], m[8], m[9], m[10], m[11], m[12], m[13], m[14], m[15], c[2], c[6], c[10], c[14]);
  }

  lemma RightEntry33(m: Mat4)
    ensures RowCol(m, Cofactors(m), 3, 3) == Determinant(m)
  {
    var c := Cofactors(m);
    Right33(m[0], m[1], m[2], m[3], m[4], m[5], m[6], m[7], m[8], m[9], m[10], m[11], m[12], m[13], m[14], m[15], c[0], c[3], c[4], c[7], c[8], c[11], c[12], c[15]);
  }

  lemma LeftEntry00(m: Mat4)
    ensures RowCol(Cofactors(m), m, 0, 0) == Determinant(m)
  {
    var c := Cofactors(m);
    Left00(m[0], m[1], m[2], m[3], m[4], m[5], m[6], m[7], m[8], m[9], m[10], m[11], m[12], m[13], m[14], m[15], c[0], c[1], c[2], c[3], c[4], c[8], c[12]);
  }

  lemma LeftEntry01(m: Mat4)
    ensures RowCol(Cofactors(m), m, 0, 1) == 0.0
  {
    var c := Cofactors(m);
    Left01(m[0], m[1], m[2], m[3], m[4], m[5], m[6], m[7], m[8], m[9], m[10], m[11], m[12], m[13], m[14], m[15], c[0], c[1], c[2], c[3], c[4], c[8], c[12]);
  }

  lemma LeftEntry02(m: Mat4)
    ensures RowCol(Cofactors(m), m, 0, 2) == 0.0
  {
    var c := Cofactors(m);
    Left02(m[0], m[1], m[2], m[3], m[4], m[5], m[6], m[7], m[8], m[9], m[10], m[11], m[12], m[13], m[14], m[15], c[0], c[1], c[2], c[3], c[4], c[8], c[12]);
  }

  lemma LeftEntry03(m: Mat4)
    ensures RowCol(Cofactors(m), m, 0, 3) == 0.0
  {
    var c := Cofactors(m);
    Left03(m[0], m[1], m[2], m[3], m[4], m[5], m[6], m[7], m[8], m[9], m[10], m[11], m[12], m[13], m[14], m[15], c[0], c[1], c[2], c[3], c[4], c[8], c[12]);
  }

  lemma LeftEntry10(m: Mat4)
    ensures RowCol(Cofactors(m), m, 1, 0) == 0.0
  {
    var c := Cofactors(m);
    Left10(m[0], m[1], m[2], m[3], m[4], m[5], m[6], m[7], m[8], m[9], m[10], m[11], m[12], m[13], m[14], m[15], c[0], c[4], c[5], c[6], c[7], c[8], c[12]);
  }

  lemma LeftEntry11(m: Mat4)
    ensures RowCol(Cofactors(m), m, 1, 1) == Determinant(m)
  {
    var c := Cofactors(m);
    Left11(m[0], m[1], m[2], m[3], m[4], m[5], m[6], m[7], m[8], m[9], m[10], m[11], m[12], m[13], m[14], m[15], c[0], c[4], c[5], c[6], c[7], c[8], c[12]);
  }

  lemma LeftEntry12(m: Mat4)
    ensures RowCol(Cofactors(m), m, 1, 2) == 0.0
  {
    var c := Cofactors(m);
    Left12(m[0], m[1], m[2], m[3], m[4], m[5], m[6], m[7], m[8], m[9], m[10], m[11], m[12], m[13], m[14], m[15], c[0], c[4], c[5], c[6], c[7], c[8], c[12]);
  }

  lemma LeftEntry13(m: Mat4)
    ensures RowCol(Cofactors(m), m, 1, 3) == 0.0
  {
    var c := Cofactors(m);
    Left13(m[0], m[1], m[2], m[3], m[4], m[5], m[6], m[7], m[8], m[9], m[10], m[11], m[12], m[13], m[14], m[15], c[0], c[4], c[5], c[6], c[7], c[8], c[12]);
  }

  lemma LeftEntry20(m: Mat4)
    ensures RowCol(Cofactors(m), m, 2, 0) == 0.0
  {
    var c := Cofactors(m);
    Left20(m[0], m[1], m[2], m[3], m[4], m[5], m[6], m[7], m[8], m[9], m[10], m[11], m[12], m[13], m[14], m[15], c[0], c[4], c[8], c[9], c[10], c[11], c[12]);
  }

  lemma LeftEntry21(m: Mat4)
    ensures RowCol(Cofactors(m), m, 2, 1) == 0.0
  {
    var c := Cofactors(m);
    Left21(m[0], m[1], m[2], m[3], m[4], m[5], m[6], m[7], m[8], m[9], m[10], m[11], m[12], m[13], m[14], m[15], c[0], c[4], c[8], c[9], c[10], c[11], c[12]);
  }

  lemma LeftEntry22(m: Mat4)
    ensures RowCol(Cofactors(m), m, 2, 2) == Determinant(m)
  {
    var c := Cofactors(m);
    Left22(m[0], m[1], m[2], m[3], m[4], m[5], m[6], m[7], m[8], m[9], m[10], m[11], m[12], m[13], m[14], m[15], c[0], c[4], c[8], c[9], c[10], c[11], c[12]);
  }

  lemma LeftEntry23(m: Mat4)
    ensures RowCol(Cofactors(m), m, 2, 3) == 0.0
  {
    var c := Cofactors(m);
    Left23(m[0], m[1], m[2], m[3], m[4], m[5], m[6], m[7], m[8], m[9], m[10], m[11], m[12], m[13], m[14], m[15], c[0], c[4], c[8], c[9], c[10], c[11], c[12]);
  }

  lemma LeftEntry30(m: Mat4)
    ensures RowCol(Cofactors(m), m, 3, 0) == 0.0
  {
    var c := Cofactors(m);
    Left30(m[0], m[1], m[2], m[3], m[4], m[5], m[6], m[7], m[8], m[9], m[10], m[11], m[12], m[13], m[14], m[15], c[0], c[4], c[8], c[12], c[13], c[14], c[15]);
  }

  lemma LeftEntry31(m: Mat4)
    ensures RowCol(Cofactors(m), m, 3, 1) == 0.0
  {
    var c := Cofactors(m);
    Left31(m[0], m[1], m[2], m[3], m[4], m[5], m[6], m[7], m[8], m[9], m[10], m[11], m[12], m[13], m[14], m[15], c[0], c[4], c[8], c[12], c[13], c[14], c[15]);
  }

  lemma LeftEntry32(m: Mat4)
    ensures RowCol(Cofactors(m), m, 3, 2) == 0.0
  {
    var c := Cofactors(m);
    Left32(m[0], m[1], m[2], m[3], m[4], m[5], m[6], m[7], m[8], m[9], m[10], m[11], m[12], m[13], m[14], m[15], c[0], c[4], c[8], c[12], c[13], c[14], c[15]);
  }

  lemma LeftEntry33(m: Mat4)
    ensures RowCol(Cofactors(m), m, 3, 3) == Determinant(m)
  {
    var c := Cofactors(m);
    Left33(m[0], m[1], m[2], m[3], m[4], m[5], m[6], m[7], m[8], m[9], m[10], m[11], m[12], m[13], m[14], m[15], c[0], c[4], c[8], c[12], c[13], c[14], c[15]);
  }

  /** When Mat4Inverse succeeds, its result is a two-sided inverse of m. */
  lemma InverseIsInverse(out: Mat4, m: Mat4)
    requires Mat4Inverse(out, m).0 == 1
    ensures Mat4Mult(m, Mat4Inverse(out, m).1) == Mat4Identity()
    ensures Mat4Mult(Mat4Inverse(out, m).1, m) == Mat4Identity()
  {
    InverseEntry00(out, m);
    InverseEntry01(out, m);
    InverseEntry02(out, m);
    InverseEntry03(out, m);
    InverseEntry10(out, m);
    InverseEntry11(out, m);
    InverseEntry12(out, m);
    InverseEntry13(out, m);
    InverseEntry20(out, m);
    InverseEntry21(out, m);
    InverseEntry22(out, m);
    InverseEntry23(out, m);
    InverseEntry30(out, m);
    InverseEntry31(out, m);
    InverseEntry32(out, m);
    InverseEntry33(out, m);
    IdentityDisplay();
  }

  /** Mat4RotationAxis about a unit coordinate axis is the dedicated rotation about that axis,
      provided the square root routine is exact at one. */
  lemma RotationAxisAboutX(theta: real, m: Libm)
    requires m.sqrt(1.0) == 1.0
    ensures AxisLength(Vec3(1.0, 0.0, 0.0), m) == 1.0
    ensures Mat4RotationAxis(Vec3(1.0, 0.0, 0.0), theta, m) == Mat4RotationX(theta, m)
  {
    IdentityDisplay();
  }

  lemma RotationAxisAboutY(theta: real, m: Libm)
    requires m.sqrt(1.0) == 1.0
    ensures AxisLength(Vec3(0.0, 1.0, 0.0), m) == 1.0
    ensures Mat4RotationAxis(Vec3(0.0, 1.0, 0.0), theta, m) == Mat4RotationY(theta, m)
  {
    IdentityDisplay();
  }

  lemma RotationAxisAboutZ(theta: real, m: Libm)
    requires m.sqrt(1.0) == 1.0
    ensures AxisLength(Vec3(0.0, 0.0, 1.0), m) == 1.0
    ensures Mat4RotationAxis(Vec3(0.0, 0.0, 1.0), theta, m) == Mat4RotationZ(theta, m)
  {
    IdentityDisplay();
  }

  /** Each coordinate rotation leaves its own axis, and the w coordinate, where they are. */
  lemma RotationXFixesAxis(theta: real, m: Libm, a: real, w: real)
    ensures Mat4Vec4Mult(Mat4RotationX(theta, m), Vec4(a, 0.0, 0.0, w)) == Vec4(a, 0.0, 0.0, w)
  {
    var st, ct := m.sin(theta * DegToRad), m.cos(theta * DegToRad);
    IdentityDisplay();
    assert Mat4RotationX(theta, m) == [1.0, 0.0, 0.0, 0.0, 0.0, ct, st, 0.0, 0.0, -st, ct, 0.0, 0.0, 0.0, 0.0, 1.0];
  }

  lemma RotationYFixesAxis(theta: real, m: Libm, a: real, w: real)
    ensures Mat4Vec4Mult(Mat4RotationY(theta, m), Vec4(0.0, a, 0.0, w)) == Vec4(0.0, a, 0.0, w)
  {
    var st, ct := m.sin(theta * DegToRad), m.cos(theta * DegToRad);
    IdentityDisplay();
    assert Mat4RotationY(theta, m) == [ct, 0.0, -st, 0.0, 0.0, 1.0, 0.0, 0.0, st, 0.0, ct, 0.0, 0.0, 0.0, 0.0, 1.0];
  }

  lemma RotationZFixesAxis(theta: real, m: Libm, a: real, w: real)
    ensures Mat4Vec4Mult(Mat4RotationZ(theta, m), Vec4(0.0, 0.0, a, w)) == Vec4(0.0, 0.0, a, w)
  {
    var st, ct := m.sin(theta * DegToRad), m.cos(theta * DegToRad);
    IdentityDisplay();
    assert Mat4RotationZ(theta, m) == [ct, st, 0.0, 0.0, -st, ct, 0.0, 0.0, 0.0, 0.0, 1.0, 0.0, 0.0, 0.0, 0.0, 1.0];
  }

  /** Rotating by theta and then by -theta about the x axis is the identity, when sine is odd,
      cosine is even and sin^2 + cos^2 = 1 at the angle in question. */
  lemma RotationXUndone(theta: real, m: Libm)
    requires m.sin(-theta * DegToRad) == -m.sin(theta * DegToRad)
    requires m.cos(-theta * DegToRad) == m.cos(theta * DegToRad)
    requires m.sin(theta * DegToRad) * m.sin(theta * DegToRad) + m.cos(theta * DegToRad) * m.cos(theta * DegToRad) == 1.0
    ensures Mat4Mult(Mat4RotationX(theta, m), Mat4RotationX(-theta, m)) == Mat4Identity()
  {
    var st, ct := m.sin(theta * DegToRad), m.cos(theta * DegToRad);
    var a := Mat4RotationX(theta, m);
    var b := Mat4RotationX(-theta, m);
    assert a == [1.0, 0.0, 0.0, 0.0, 0.0, ct, st, 0.0, 0.0, -st, ct, 0.0, 0.0, 0.0, 0.0, 1.0];
    assert b == [1.0, 0.0, 0.0, 0.0, 0.0, ct, -st, 0.0, 0.0, st, ct, 0.0, 0.0, 0.0, 0.0, 1.0];
    RotationXPairProduct(a, b, st, ct);
  }

  /** The product of the two x-rotation displays, entry by entry. */
  lemma RotationXPairProduct(a: Mat4, b: Mat4, st: real, ct: real)
    requires a == [1.0, 0.0, 0.0, 0.0, 0.0, ct, st, 0.0, 0.0, -st, ct, 0.0, 0.0, 0.0, 0.0, 1.0]
    requires b == [1.0, 0.0, 0.0, 0.0, 0.0, ct, -st, 0.0, 0.0, st, ct, 0.0, 0.0, 0.0, 0.0, 1.0]
    requires st * st + ct * ct == 1.0
    ensures Mat4Mult(a, b) == Mat4Identity()
  {
    IdentityDisplay();
    ProductColumn0(a, b);
    ProductColumn1(a, b);
    ProductColumn2(a, b);
    ProductColumn3(a, b);
    RotationXBlocks(a[0], a[1], a[2], a[3], a[4], a[5], a[6], a[7], a[8], a[9], a[10], a[11], a[12], a[13], a[14], a[15], b[0], b[1], b[2], b[3], b[4], b[5], b[6], b[7], b[8], b[9], b[10], b[11], b[12], b[13], b[14], b[15], st, ct);
    var p := Mat4Mult(a, b);
    assert p[0] == 1.0;
    assert p[1] == 0.0;
    assert p[2] == 0.0;
    assert p[3] == 0.0;
    assert p[4] == 0.0;
    assert p[5] == 1.0;
    assert p[6] == 0.0;
    assert p[7] == 0.0;
    assert p[8] == 0.0;
    assert p[9] == 0.0;
    assert p[10] == 1.0;
    assert p[11] == 0.0;
    assert p[12] == 0.0;
    assert p[13] == 0.0;
    assert p[14] == 0.0;
    assert p[15] == 1.0;
  }

  /** The identity is invertible and its own inverse. */
  lemma IdentityInverse()
    ensures Mat4Inverse(Mat4Identity(), Mat4Identity()) == (1, Mat4Identity())
  {
    IdentityDisplay();
    assert Determinant(Mat4Identity()) == 1.0;
    InverseIsInverse(Mat4Identity(), Mat4Identity());
    MultIdentity(Mat4Inverse(Mat4Identity(), Mat4Identity()).1);
  }

  /** A matrix with a row of zeros has determinant zero. */
  lemma DeterminantOfZeroRow(m: Mat4, i: nat)
    requires i < 4
    requires m[4 * i] == 0.0 && m[4 * i + 1] == 0.0 && m[4 * i + 2] == 0.0 && m[4 * i + 3] == 0.0
    ensures Determinant(m) == 0.0
  {
  }

  /** A zero row of the left factor is a zero row of the product. */
  lemma ZeroRowPropagates(a: Mat4, b: Mat4, i: nat)
    requires i < 4
    requires a[4 * i] == 0.0 && a[4 * i + 1] == 0.0 && a[4 * i + 2] == 0.0 && a[4 * i + 3] == 0.0
    ensures var p := Mat4Mult(a, b);
            p[4 * i] == 0.0 && p[4 * i + 1] == 0.0 && p[4 * i + 2] == 0.0 && p[4 * i + 3] == 0.0
  {
    ProductColumn0(a, b);
    ProductColumn1(a, b);
    ProductColumn2(a, b);
    ProductColumn3(a, b);
  }

  /** Scaling on the left multiplies the first three rows by the factors. */
  lemma ScalingScalesRows(s: Vec3, m: Mat4)
    ensures Mat4Mult(Mat4Scaling(s), m)[0] == s.x * m[0]
    ensures Mat4Mult(Mat4Scaling(s), m)[1] == s.x * m[1]
    ensures Mat4Mult(Mat4Scaling(s), m)[2] == s.x * m[2]
    ensures Mat4Mult(Mat4Scaling(s), m)[3] == s.x * m[3]
    ensures Mat4Mult(Mat4Scaling(s), m)[4] == s.y * m[4]
    ensures Mat4Mult(Mat4Scaling(s), m)[5] == s.y * m[5]
    ensures Mat4Mult(Mat4Scaling(s), m)[6] == s.y * m[6]
    ensures Mat4Mult(Mat4Scaling(s), m)[7] == s.y * m[7]
    ensures Mat4Mult(Mat4Scaling(s), m)[8] == s.z * m[8]
    ensures Mat4Mult(Mat4Scaling(s), m)[9] == s.z * m[9]
    ensures Mat4Mult(Mat4Scaling(s), m)[10] == s.z * m[10]
    ensures Mat4Mult(Mat4Scaling(s), m)[11] == s.z * m[11]
  {
    IdentityDisplay();
    assert Mat4Scaling(s) == [s.x, 0.0, 0.0, 0.0, 0.0, s.y, 0.0, 0.0, 0.0, 0.0, s.z, 0.0, 0.0, 0.0, 0.0, 1.0];
    ProductColumn0(Mat4Scaling(s), m);
    ProductColumn1(Mat4Scaling(s), m);
    ProductColumn2(Mat4Scaling(s), m);
    ProductColumn3(Mat4Scaling(s), m);
  }

  /** A quaternion with no vector part (the identity, any multiple of it, and the zero
      quaternion) gives the identity matrix. */
  lemma RotationQuaternionOfScalar(w: real)
    ensures Mat4RotationQuaternion(Quat(0.0, 0.0, 0.0, w)) == Mat4Identity()
  {
    IdentityDisplay();
  }

  /** A view matrix sends its eye to the origin, whatever its axes. */
  lemma ViewSendsEyeToOrigin(right: Vec3, up: Vec3, look: Vec3, eye: Vec3)
    ensures Mat4Vec4Mult(ViewMatrix(right, up, look, eye), Vec4(eye.x, eye.y, eye.z, 1.0)) == Vec4(0.0, 0.0, 0.0, 1.0)
  {
    var v := ViewMatrix(right, up, look, eye);
    OffsetCancels(eye, right, v[0], v[4], v[8], v[12]);
    OffsetCancels(eye, up, v[1], v[5], v[9], v[13]);
    OffsetCancels(eye, look, v[2], v[6], v[10], v[14]);
  }

  /** A point dotted with an axis, plus the offset -point.axis, is zero. */
  lemma OffsetCancels(p: Vec3, a: Vec3, a0: real, a1: real, a2: real, offset: real)
    requires a0 == a.x && a1 == a.y && a2 == a.z
    requires offset == Vec3Dot(Vec3Scalar(p, -1.0), a)
    ensures p.x * a0 + p.y * a1 + p.z * a2 + offset * 1.0 == 0.0
  {
  }

  /** In particular the look-at matrix sends the camera position to the origin. */
  lemma LookAtSendsEyeToOrigin(camPos: Vec3, camTarget: Vec3, camUp: Vec3, m: Libm)
    ensures Mat4Vec4Mult(Mat4LookAtLH(camPos, camTarget, camUp, m), Vec4(camPos.x, camPos.y, camPos.z, 1.0))
         == Vec4(0.0, 0.0, 0.0, 1.0)
  {
    var look := Vec3Normalize(Vec3Subtract(camTarget, camPos), Vec3Subtract(camTarget, camPos), m);
    var right := Vec3Normalize(Vec3Cross(camUp, look), Vec3Cross(camUp, look), m);
    var up := Vec3Normalize(Vec3Cross(look, right), Vec3Cross(look, right), m);
    ViewSendsEyeToOrigin(right, up, look, camPos);
  }

  /** The look-at matrix is affine: its fourth column is (0, 0, 0, 1), whatever the camera. */
  lemma LookAtIsAffine(camPos: Vec3, camTarget: Vec3, camUp: Vec3, m: Libm)
    ensures var r := Mat4LookAtLH(camPos, camTarget, camUp, m);
            r[3] == 0.0 && r[7] == 0.0 && r[11] == 0.0 && r[15] == 1.0
  {
  }

  /* Entrywise products with known constant entries, over the entries as separate reals. */

  /** The identity's entries times any entries. */
  lemma IdentityTimes(a0: real, a1: real, a2: real, a3: real, a4: real, a5: real, a6: real, a7: real, a8: real, a9: real, a10: real, a11: real, a12: real, a13: real, a14: real, a15: real, b0: real, b1: real, b2: real, b3: real, b4: real, b5: real, b6: real, b7: real, b8: real, b9: real, b10: real, b11: real, b12: real, b13: real, b14: real, b15: real)
    requires a0 == 1.0
    requires a1 == 0.0
    requires a2 == 0.0
    requires a3 == 0.0
    requires a4 == 0.0
    requires a5 == 1.0
    requires a6 == 0.0
    requires a7 == 0.0
    requires a8 == 0.0
    requires a9 == 0.0
    requires a10 == 1.0
    requires a11 == 0.0
    requires a12 == 0.0
    requires a13 == 0.0
    requires a14 == 0.0
    requires a15 == 1.0
    ensures a0 * b0 + a1 * b4 + a2 * b8 + a3 * b12 == b0
    ensures a0 * b1 + a1 * b5 + a2 * b9 + a3 * b13 == b1
    ensures a0 * b2 + a1 * b6 + a2 * b10 + a3 * b14 == b2
    ensures a0 * b3 + a1 * b7 + a2 * b11 + a3 * b15 == b3
    ensures a4 * b0 + a5 * b4 + a6 * b8 + a7 * b12 == b4
    ensures a4 * b1 + a5 * b5 + a6 * b9 + a7 * b13 == b5
    ensures a4 * b2 + a5 * b6 + a6 * b10 + a7 * b14 == b6
    ensures a4 * b3 + a5 * b7 + a6 * b11 + a7 * b15 == b7
    ensures a8 * b0 + a9 * b4 + a10 * b8 + a11 * b12 == b8
    ensures a8 * b1 + a9 * b5 + a10 * b9 + a11 * b13 == b9
    ensures a8 * b2 + a9 * b6 + a10 * b10 + a11 * b14 == b10
    ensures a8 * b3 + a9 * b7 + a10 * b11 + a11 * b15 == b11
    ensures a12 * b0 + a13 * b4 + a14 * b8 + a15 * b12 == b12
    ensures a12 * b1 + a13 * b5 + a14 * b9 + a15 * b13 == b13
    ensures a12 * b2 + a13 * b6 + a14 * b10 + a15 * b14 == b14
    ensures a12 * b3 + a13 * b7 + a14 * b11 + a15 * b15 == b15
  {
  }

  /** Any entries times the identity's entries. */
  lemma TimesIdentity(a0: real, a1: real, a2: real, a3: real, a4: real, a5: real, a6: real, a7: real, a8: real, a9: real, a10: real, a11: real, a12: real, a13: real, a14: real, a15: real, b0: real, b1: real, b2: real, b3: real, b4: real, b5: real, b6: real, b7: real, b8: real, b9: real, b10: real, b11: real, b12: real, b13: real, b14: real, b15: real)
    requires b0 == 1.0
    requires b1 == 0.0
    requires b2 == 0.0
    requires b3 == 0.0
    requires b4 == 0.0
    requires b5 == 1.0
    requires b6 == 0.0
    requires b7 == 0.0
    requires b8 == 0.0
    requires b9 == 0.0
    requires b10 == 1.0
    requires b11 == 0.0
    requires b12 == 0.0
    requires b13 == 0.0
    requires b14 == 0.0
    requires b15 == 1.0
    ensures a0 * b0 + a1 * b4 + a2 * b8 + a3 * b12 == a0
    ensures a0 * b1 + a1 * b5 + a2 * b9 + a3 * b13 == a1
    ensures a0 * b2 + a1 * b6 + a2 * b10 + a3 * b14 == a2
    ensures a0 * b3 + a1 * b7 + a2 * b11 + a3 * b15 == a3
    ensures a4 * b0 + a5 * b4 + a6 * b8 + a7 * b12 == a4
    ensures a4 * b1 + a5 * b5 + a6 * b9 + a7 * b13 == a5
    ensures a4 * b2 + a5 * b6 + a6 * b10 + a7 * b14 == a6
    ensures a4 * b3 + a5 * b7 + a6 * b11 + a7 * b15 == a7
    ensures a8 * b0 + a9 * b4 + a10 * b8 + a11 * b12 == a8
    ensures a8 * b1 + a9 * b5 + a10 * b9 + a11 * b13 == a9
    ensures a8 * b2 + a9 * b6 + a10 * b10 + a11 * b14 == a10
    ensures a8 * b3 + a9 * b7 + a10 * b11 + a11 * b15 == a11
    ensures a12 * b0 + a13 * b4 + a14 * b8 + a15 * b12 == a12
    ensures a12 * b1 + a13 * b5 + a14 * b9 + a15 * b13 == a13
    ensures a12 * b2 + a13 * b6 + a14 * b10 + a15 * b14 == a14
    ensures a12 * b3 + a13 * b7 + a14 * b11 + a15 * b15 == a15
  {
  }

  /** A rotation about x by an angle with sine st and cosine ct, times the rotation by the opposite angle. */
  lemma RotationXBlocks(a0: real, a1: real, a2: real, a3: real, a4: real, a5: real, a6: real, a7: real, a8: real, a9: real, a10: real, a11: real, a12: real, a13: real, a14: real, a15: real, b0: real, b1: real, b2: real, b3: real, b4: real, b5: real, b6: real, b7: real, b8: real, b9: real, b10: real, b11: real, b12: real, b13: real, b14: real, b15: real, st: real, ct: real)
    requires a0 == 1.0
    requires a1 == 0.0
    requires a2 == 0.0
    requires a3 == 0.0
    requires a4 == 0.0
    requires a5 == ct
    requires a6 == st
    requires a7 == 0.0
    requires a8 == 0.0
    requires a9 == -st
    requires a10 == ct
    requires a11 == 0.0
    requires a12 == 0.0
    requires a13 == 0.0
    requires a14 == 0.0
    requires a15 == 1.0
    requires b0 == 1.0
    requires b1 == 0.0
    requires b2 == 0.0
    requires b3 == 0.0
    requires b4 == 0.0
    requires b5 == ct
    requires b6 == -st
    requires b7 == 0.0
    requires b8 == 0.0
    requires b9 == st
    requires b10 == ct
    requires b11 == 0.0
    requires b12 == 0.0
    requires b13 == 0.0
    requires b14 == 0.0
    requires b15 == 1.0
    requires st * st + ct * ct == 1.0
    ensures a0 * b0 + a1 * b4 + a2 * b8 + a3 * b12 == 1.0
    ensures a0 * b1 + a1 * b5 + a2 * b9 + a3 * b13 == 0.0
    ensures a0 * b2 + a1 * b6 + a2 * b10 + a3 * b14 == 0.0
    ensures a0 * b3 + a1 * b7 + a2 * b11 + a3 * b15 == 0.0
    ensures a4 * b0 + a5 * b4 + a6 * b8 + a7 * b12 == 0.0
    ensures a4 * b1 + a5 * b5 + a6 * b9 + a7 * b13 == 1.0
    ensures a4 * b2 + a5 * b6 + a6 * b10 + a7 * b14 == 0.0
    ensures a4 * b3 + a5 * b7 + a6 * b11 + a7 * b15 == 0.0
    ensures a8 * b0 + a9 * b4 + a10 * b8 + a11 * b12 == 0.0
    ensures a8 * b1 + a9 * b5 + a10 * b9 + a11 * b13 == 0.0
    ensures a8 * b2 + a9 * b6 + a10 * b10 + a11 * b14 == 1.0
    ensures a8 * b3 + a9 * b7 + a10 * b11 + a11 * b15 == 0.0
    ensures a12 * b0 + a13 * b4 + a14 * b8 + a15 * b12 == 0.0
    ensures a12 * b1 + a13 * b5 + a14 * b9 + a15 * b13 == 0.0
    ensures a12 * b2 + a13 * b6 + a14 * b10 + a15 * b14 == 0.0
    ensures a12 * b3 + a13 * b7 + a14 * b11 + a15 * b15 == 1.0
  {
  }

  /** The identity written out. */
  lemma IdentityDisplay()
    ensures Mat4Identity() == [1.0, 0.0, 0.0, 0.0, 0.0, 1.0, 0.0, 0.0, 0.0, 0.0, 1.0, 0.0, 0.0, 0.0, 0.0, 1.0]
  {
  }

  lemma InverseEntry00(out: Mat4, m: Mat4)
    requires Mat4Inverse(out, m).0 == 1
    ensures RowCol(m, Mat4Inverse(out, m).1, 0, 0) == 1.0
    ensures RowCol(Mat4Inverse(out, m).1, m, 0, 0) == 1.0
  {
    var det, c, inv := Determinant(m), Cofactors(m), Mat4Inverse(out, m).1;
    var d := 1.0 / det;
    assert det * d == 1.0;
    LeftEntry00(m);
    ScaleDot(m[0], m[1], m[2], m[3], c[0], c[4], c[8], c[12], d);
    ScaleDot(c[0], c[1], c[2], c[3], m[0], m[4], m[8], m[12], d);
  }

  lemma InverseEntry01(out: Mat4, m: Mat4)
    requires Mat4Inverse(out, m).0 == 1
    ensures RowCol(m, Mat4Inverse(out, m).1, 0, 1) == 0.0
    ensures RowCol(Mat4Inverse(out, m).1, m, 0, 1) == 0.0
  {
    var det, c, inv := Determinant(m), Cofactors(m), Mat4Inverse(out, m).1;
    var d := 1.0 / det;
    assert det * d == 1.0;
    RightEntry01(m);
    LeftEntry01(m);
    ScaleDot(m[0], m[1], m[2], m[3], c[1], c[5], c[9], c[13], d);
    ScaleDot(c[0], c[1], c[2], c[3], m[1], m[5], m[9], m[13], d);
  }

  lemma InverseEntry02(out: Mat4, m: Mat4)
    requires Mat4Inverse(out, m).0 == 1
    ensures RowCol(m, Mat4Inverse(out, m).1, 0, 2) == 0.0
    ensures RowCol(Mat4Inverse(out, m).1, m, 0, 2) == 0.0
  {
    var det, c, inv := Determinant(m), Cofactors(m), Mat4Inverse(out, m).1;
    var d := 1.0 / det;
    assert det * d == 1.0;
    RightEntry02(m);
    LeftEntry02(m);
    ScaleDot(m[0], m[1], m[2], m[3], c[2], c[6], c[10], c[14], d);
    ScaleDot(c[0], c[1], c[2], c[3], m[2], m[6], m[10], m[14], d);
  }

  lemma InverseEntry03(out: Mat4, m: Mat4)
    requires Mat4Inverse(out, m).0 == 1
    ensures RowCol(m, Mat4Inverse(out, m).1, 0, 3) == 0.0
    ensures RowCol(Mat4Inverse(out, m).1, m, 0, 3) == 0.0
  {
    var det, c, inv := Determinant(m), Cofactors(m), Mat4Inverse(out, m).1;
    var d := 1.0 / det;
    assert det * d == 1.0;
    RightEntry03(m);
    LeftEntry03(m);
    ScaleDot(m[0], m[1], m[2], m[3], c[3], c[7], c[11], c[15], d);
    ScaleDot(c[0], c[1], c[2], c[3], m[3], m[7], m[11], m[15], d);
  }

  lemma InverseEntry10(out: Mat4, m: Mat4)
    requires Mat4Inverse(out, m).0 == 1
    ensures RowCol(m, Mat4Inverse(out, m).1, 1, 0) == 0.0
    ensures RowCol(Mat4Inverse(out, m).1, m, 1, 0) == 0.0
  {
    var det, c, inv := Determinant(m), Cofactors(m), Mat4Inverse(out, m).1;
    var d := 1.0 / det;
    assert det * d == 1.0;
    RightEntry10(m);
    LeftEntry10(m);
    ScaleDot(m[4], m[5], m[6], m[7], c[0], c[4], c[8], c[12], d);
    ScaleDot(c[4], c[5], c[6], c[7], m[0], m[4], m[8], m[12], d);
  }

  lemma InverseEntry11(out: Mat4, m: Mat4)
    requires Mat4Inverse(out, m).0 == 1
    ensures RowCol(m, Mat4Inverse(out, m).1, 1, 1) == 1.0
    ensures RowCol(Mat4Inverse(out, m).1, m, 1, 1) == 1.0
  {
    var det, c, inv := Determinant(m), Cofactors(m), Mat4Inverse(out, m).1;
    var d := 1.0 / det;
    assert det * d == 1.0;
    RightEntry11(m);
    LeftEntry11(m);
    ScaleDot(m[4], m[5], m[6], m[7], c[1], c[5], c[9], c[13], d);
    ScaleDot(c[4], c[5], c[6], c[7], m[1], m[5], m[9], m[13], d);
  }

  lemma InverseEntry12(out: Mat4, m: Mat4)
    requires Mat4Inverse(out, m).0 == 1
    ensures RowCol(m, Mat4Inverse(out, m).1, 1, 2) == 0.0
    ensures RowCol(Mat4Inverse(out, m).1, m, 1, 2) == 0.0
  {
    var det, c, inv := Determinant(m), Cofactors(m), Mat4Inverse(out, m).1;
    var d := 1.0 / det;
    assert det * d == 1.0;
    RightEntry12(m);
    LeftEntry12(m);
    ScaleDot(m[4], m[5], m[6], m[7], c[2], c[6], c[10], c[14], d);
    ScaleDot(c[4], c[5], c[6], c[7], m[2], m[6], m[10], m[14], d);
  }

  lemma InverseEntry13(out: Mat4, m: Mat4)
    requires Mat4Inverse(out, m).0 == 1
    ensures RowCol(m, Mat4Inverse(out, m).1, 1, 3) == 0.0
    ensures RowCol(Mat4Inverse(out, m).1, m, 1, 3) == 0.0
  {
    var det, c, inv := Determinant(m), Cofactors(m), Mat4Inverse(out, m).1;
    var d := 1.0 / det;
    assert det * d == 1.0;
    RightEntry13(m);
    LeftEntry13(m);
    ScaleDot(m[4], m[5], m[6], m[7], c[3], c[7], c[11], c[15], d);
    ScaleDot(c[4], c[5], c[6], c[7], m[3], m[7], m[11], m[15], d);
  }

  lemma InverseEntry20(out: Mat4, m: Mat4)
    requires Mat4Inverse(out, m).0 == 1
    ensures RowCol(m, Mat4Inverse(out, m).1, 2, 0) == 0.0
    ensures RowCol(Mat4Inverse(out, m).1, m, 2, 0) == 0.0
  {
    var det, c, inv := Determinant(m), Cofactors(m), Mat4Inverse(out, m).1;
    var d := 1.0 / det;
    assert det * d == 1.0;
    RightEntry20(m);
    LeftEntry20(m);
    ScaleDot(m[8], m[9], m[10], m[11], c[0], c[4], c[8], c[12], d);
    ScaleDot(c[8], c[9], c[10], c[11], m[0], m[4], m[8], m[12], d);
  }

  lemma InverseEntry21(out: Mat4, m: Mat4)
    requires Mat4Inverse(out, m).0 == 1
    ensures RowCol(m, Mat4Inverse(out, m).1, 2, 1) == 0.0
    ensures RowCol(Mat4Inverse(out, m).1, m, 2, 1) == 0.0
  {
    var det, c, inv := Determinant(m), Cofactors(m), Mat4Inverse(out, m).1;
    var d := 1.0 / det;
    assert det * d == 1.0;
    RightEntry21(m);
    LeftEntry21(m);
    ScaleDot(m[8], m[9], m[10], m[11], c[1], c[5], c[9], c[13], d);
    ScaleDot(c[8], c[9], c[10], c[11], m[1], m[5], m[9], m[13], d);
  }

  lemma InverseEntry22(out: Mat4, m: Mat4)
    requires Mat4Inverse(out, m).0 == 1
    ensures RowCol(m, Mat4Inverse(out, m).1, 2, 2) == 1.0
    ensures RowCol(Mat4Inverse(out, m).1, m, 2, 2) == 1.0
  {
    var det, c, inv := Determinant(m), Cofactors(m), Mat4Inverse(out, m).1;
    var d := 1.0 / det;
    assert det * d == 1.0;
    RightEntry22(m);
    LeftEntry22(m);
    ScaleDot(m[8], m[9], m[10], m[11], c[2], c[6], c[10], c[14], d);
    ScaleDot(c[8], c[9], c[10], c[11], m[2], m[6], m[10], m[14], d);
  }

  lemma InverseEntry23(out: Mat4, m: Mat4)
    requires Mat4Inverse(out, m).0 == 1
    ensures RowCol(m, Mat4Inverse(out, m).1, 2, 3) == 0.0
    ensures RowCol(Mat4Inverse(out, m).1, m, 2, 3) == 0.0
  {
    var det, c, inv := Determinant(m), Cofactors(m), Mat4Inverse(out, m).1;
    var d := 1.0 / det;
    assert det * d == 1.0;
    RightEntry23(m);
    LeftEntry23(m);
    ScaleDot(m[8], m[9], m[10], m[11], c[3], c[7], c[11], c[15], d);
    ScaleDot(c[8], c[9], c[10], c[11], m[3], m[7], m[11], m[15], d);
  }

  lemma InverseEntry30(out: Mat4, m: Mat4)
    requires Mat4Inverse(out, m).0 == 1
    ensures RowCol(m, Mat4Inverse(out, m).1, 3, 0) == 0.0
    ensures RowCol(Mat4Inverse(out, m).1, m, 3, 0) == 0.0
  {
    var det, c, inv := Determinant(m), Cofactors(m), Mat4Inverse(out, m).1;
    var d := 1.0 / det;
    assert det * d == 1.0;
    RightEntry30(m);
    LeftEntry30(m);
    ScaleDot(m[12], m[13], m[14], m[15], c[0], c[4], c[8], c[12], d);
    ScaleDot(c[12], c[13], c[14], c[15], m[0], m[4], m[8], m[12], d);
  }

  lemma InverseEntry31(out: Mat4, m: Mat4)
    requires Mat4Inverse(out, m).0 == 1
    ensures RowCol(m, Mat4Inverse(out, m).1, 3, 1) == 0.0
    ensures RowCol(Mat4Inverse(out, m).1, m, 3, 1) == 0.0
  {
    var det, c, inv := Determinant(m), Cofactors(m), Mat4Inverse(out, m).1;
    var d := 1.0 / det;
    assert det * d == 1.0;
    RightEntry31(m);
    LeftEntry31(m);
    ScaleDot(m[12], m[13], m[14], m[15], c[1], c[5], c[9], c[13], d);
    ScaleDot(c[12], c[13], c[14], c[15], m[1], m[5], m[9], m[13], d);
  }

  lemma InverseEntry32(out: Mat4, m: Mat4)
    requires Mat4Inverse(out, m).0 == 1
    ensures RowCol(m, Mat4Inverse(out, m).1, 3, 2) == 0.0
    ensures RowCol(Mat4Inverse(out, m).1, m, 3, 2) == 0.0
  {
    var det, c, inv := Determinant(m), Cofactors(m), Mat4Inverse(out, m).1;
    var d := 1.0 / det;
    assert det * d == 1.0;
    RightEntry32(m);
    LeftEntry32(m);
    ScaleDot(m[12], m[13], m[14], m[15], c[2], c[6], c[10], c[14], d);
    ScaleDot(c[12], c[13], c[14], c[15], m[2], m[6], m[10], m[14], d);
  }

  lemma InverseEntry33(out: Mat4, m: Mat4)
    requires Mat4Inverse(out, m).0 == 1
    ensures RowCol(m, Mat4Inverse(out, m).1, 3, 3) == 1.0
    ensures RowCol(Mat4Inverse(out, m).1, m, 3, 3) == 1.0
  {
    var det, c, inv := Determinant(m), Cofactors(m), Mat4Inverse(out, m).1;
    var d := 1.0 / det;
    assert det * d == 1.0;
    RightEntry33(m);
    LeftEntry33(m);
    ScaleDot(m[12], m[13], m[14], m[15], c[3], c[7], c[11], c[15], d);
    ScaleDot(c[12], c[13], c[14], c[15], m[3], m[7], m[11], m[15], d);
  }
}
