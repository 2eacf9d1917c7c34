/** The Python extension types Vector3, Quaternion and Matrix4x4 (py3dvector3.c, py3dquaternion.c,
    py3dmatrix4x4.c) reduced to their decisions: which argument forms a constructor accepts and
    in what order it tries them, which right operand selects which kernel routine, and which
    exception each failure raises. The values are immutable: every operation returns a new value
    and `self` is an argument that nothing changes. */
module Binding {
  import opened Wrappers
  import opened Util
  import opened Vector
  import opened Quaternion
  import opened Matrix
  import opened Py

  /* ---------------- Vector3 ---------------- */

  /** init_from_list: fewer than three items is a ValueError; otherwise the first three items
      are converted in order and the first conversion error is raised. */
  function Vector3FromList(items: seq<PyObj>, parse: FloatParser): Result<Vec3, Exc> {
    if |items| < 3 then Err(ValueError)
    else
      var x :- NumberFloat(items[0], parse);
      var y :- NumberFloat(items[1], parse);
      var z :- NumberFloat(items[2], parse);
      Ok(Vec3(x, y, z))
  }

  /** One key of init_from_dict: a missing key is a KeyError, a present one is converted. */
  function DictFloat(d: map<string, PyObj>, key: string, parse: FloatParser): Result<real, Exc> {
    if key in d then NumberFloat(d[key], parse) else Err(KeyError)
  }

  /** init_from_dict: the keys "x", "y" and "z" are read in that order; other keys are ignored. */
  function Vector3FromDict(d: map<string, PyObj>, parse: FloatParser): Result<Vec3, Exc> {
    var x :- DictFloat(d, "x", parse);
    var y :- DictFloat(d, "y", parse);
    var z :- DictFloat(d, "z", parse);
    Ok(Vec3(x, y, z))
  }

  /** Py3dVector3_Init: no arguments give the zero vector; one argument is tried as a list, then
      a dict, then a Vector3 to copy, and is otherwise a TypeError; any other arity must be three
      numbers ("fff"). */
  function Vector3Init(args: seq<PyObj>, parse: FloatParser): Result<Vec3, Exc> {
    if |args| == 0 then Ok(Vec3Fill(0.0))
    else if |args| == 1 then
      match args[0]
      case List(items) => Vector3FromList(items, parse)
      case Dict(d) => Vector3FromDict(d, parse)
      case Vector3Obj(v) => Ok(v)
      case _ => Err(TypeError)
    else if |args| == 3 then
      var x :- ArgFloat(args[0]);
      var y :- ArgFloat(args[1]);
      var z :- ArgFloat(args[2]);
      Ok(Vec3(x, y, z))
    else Err(TypeError)
  }

  /** `self + other`: only a Vector3 is accepted. */
  function Vector3AddOp(self: Vec3, other: PyObj): (r: Result<Vec3, Exc>)
    ensures r.Err? <==> !other.Vector3Obj?
    ensures r.Err? ==> r.error == TypeError
  {
    match other
    case Vector3Obj(w) => Ok(Vec3Add(self, w))
    case _ => Err(TypeError)
  }

  /** `self - other`: only a Vector3 is accepted. */
  function Vector3SubOp(self: Vec3, other: PyObj): (r: Result<Vec3, Exc>)
    ensures r.Err? <==> !other.Vector3Obj?
    ensures r.Err? ==> r.error == TypeError
  {
    match other
    case Vector3Obj(w) => Ok(Vec3Subtract(self, w))
    case _ => Err(TypeError)
  }

  /** The vector part of the row vector (v, 1) times m: what `v * matrix` returns. */
  function TransformPoint(v: Vec3, m: Mat4): Vec3 {
    var p := Mat4Vec4Mult(m, Vec4(v.x, v.y, v.z, 1.0));
    Vec3(p.x, p.y, p.z)
  }

  /** `self * other`: a Vector3 gives the cross product, a Quaternion the rotation, a Matrix4x4
      the transformed point; anything else must convert to a float and scales the vector, and a
      failed conversion of any kind becomes a TypeError. */
  function Vector3MultOp(self: Vec3, other: PyObj, parse: FloatParser): (r: Result<Vec3, Exc>)
    ensures r.Err? ==> r.error == TypeError
  {
    match other
    case Vector3Obj(w) => Ok(Vec3Cross(self, w))
    case QuaternionObj(q) => Ok(QuaternionVec3Rotation(self, q))
    case Matrix4x4Obj(m) => Ok(TransformPoint(self, m))
    case _ =>
      match NumberFloat(other, parse)
      case Ok(s) => Ok(Vec3Scalar(self, s))
      case Err(_) => Err(TypeError)
  }

  /** `self / other`: a value that does not convert to a float is a TypeError, exactly zero is a
      ZeroDivisionError, and anything else divides every component. */
  function Vector3DivOp(self: Vec3, other: PyObj, parse: FloatParser): (r: Result<Vec3, Exc>)
    ensures r.Err? ==> r.error == TypeError || r.error == ZeroDivisionError
    ensures r.Ok? <==> NumberFloat(other, parse).Ok? && NumberFloat(other, parse).value != 0.0
    ensures r.Ok? ==> Vec3Scalar(r.value, NumberFloat(other, parse).value) == self
  {
    match NumberFloat(other, parse)
    case Err(_) => Err(TypeError)
    case Ok(s) => if s == 0.0 then Err(ZeroDivisionError) else Ok(Vec3Divide(self, s))
  }

  /** `self.dot(other)`: exactly one Vector3 argument ("O!"). */
  function Vector3DotOp(self: Vec3, args: seq<PyObj>): (r: Result<real, Exc>)
    ensures r.Ok? <==> |args| == 1 && args[0].Vector3Obj?
    ensures r.Err? ==> r.error == TypeError
  {
    if |args| == 1 && args[0].Vector3Obj? then Ok(Vec3Dot(self, args[0].v)) else Err(TypeError)
  }

  function Vector3LengthOp(self: Vec3, m: Libm): real {
    Vec3Length(self, m)
  }

  /** `self.normalize()`: the kernel writes into a fresh zero vector, so a zero-length vector
      comes back as zero. */
  function Vector3NormalizeOp(self: Vec3, m: Libm): Vec3 {
    Vec3Normalize(Vec3Fill(0.0), self, m)
  }

  /** `Vector3.Fill(x)`: exactly one argument, converted by "f" (so a string is a TypeError). */
  function Vector3FillOp(args: seq<PyObj>): (r: Result<Vec3, Exc>)
    ensures r.Err? ==> r.error == TypeError
  {
    if |args| != 1 then Err(TypeError)
    else
      var value :- ArgFloat(args[0]);
      Ok(Vec3Fill(value))
  }

  function Vector3CopyOp(self: Vec3): Vec3 {
    self
  }

  /* ---------------- Quaternion ---------------- */

  /** init_from_list for four components. */
  function QuaternionFromList(items: seq<PyObj>, parse: FloatParser): Result<Quat, Exc> {
    if |items| < 4 then Err(ValueError)
    else
      var x :- NumberFloat(items[0], parse);
      var y :- NumberFloat(items[1], parse);
      var z :- NumberFloat(items[2], parse);
      var w :- NumberFloat(items[3], parse);
      Ok(Quat(x, y, z, w))
  }

  /** init_from_dict for the keys "x", "y", "z" and "w", in that order. */
  function QuaternionFromDict(d: map<string, PyObj>, parse: FloatParser): Result<Quat, Exc> {
    var x :- DictFloat(d, "x", parse);
    var y :- DictFloat(d, "y", parse);
    var z :- DictFloat(d, "z", parse);
    var w :- DictFloat(d, "w", parse);
    Ok(Quat(x, y, z, w))
  }

  /** Py3dQuaternion_Init: no arguments give the identity; one argument is tried as a list, then
      a dict, then a Quaternion to copy; otherwise four numbers ("ffff"). */
  function QuaternionInit(args: seq<PyObj>, parse: FloatParser): Result<Quat, Exc> {
    if |args| == 0 then Ok(QuaternionIdentity())
    else if |args| == 1 then
      match args[0]
      case List(items) => QuaternionFromList(items, parse)
      case Dict(d) => QuaternionFromDict(d, parse)
      case QuaternionObj(q) => Ok(q)
      case _ => Err(TypeError)
    else if |args| == 4 then
      var x :- ArgFloat(args[0]);
      var y :- ArgFloat(args[1]);
      var z :- ArgFloat(args[2]);
      var w :- ArgFloat(args[3]);
      Ok(Quat(x, y, z, w))
    else Err(TypeError)
  }

  /** `self * other`: only a Quaternion, and the product is self first. */
  function QuaternionMultOp(self: Quat, other: PyObj): (r: Result<Quat, Exc>)
    ensures r.Err? <==> !other.QuaternionObj?
    ensures r.Err? ==> r.error == TypeError
  {
    match other
    case QuaternionObj(q) => Ok(QuaternionMult(self, q))
    case _ => Err(TypeError)
  }

  /** `self.normalize()` as written: the kernel is called with the fresh result, which holds the
      identity, as the array whose length it divides by. */
  function QuaternionNormalizeOp(self: Quat, m: Libm): Quat
    requires m.sqrt(1.0) != 0.0
  {
    assert NormSquared(QuaternionIdentity()) == 1.0;
    QuaternionNormalize(QuaternionIdentity(), self, m)
  }

  /** `self.normalize()` as intended: self divided by its own length. */
  function QuaternionNormalizeFixed(self: Quat, m: Libm): (r: Quat)
    requires m.sqrt(NormSquared(self)) != 0.0
    ensures var len := m.sqrt(NormSquared(self));
            Quat(r.x * len, r.y * len, r.z * len, r.w * len) == self
  {
    QuaternionNormalize(self, self, m)
  }

  /** The first argument of `Quaternion.FromAxisAndDegrees`, when it is a Vector3 and the second
      converts by "f", must not make the quaternion the kernel normalizes zero (a zero axis
      turned by 180 degrees); the kernel would divide by zero. */
  ghost predicate AxisAngleDefined(args: seq<PyObj>, m: Libm) {
    |args| == 2 && args[0].Vector3Obj? && ArgFloat(args[1]).Ok? ==>
      var v := args[0].v;
      m.sqrt(NormSquared(AxisAngleRaw(v.x, v.y, v.z, ArgFloat(args[1]).value, m))) != 0.0
  }

  /** `Quaternion.FromAxisAndDegrees(axis, angle)`: a Vector3 and a number ("O!f"). */
  function QuaternionFromAxisAndDegreesOp(args: seq<PyObj>, m: Libm): (r: Result<Quat, Exc>)
    requires AxisAngleDefined(args, m)
    ensures r.Ok? <==> |args| == 2 && args[0].Vector3Obj? && ArgFloat(args[1]).Ok?
    ensures r.Err? ==> r.error == TypeError
  {
    if |args| != 2 || !args[0].Vector3Obj? then Err(TypeError)
    else
      var angle :- ArgFloat(args[1]);
      var v := args[0].v;
      Ok(QuaternionFromAxisAngle(v.x, v.y, v.z, angle, m))
  }

  /* ---------------- Matrix4x4 ---------------- */

  /** Py3dMatrix4x4_Init ignores its arguments. */
  function Matrix4x4Init(args: seq<PyObj>): Mat4 {
    Mat4Identity()
  }

  /** `self * other`: only a Matrix4x4, and the product is self first. */
  function Matrix4x4MultOp(self: Mat4, other: PyObj): (r: Result<Mat4, Exc>)
    ensures r.Err? <==> !other.Matrix4x4Obj?
    ensures r.Err? ==> r.error == TypeError
  {
    match other
    case Matrix4x4Obj(b) => Ok(Mat4Mult(self, b))
    case _ => Err(TypeError)
  }

  /** `self.inverse()`: the kernel's failure flag becomes an ArithmeticError. */
  function Matrix4x4InverseOp(self: Mat4): (r: Result<Mat4, Exc>)
    ensures r.Err? <==> Determinant(self) == 0.0
    ensures r.Err? ==> r.error == ArithmeticError
  {
    var (status, inv) := Mat4Inverse(Mat4Identity(), self);
    if status == 0 then Err(ArithmeticError) else Ok(inv)
  }

  /** `Matrix4x4.Fill(x)`: one argument of any kind ("O"), converted with PyNumber_Float, so a
      numeric string is accepted and the conversion's own error is raised. */
  function Matrix4x4FillOp(args: seq<PyObj>, parse: FloatParser): Result<Mat4, Exc> {
    if |args| != 1 then Err(TypeError)
    else
      var value :- NumberFloat(args[0], parse);
      Ok(Mat4Fill(value))
  }

  /** The single Vector3 argument of Translation and Scaling ("O!"). */
  function OneVector3(args: seq<PyObj>): (r: Result<Vec3, Exc>)
    ensures r.Ok? <==> |args| == 1 && args[0].Vector3Obj?
    ensures r.Ok? ==> r.value == args[0].v
    ensures r.Err? ==> r.error == TypeError
  {
    if |args| == 1 && args[0].Vector3Obj? then Ok(args[0].v) else Err(TypeError)
  }

  function Matrix4x4TranslationOp(args: seq<PyObj>): (r: Result<Mat4, Exc>)
    ensures r.Ok? <==> |args| == 1 && args[0].Vector3Obj?
    ensures r.Ok? ==> r.value == Mat4Translation(args[0].v)
    ensures r.Err? ==> r.error == TypeError
  {
    var v :- OneVector3(args);
    Ok(Mat4Translation(v))
  }

  function Matrix4x4ScalingOp(args: seq<PyObj>): (r: Result<Mat4, Exc>)
    ensures r.Ok? <==> |args| == 1 && args[0].Vector3Obj?
    ensures r.Ok? ==> r.value == Mat4Scaling(args[0].v)
    ensures r.Err? ==> r.error == TypeError
  {
    var v :- OneVector3(args);
    Ok(Mat4Scaling(v))
  }

  /** do_Rotation_Matrix: the single argument is converted first, and only then is the axis
      character inspected; one other than 'x', 'y' or 'z' is an AssertionError. */
  function RotationMatrix(axis: char, args: seq<PyObj>, m: Libm, parse: FloatParser): Result<Mat4, Exc> {
    if |args| != 1 then Err(TypeError)
    else
      var theta :- NumberFloat(args[0], parse);
      match axis
      case 'x' => Ok(Mat4RotationX(theta, m))
      case 'y' => Ok(Mat4RotationY(theta, m))
      case 'z' => Ok(Mat4RotationZ(theta, m))
      case _ => Err(AssertionError)
  }

  function Matrix4x4RotationXOp(args: seq<PyObj>, m: Libm, parse: FloatParser): (r: Result<Mat4, Exc>)
    ensures r.Ok? <==> |args| == 1 && NumberFloat(args[0], parse).Ok?
    ensures r.Ok? ==> r.value == Mat4RotationX(NumberFloat(args[0], parse).value, m)
    ensures r.Err? && |args| == 1 ==> r.error == NumberFloat(args[0], parse).error
    ensures |args| != 1 ==> r == Err(TypeError)
  {
    RotationMatrix('x', args, m, parse)
  }

  function Matrix4x4RotationYOp(args: seq<PyObj>, m: Libm, parse: FloatParser): (r: Result<Mat4, Exc>)
    ensures r.Ok? <==> |args| == 1 && NumberFloat(args[0], parse).Ok?
    ensures r.Ok? ==> r.value == Mat4RotationY(NumberFloat(args[0], parse).value, m)
    ensures r.Err? && |args| == 1 ==> r.error == NumberFloat(args[0], parse).error
    ensures |args| != 1 ==> r == Err(TypeError)
  {
    RotationMatrix('y', args, m, parse)
  }

  function Matrix4x4RotationZOp(args: seq<PyObj>, m: Libm, parse: FloatParser): (r: Result<Mat4, Exc>)
    ensures r.Ok? <==> |args| == 1 && NumberFloat(args[0], parse).Ok?
    ensures r.Ok? ==> r.value == Mat4RotationZ(NumberFloat(args[0], parse).value, m)
    ensures r.Err? && |args| == 1 ==> r.error == NumberFloat(args[0], parse).error
    ensures |args| != 1 ==> r == Err(TypeError)
  {
    RotationMatrix('z', args, m, parse)
  }

  /** A Vector3 given to RotationAxis must not have length zero: the kernel divides by it. */
  ghost predicate AxisDefined(args: seq<PyObj>, m: Libm) {
    |args| == 2 && args[0].Vector3Obj? ==> AxisLength(args[0].v, m) != 0.0
  }

  /** `Matrix4x4.RotationAxis(axis, theta)`: a Vector3 and any object ("O!O"), the second
      converted with PyNumber_Float. */
  function Matrix4x4RotationAxisOp(args: seq<PyObj>, m: Libm, parse: FloatParser): (r: Result<Mat4, Exc>)
    requires AxisDefined(args, m)
    ensures r.Ok? <==> |args| == 2 && args[0].Vector3Obj? && NumberFloat(args[1], parse).Ok?
    ensures r.Ok? ==> r.value == Mat4RotationAxis(args[0].v, NumberFloat(args[1], parse).value, m)
    ensures |args| != 2 || !args[0].Vector3Obj? ==> r == Err(TypeError)
  {
    if |args| != 2 || !args[0].Vector3Obj? then Err(TypeError)
    else
      var theta :- NumberFloat(args[1], parse);
      Ok(Mat4RotationAxis(args[0].v, theta, m))
  }

  /** `Matrix4x4.RotationQuaternion(q, _)`: the format is "O!O", so exactly two arguments are
      required. Only the storage for the first is passed, so where the second goes is undefined
      in C; the model takes the call to succeed and ignore it. */
  function Matrix4x4RotationQuaternionOp(args: seq<PyObj>): (r: Result<Mat4, Exc>)
    ensures r.Ok? <==> |args| == 2 && args[0].QuaternionObj?
    ensures r.Ok? ==> r.value == Mat4RotationQuaternion(args[0].q)
    ensures r.Err? ==> r.error == TypeError
  {
    if |args| == 2 && args[0].QuaternionObj? then Ok(Mat4RotationQuaternion(args[0].q)) else Err(TypeError)
  }

  /** `Matrix4x4.RotationQuaternion(q)` as intended: exactly one Quaternion ("O!"). */
  function Matrix4x4RotationQuaternionFixed(args: seq<PyObj>): (r: Result<Mat4, Exc>)
    ensures r.Ok? <==> |args| == 1 && args[0].QuaternionObj?
    ensures r.Ok? ==> r.value == Matrix4x4RotationQuaternionOp([args[0], NoneObj]).value
    ensures r.Err? ==> r.error == TypeError
  {
    if |args| == 1 && args[0].QuaternionObj? then Ok(Mat4RotationQuaternion(args[0].q)) else Err(TypeError)
  }

  /** `Matrix4x4.LookAtLH(pos, target, up)`: three Vector3 arguments ("O!O!O!"). */
  function Matrix4x4LookAtLHOp(args: seq<PyObj>, m: Libm): (r: Result<Mat4, Exc>)
    ensures r.Ok? <==> |args| == 3 && args[0].Vector3Obj? && args[1].Vector3Obj? && args[2].Vector3Obj?
    ensures r.Ok? ==> r.value == Mat4LookAtLH(args[0].v, args[1].v, args[2].v, m)
    ensures r.Err? ==> r.error == TypeError
  {
    if |args| == 3 && args[0].Vector3Obj? && args[1].Vector3Obj? && args[2].Vector3Obj? then
      Ok(Mat4LookAtLH(args[0].v, args[1].v, args[2].v, m))
    else Err(TypeError)
  }

  function Matrix4x4CopyOp(self: Mat4): Mat4 {
    self
  }

  /** `self.transpose()`: entry (i, j) of the result is entry (j, i) of self. */
  function Matrix4x4TransposeOp(self: Mat4): (r: Mat4)
    ensures forall i, j | 0 <= i < 4 && 0 <= j < 4 :: Get(r, i, j) == Get(self, j, i)
  {
    Mat4Transpose(self)
  }

  /* ---------------- Reflected operands ---------------- */

  /** The number-protocol slots of the three types. Python evaluates `left op right` by trying
      the left operand's slot first; a number, string, container or other foreign object has no
      slot that accepts these types, so the right operand's slot then runs with the foreign
      object as `self`. */
  datatype Slot = Vector3Plus | Vector3Minus | Vector3Times | QuaternionTimes | Matrix4x4Times

  /** Whether `o` is of the type that owns the slot. */
  predicate OwnType(slot: Slot, o: PyObj) {
    match slot
    case QuaternionTimes => o.QuaternionObj?
    case Matrix4x4Times => o.Matrix4x4Obj?
    case _ => o.Vector3Obj?
  }

  /** An object of none of the three extension types. */
  predicate Foreign(o: PyObj) {
    !o.Vector3Obj? && !o.QuaternionObj? && !o.Matrix4x4Obj?
  }

  /** What the slots read when `self` is not of their type: the object's memory taken as the
      type's elements. The C leaves it undefined, so the model fixes nothing about it. */
  datatype Reinterpret = Reinterpret(asVec3: PyObj -> Vec3, asQuat: PyObj -> Quat, asMat4: PyObj -> Mat4)

  /** The slot called with a `self` of its own type: the operations above. */
  function Forward(slot: Slot, self: PyObj, other: PyObj, parse: FloatParser): Result<PyObj, Exc>
    requires OwnType(slot, self)
  {
    match slot
    case Vector3Plus => var r :- Vector3AddOp(self.v, other); Ok(Vector3Obj(r))
    case Vector3Minus => var r :- Vector3SubOp(self.v, other); Ok(Vector3Obj(r))
    case Vector3Times => var r :- Vector3MultOp(self.v, other, parse); Ok(Vector3Obj(r))
    case QuaternionTimes => var r :- QuaternionMultOp(self.q, other); Ok(QuaternionObj(r))
    case Matrix4x4Times => var r :- Matrix4x4MultOp(self.m, other); Ok(Matrix4x4Obj(r))
  }

  /** `self` as the slot sees it: unchanged when of its own type, otherwise reinterpreted. */
  function SeenAs(slot: Slot, self: PyObj, bytes: Reinterpret): (r: PyObj)
    ensures OwnType(slot, r)
    ensures OwnType(slot, self) ==> r == self
  {
    if OwnType(slot, self) then self
    else match slot
      case QuaternionTimes => QuaternionObj(bytes.asQuat(self))
      case Matrix4x4Times => Matrix4x4Obj(bytes.asMat4(self))
      case _ => Vector3Obj(bytes.asVec3(self))
  }

  /** A slot as written: only `other` is checked, and `self` is cast to the slot's type. */
  function SlotAsWritten(slot: Slot, self: PyObj, other: PyObj, bytes: Reinterpret, parse: FloatParser): (r: Result<PyObj, Exc>)
    ensures OwnType(slot, self) ==> r == Forward(slot, self, other, parse)
  {
    Forward(slot, SeenAs(slot, self, bytes), other, parse)
  }

  /** A slot that also checks `self`: a foreign `self` gives NotImplemented, and with neither
      operand accepting, Python raises TypeError. */
  function CheckedSlot(slot: Slot, self: PyObj, other: PyObj, parse: FloatParser): (r: Result<PyObj, Exc>)
    ensures !OwnType(slot, self) ==> r == Err(TypeError)
    ensures forall bytes: Reinterpret {:trigger SlotAsWritten(slot, self, other, bytes, parse)} ::
              OwnType(slot, self) ==> r == SlotAsWritten(slot, self, other, bytes, parse)
  {
    if OwnType(slot, self) then Forward(slot, self, other, parse) else Err(TypeError)
  }

  /* ---------------- Laws ---------------- */

  /** A list of three floats builds the vector they spell; items past the third are ignored. */
  lemma Vector3InitFromList(v: Vec3, rest: seq<PyObj>, parse: FloatParser)
    ensures Vector3Init([List([Float(v.x), Float(v.y), Float(v.z)] + rest)], parse) == Ok(v)
  {
  }

  /** A list shorter than three items is a ValueError, whatever the items are. */
  lemma Vector3InitShortList(items: seq<PyObj>, parse: FloatParser)
    requires |items| < 3
    ensures Vector3Init([List(items)], parse) == Err(ValueError)
  {
  }

  /** A dict holding "x", "y" and "z" as floats builds that vector, whatever else it holds;
      a dict without "x" is a KeyError whatever else it holds. */
  lemma Vector3InitFromDict(v: Vec3, d: map<string, PyObj>, parse: FloatParser)
    ensures "x" in d && "y" in d && "z" in d && d["x"] == Float(v.x) && d["y"] == Float(v.y) && d["z"] == Float(v.z)
            ==> Vector3Init([Dict(d)], parse) == Ok(v)
    ensures "x" !in d ==> Vector3Init([Dict(d)], parse) == Err(KeyError)
  {
  }

  /** Copy construction and the three-float form both give back the vector given. */
  lemma Vector3InitCopies(v: Vec3, parse: FloatParser)
    ensures Vector3Init([Vector3Obj(v)], parse) == Ok(v)
    ensures Vector3Init([Float(v.x), Float(v.y), Float(v.z)], parse) == Ok(v)
    ensures Vector3Init([], parse) == Ok(Vec3(0.0, 0.0, 0.0))
  {
  }

  /** Only the arities 0, 1 and 3 can succeed, and a string is never one of three components. */
  lemma Vector3InitArity(args: seq<PyObj>, parse: FloatParser)
    ensures Vector3Init(args, parse).Ok? ==> |args| == 0 || |args| == 1 || |args| == 3
    ensures |args| == 3 && (args[0].Str? || args[1].Str? || args[2].Str?) ==> Vector3Init(args, parse) == Err(TypeError)
  {
  }

  /** Adding a vector and then subtracting it gives back the original. */
  lemma Vector3AddThenSub(v: Vec3, w: Vec3)
    ensures Vector3AddOp(v, Vector3Obj(w)).Ok?
    ensures Vector3SubOp(Vector3AddOp(v, Vector3Obj(w)).value, Vector3Obj(w)) == Ok(v)
  {
    AddSubtractInverse(v, w);
  }

  /** Dividing by a number and multiplying by the same number gives back the original. */
  lemma Vector3DivThenMult(v: Vec3, other: PyObj, parse: FloatParser)
    requires Vector3DivOp(v, other, parse).Ok?
    ensures Vector3MultOp(Vector3DivOp(v, other, parse).value, other, parse) == Ok(v)
  {
  }

  /** Multiplying by a translation matrix moves the point by the translation. */
  lemma Vector3MultTranslation(v: Vec3, t: Vec3, parse: FloatParser)
    ensures Vector3MultOp(v, Matrix4x4Obj(Mat4Translation(t)), parse) == Ok(Vec3Add(v, t))
  {
    TranslationMovesPoints(t, v);
  }

  /** Multiplying by a product of matrices is multiplying by each in turn, left factor first,
      provided the left factor is affine: the binding drops the fourth coordinate after each
      product and puts back 1, which is only the right value when the fourth column of the
      matrix is (0, 0, 0, 1). */
  lemma Vector3MultComposes(v: Vec3, a: Mat4, b: Mat4, parse: FloatParser)
    requires a[3] == 0.0 && a[7] == 0.0 && a[11] == 0.0 && a[15] == 1.0
    ensures Vector3MultOp(v, Matrix4x4Obj(Mat4Mult(a, b)), parse)
         == Vector3MultOp(Vector3MultOp(v, Matrix4x4Obj(a), parse).value, Matrix4x4Obj(b), parse)
  {
    TransformPointComposes(v, a, b);
  }

  /** The point form of the composition law, for an affine left factor. */
  lemma TransformPointComposes(v: Vec3, a: Mat4, b: Mat4)
    requires a[3] == 0.0 && a[7] == 0.0 && a[11] == 0.0 && a[15] == 1.0
    ensures TransformPoint(v, Mat4Mult(a, b)) == TransformPoint(TransformPoint(v, a), b)
  {
    var p := Vec4(v.x, v.y, v.z, 1.0);
    Vec4MultComposes(a, b, p);
    var t := TransformPoint(v, a);
    assert Mat4Vec4Mult(a, p) == Vec4(t.x, t.y, t.z, 1.0);
  }

  /** Multiplying by the identity quaternion leaves the vector alone; multiplying by a vector is
      anticommutative. */
  lemma Vector3MultIdentityAndCross(v: Vec3, w: Vec3, parse: FloatParser)
    ensures Vector3MultOp(v, QuaternionObj(QuaternionIdentity()), parse) == Ok(v)
    ensures Vector3MultOp(v, Vector3Obj(w), parse) == Ok(Vec3Scalar(Vector3MultOp(w, Vector3Obj(v), parse).value, -1.0))
  {
    RotationByIdentity(v);
    CrossLaws(v, w);
  }

  /** Fill is stricter than the matrix's Fill: a numeric string fills a matrix but is a
      TypeError for a vector. */
  lemma FillStringAsymmetry(str: string, x: real, parse: FloatParser)
    requires parse(str) == Some(x)
    ensures Vector3FillOp([Str(str)]) == Err(TypeError)
    ensures Matrix4x4FillOp([Str(str)], parse) == Ok(Mat4Fill(x))
  {
  }

  /** As written, `normalize` divides by the length of the identity, which is 1, so with a square
      root that maps 1 to 1 it returns the quaternion unchanged. */
  lemma QuaternionNormalizeIsCopy(q: Quat, m: Libm)
    requires m.sqrt(1.0) == 1.0
    ensures QuaternionNormalizeOp(q, m) == q
  {
    assert NormSquared(QuaternionIdentity()) == 1.0;
  }

  /** A concrete witness: (0, 0, 0, 2) has length 2 but `normalize` returns it as it is, while
      the corrected operation halves it. */
  lemma QuaternionNormalizeCounterexample(m: Libm)
    requires m.sqrt(1.0) == 1.0 && m.sqrt(4.0) == 2.0
    ensures QuaternionNormalizeOp(Quat(0.0, 0.0, 0.0, 2.0), m) == Quat(0.0, 0.0, 0.0, 2.0)
    ensures QuaternionNormalizeFixed(Quat(0.0, 0.0, 0.0, 2.0), m) == Quat(0.0, 0.0, 0.0, 1.0)
  {
    QuaternionNormalizeIsCopy(Quat(0.0, 0.0, 0.0, 2.0), m);
    assert NormSquared(Quat(0.0, 0.0, 0.0, 2.0)) == 4.0;
  }

  /** A successful `inverse` is a two-sided inverse under the binding's own product. */
  lemma Matrix4x4InverseIsInverse(a: Mat4)
    requires Matrix4x4InverseOp(a).Ok?
    ensures Matrix4x4MultOp(a, Matrix4x4Obj(Matrix4x4InverseOp(a).value)) == Ok(Mat4Identity())
    ensures Matrix4x4MultOp(Matrix4x4InverseOp(a).value, Matrix4x4Obj(a)) == Ok(Mat4Identity())
  {
    InverseIsInverse(Mat4Identity(), a);
  }

  /** The rotation constructors raise AssertionError only once their argument has converted,
      and then exactly for an axis character other than 'x', 'y' and 'z'. */
  lemma RotationMatrixErrors(axis: char, args: seq<PyObj>, m: Libm, parse: FloatParser)
    ensures RotationMatrix(axis, args, m, parse) == Err(AssertionError)
        <==> |args| == 1 && NumberFloat(args[0], parse).Ok? && axis != 'x' && axis != 'y' && axis != 'z'
    ensures axis == 'x' || axis == 'y' || axis == 'z' ==>
              (RotationMatrix(axis, args, m, parse).Ok? <==> |args| == 1 && NumberFloat(args[0], parse).Ok?)
  {
  }

  /** The view matrix LookAtLH returns sends the camera position to the origin. */
  lemma Matrix4x4LookAtSendsEyeToOrigin(pos: Vec3, target: Vec3, up: Vec3, m: Libm, parse: FloatParser)
    ensures Matrix4x4LookAtLHOp([Vector3Obj(pos), Vector3Obj(target), Vector3Obj(up)], m).Ok?
    ensures Vector3MultOp(pos, Matrix4x4Obj(Matrix4x4LookAtLHOp([Vector3Obj(pos), Vector3Obj(target), Vector3Obj(up)], m).value), parse)
         == Ok(Vec3(0.0, 0.0, 0.0))
  {
    LookAtSendsEyeToOrigin(pos, target, up, m);
  }

  /** A quaternion built from a zero angle is the identity, and converts to the identity matrix. */
  lemma FromAxisAndDegreesZero(axis: Vec3, m: Libm)
    requires m.sin(0.0) == 0.0 && m.cos(0.0) == 1.0 && m.sqrt(1.0) == 1.0
    ensures AxisAngleDefined([Vector3Obj(axis), Float(0.0)], m)
    ensures QuaternionFromAxisAndDegreesOp([Vector3Obj(axis), Float(0.0)], m) == Ok(QuaternionIdentity())
    ensures Matrix4x4RotationQuaternionOp([QuaternionObj(QuaternionIdentity()), NoneObj]) == Ok(Mat4Identity())
  {
    FromAxisAngleZero(axis.x, axis.y, axis.z, m);
    RotationQuaternionOfScalar(1.0);
  }

  /** The quaternion constructor's forms: no arguments give the identity; a list of four floats,
      a copy and four floats give the quaternion they spell; a list shorter than four is a
      ValueError, a dict without "x" a KeyError, and a tuple a TypeError. */
  lemma QuaternionInitForms(q: Quat, rest: seq<PyObj>, items: seq<PyObj>, d: map<string, PyObj>, parse: FloatParser)
    ensures QuaternionInit([], parse) == Ok(QuaternionIdentity())
    ensures QuaternionInit([List([Float(q.x), Float(q.y), Float(q.z), Float(q.w)] + rest)], parse) == Ok(q)
    ensures QuaternionInit([QuaternionObj(q)], parse) == Ok(q)
    ensures QuaternionInit([Float(q.x), Float(q.y), Float(q.z), Float(q.w)], parse) == Ok(q)
    ensures |items| < 4 ==> QuaternionInit([List(items)], parse) == Err(ValueError)
    ensures "x" !in d ==> QuaternionInit([Dict(d)], parse) == Err(KeyError)
    ensures QuaternionInit([Tuple(items)], parse) == Err(TypeError)
  {
  }

  /** The matrix constructor gives the identity whatever it is passed. */
  lemma Matrix4x4InitIgnoresArgs(args: seq<PyObj>)
    ensures Matrix4x4Init(args) == Matrix4x4Init([]) == Mat4Identity()
  {
  }

  /** `normalize` gives a vector of the same direction whose length scales back to the
      original, and the zero vector comes back as zero. */
  lemma Vector3NormalizeScalesBack(v: Vec3, m: Libm)
    ensures Vec3Length(v, m) != 0.0 ==> Vec3Scalar(Vector3NormalizeOp(v, m), Vec3Length(v, m)) == v
    ensures m.sqrt(0.0) == 0.0 ==> Vector3NormalizeOp(Vec3(0.0, 0.0, 0.0), m) == Vec3(0.0, 0.0, 0.0)
  {
    if m.sqrt(0.0) == 0.0 {
      assert Vec3Length(Vec3(0.0, 0.0, 0.0), m) == 0.0 by {
        assert Vec3Dot(Vec3(0.0, 0.0, 0.0), Vec3(0.0, 0.0, 0.0)) == 0.0;
      }
    }
  }

  /** As written, every reflected call with an operand of the slot's type succeeds: `1 + v`,
      `2 - v`, `2.0 * v`, `"a" * v`, `2.0 * q` and `2 * m` all return a value computed from
      the foreign object's memory, where the corrected slot raises TypeError. */
  lemma ReflectedOperandAccepted(slot: Slot, left: PyObj, right: PyObj, bytes: Reinterpret, parse: FloatParser)
    requires Foreign(left) && OwnType(slot, right)
    ensures SlotAsWritten(slot, left, right, bytes, parse).Ok?
    ensures CheckedSlot(slot, left, right, parse) == Err(TypeError)
  {
  }

  /** `2.0 * (1, 0, 0)` as written is a cross product with (1, 0, 0), so its x component is 0
      whatever memory is read, while `(1, 0, 0) * 2.0` scales to (2, 0, 0). */
  lemma ReflectedScaleCounterexample(bytes: Reinterpret, parse: FloatParser)
    ensures var r := SlotAsWritten(Vector3Times, Float(2.0), Vector3Obj(Vec3(1.0, 0.0, 0.0)), bytes, parse);
            r.Ok? && r.value.Vector3Obj? && r.value.v.x == 0.0
    ensures Vector3MultOp(Vec3(1.0, 0.0, 0.0), Float(2.0), parse) == Ok(Vec3(2.0, 0.0, 0.0))
  {
  }
}
