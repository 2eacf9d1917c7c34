/** transform.py: a position, an orientation and a scale, and the world matrix and its inverse
    cached from them. The values go through the Vector3, Quaternion and Matrix4x4 bindings exactly
    as the Python code calls them. */
module Transform {
  import opened Wrappers
  import opened Util
  import opened Vector
  import opened Quaternion
  import opened Matrix
  import opened Py
  import opened Binding
  import opened JsonUtil
  import opened ResourceImport

  /** A Transform object: `worldMatrix` and `witMatrix` are the attributes `_w_mtx` and
      `_wit_mtx` that the properties of the same names read. */
  datatype Transform = Transform(position: Vec3, orientation: Quat, scale: Vec3,
                                 worldMatrix: Option<Mat4>, witMatrix: Option<Mat4>)

  /** The default arguments of the constructor: Vector3(), Quaternion() and Vector3(1, 1, 1). */
  function DefaultArgs(): (PyObj, PyObj, PyObj) {
    (Vector3Obj(Vec3(0.0, 0.0, 0.0)), QuaternionObj(QuaternionIdentity()), Vector3Obj(Vec3(1.0, 1.0, 1.0)))
  }

  /** The world matrix of a transform, in the kernel's terms: scaling times rotation times
      translation. */
  function World(t: Transform): Mat4 {
    Mat4Mult(Mat4Mult(Mat4Scaling(t.scale), Mat4RotationQuaternion(t.orientation)), Mat4Translation(t.position))
  }

  /** The world matrix (scaling times rotation) times translation, through the binding's
      constructors and products, given what the RotationQuaternion call returned, and the
      inverse of the world matrix. */
  function WorldMatrices(t: Transform, rotation: Result<Mat4, Exc>): (r: Result<(Mat4, Mat4), Exc>)
    ensures rotation.Err? ==> r == Err(rotation.error)
  {
    var s := Matrix4x4ScalingOp([Vector3Obj(t.scale)]).value;
    var rot :- rotation;
    var tr := Matrix4x4TranslationOp([Vector3Obj(t.position)]).value;
    var sr := Matrix4x4MultOp(s, Matrix4x4Obj(rot)).value;
    var w := Matrix4x4MultOp(sr, Matrix4x4Obj(tr)).value;
    var inv :- Matrix4x4InverseOp(w);
    Ok((w, inv))
  }

  /** _refresh_matrix_cache as intended: RotationQuaternion takes the orientation alone and the
      inverse is stored where `wit_matrix` reads it. */
  function RefreshMatrixCache(t: Transform): (r: Result<Transform, Exc>)
    ensures r.Ok? ==> r.value.position == t.position && r.value.orientation == t.orientation
                      && r.value.scale == t.scale
    ensures r.Ok? ==> r.value.worldMatrix == Some(World(t))
    ensures r.Ok? ==> r.value.witMatrix == Some(Mat4Inverse(Mat4Identity(), World(t)).1)
    ensures r.Err? <==> Determinant(World(t)) == 0.0
    ensures r.Err? ==> r.error == ArithmeticError
  {
    var (w, inv) :- WorldMatrices(t, Matrix4x4RotationQuaternionFixed([QuaternionObj(t.orientation)]));
    Ok(t.(worldMatrix := Some(w), witMatrix := Some(inv)))
  }

  /** _refresh_matrix_cache as written: RotationQuaternion is given one argument, which the binding
      refuses with a TypeError before anything is cached; and were it accepted, the inverse would
      go to `_wit_matrix`, an attribute nothing reads. */
  function RefreshMatrixCacheAsWritten(t: Transform): Result<Transform, Exc> {
    var (w, inv) :- WorldMatrices(t, Matrix4x4RotationQuaternionOp([QuaternionObj(t.orientation)]));
    Ok(t.(worldMatrix := Some(w)))
  }

  /** The as-written refresh with only the argument count repaired: the inverse still goes to the
      unread attribute and `_wit_mtx` keeps its value. */
  function RefreshMatrixCacheStray(t: Transform): (r: Result<Transform, Exc>)
    ensures r.Ok? ==> r.value.witMatrix == t.witMatrix
  {
    var (w, inv) :- WorldMatrices(t, Matrix4x4RotationQuaternionFixed([QuaternionObj(t.orientation)]));
    Ok(t.(worldMatrix := Some(w)))
  }

  /** Transform.__init__: each argument is copied through its value constructor, both caches
      start empty, and the cache is refreshed. */
  function TransformInit(position: PyObj, orientation: PyObj, scale: PyObj, parse: FloatParser): (r: Result<Transform, Exc>)
    ensures r.Ok? ==> Vector3Init([position], parse) == Ok(r.value.position)
    ensures r.Ok? ==> QuaternionInit([orientation], parse) == Ok(r.value.orientation)
    ensures r.Ok? ==> Vector3Init([scale], parse) == Ok(r.value.scale)
    ensures r.Ok? ==> r.value.worldMatrix.Some? && r.value.witMatrix.Some?
  {
    var p :- Vector3Init([position], parse);
    var o :- QuaternionInit([orientation], parse);
    var s :- Vector3Init([scale], parse);
    RefreshMatrixCache(Transform(p, o, s, None, None))
  }

  /** Transform.__init__ as written, with the refresh that cannot succeed. */
  function TransformInitAsWritten(position: PyObj, orientation: PyObj, scale: PyObj, parse: FloatParser): Result<Transform, Exc> {
    var p :- Vector3Init([position], parse);
    var o :- QuaternionInit([orientation], parse);
    var s :- Vector3Init([scale], parse);
    RefreshMatrixCacheAsWritten(Transform(p, o, s, None, None))
  }

  /** import_transform: a default Transform whose three fields are then replaced. */
  function ImportTransform(json: map<string, PyObj>, parse: FloatParser): Result<Transform, Exc> {
    var (dp, doo, ds) := DefaultArgs();
    var t :- TransformInit(dp, doo, ds, parse);
    ImportFields(t, json, parse)
  }

  /** The field replacement of import_transform: each of "position", "orientation" and "scale"
      must hold a dict, which goes through the value constructor; the caches are left alone. */
  function ImportFields(t: Transform, json: map<string, PyObj>, parse: FloatParser): (r: Result<Transform, Exc>)
    ensures r.Ok? ==> r.value.worldMatrix == t.worldMatrix && r.value.witMatrix == t.witMatrix
    ensures r.Ok? ==> "position" in json && json["position"].Dict?
                      && Vector3Init([json["position"]], parse) == Ok(r.value.position)
    ensures r.Ok? ==> "orientation" in json && json["orientation"].Dict?
                      && QuaternionInit([json["orientation"]], parse) == Ok(r.value.orientation)
    ensures r.Ok? ==> "scale" in json && json["scale"].Dict?
                      && Vector3Init([json["scale"]], parse) == Ok(r.value.scale)
  {
    var pj :- FetchProperty(json, "position", DictType);
    var p :- Vector3Init([pj], parse);
    var oj :- FetchProperty(json, "orientation", DictType);
    var o :- QuaternionInit([oj], parse);
    var sj :- FetchProperty(json, "scale", DictType);
    var s :- Vector3Init([sj], parse);
    Ok(t.(position := p, orientation := o, scale := s))
  }

  /* ---------------- Laws ---------------- */

  /** As written, no Transform can be built: every construction whose arguments convert ends in
      the binding's TypeError. */
  lemma InitAsWrittenAlwaysFails(position: PyObj, orientation: PyObj, scale: PyObj, parse: FloatParser)
    ensures TransformInitAsWritten(position, orientation, scale, parse).Err?
    ensures Vector3Init([position], parse).Ok? && QuaternionInit([orientation], parse).Ok? && Vector3Init([scale], parse).Ok?
            ==> TransformInitAsWritten(position, orientation, scale, parse) == Err(TypeError)
  {
  }

  /** The decorator on import_transform: `register_importer(Transform)` binds the class to
      `_func` and leaves the type missing, so it registers nothing and hands the class back. The
      class is then called with the function as its position, and the Vector3 constructor
      refuses a function, so defining import_transform raises TypeError. */
  lemma ImportDecoratorFails<K, F>(registry: Registry<K, F>, transformClass: F, hasNameAttr: K -> bool,
                                   className: string, parse: FloatParser)
    ensures RegisterImporter(registry, Some(transformClass), None, hasNameAttr) == Ok((registry, Some(transformClass)))
    ensures var (_, orientation, scale) := DefaultArgs();
            TransformInitAsWritten(Opaque(className), orientation, scale, parse) == Err(TypeError)
  {
  }

  /** As written, even with the rotation fixed, the inverse never reaches `_wit_mtx`: a freshly
      refreshed transform still reports no inverse world matrix. */
  lemma WitMatrixStaysEmpty(p: Vec3, o: Quat, s: Vec3)
    ensures RefreshMatrixCacheStray(Transform(p, o, s, None, None)).Ok? ==>
              RefreshMatrixCacheStray(Transform(p, o, s, None, None)).value.witMatrix.None?
    ensures RefreshMatrixCache(Transform(p, o, s, None, None)).Ok? ==>
              RefreshMatrixCache(Transform(p, o, s, None, None)).value.witMatrix.Some?
  {
  }

  /** The cached inverse is a two-sided inverse of the cached world matrix. */
  lemma WitMatrixIsInverse(t: Transform)
    requires RefreshMatrixCache(t).Ok?
    ensures var u := RefreshMatrixCache(t).value;
            Mat4Mult(u.worldMatrix.value, u.witMatrix.value) == Mat4Identity()
            && Mat4Mult(u.witMatrix.value, u.worldMatrix.value) == Mat4Identity()
  {
    var s := Mat4Scaling(t.scale);
    var r := Mat4RotationQuaternion(t.orientation);
    var w := Mat4Mult(Mat4Mult(s, r), Mat4Translation(t.position));
    InverseIsInverse(Mat4Identity(), w);
  }

  /** The rotation built from a quaternion has fourth column (0, 0, 0, 1). */
  lemma RotationIsAffine(q: Quat)
    ensures var r := Mat4RotationQuaternion(q);
            r[3] == 0.0 && r[7] == 0.0 && r[11] == 0.0 && r[15] == 1.0
  {
    IdentityDisplay();
  }

  /** The world matrix maps a point by scaling it, then rotating it, then translating it. */
  lemma WorldMatrixComposes(t: Transform, p: Vec3)
    requires RefreshMatrixCache(t).Ok?
    ensures TransformPoint(p, RefreshMatrixCache(t).value.worldMatrix.value)
         == Vec3Add(TransformPoint(Vec3(p.x * t.scale.x, p.y * t.scale.y, p.z * t.scale.z),
                                   Mat4RotationQuaternion(t.orientation)),
                    t.position)
  {
    RotationIsAffine(t.orientation);
    ScaleRotateTranslate(p, t.scale, Mat4RotationQuaternion(t.orientation), t.position);
  }

  /** Scaling, then an affine matrix, then a translation, applied to a point. */
  lemma ScaleRotateTranslate(p: Vec3, s: Vec3, r: Mat4, offset: Vec3)
    requires r[3] == 0.0 && r[7] == 0.0 && r[11] == 0.0 && r[15] == 1.0
    ensures TransformPoint(p, Mat4Mult(Mat4Mult(Mat4Scaling(s), r), Mat4Translation(offset)))
         == Vec3Add(TransformPoint(Vec3(p.x * s.x, p.y * s.y, p.z * s.z), r), offset)
  {
    var sm := Mat4Scaling(s);
    var sr := Mat4Mult(sm, r);
    ScaledIsAffine(s, r);
    TransformPointComposes(p, sr, Mat4Translation(offset));
    ScalingIsAffine(s);
    TransformPointComposes(p, sm, r);
    ScalingScales(s, Vec4(p.x, p.y, p.z, 1.0));
    TranslationMovesPoints(offset, TransformPoint(TransformPoint(p, sm), r));
  }

  /** A scaling has fourth column (0, 0, 0, 1). */
  lemma ScalingIsAffine(s: Vec3)
    ensures var m := Mat4Scaling(s);
            m[3] == 0.0 && m[7] == 0.0 && m[11] == 0.0 && m[15] == 1.0
  {
    IdentityDisplay();
  }

  /** Scaling an affine matrix keeps it affine. */
  lemma ScaledIsAffine(s: Vec3, r: Mat4)
    requires r[3] == 0.0 && r[7] == 0.0 && r[11] == 0.0 && r[15] == 1.0
    ensures var m := Mat4Mult(Mat4Scaling(s), r);
            m[3] == 0.0 && m[7] == 0.0 && m[11] == 0.0 && m[15] == 1.0
  {
    ScalingScalesRows(s, r);
    IdentityDisplay();
    ProductColumn3(Mat4Scaling(s), r);
  }

  /** A scale with a zero component makes the world matrix singular, so the refresh raises
      ArithmeticError. */
  lemma ZeroScaleIsSingular(t: Transform)
    requires t.scale.x == 0.0 || t.scale.y == 0.0 || t.scale.z == 0.0
    ensures RefreshMatrixCache(t) == Err(ArithmeticError)
  {
    var s := Mat4Scaling(t.scale);
    var r := Mat4RotationQuaternion(t.orientation);
    var tr := Mat4Translation(t.position);
    var sr := Mat4Mult(s, r);
    ScalingScalesRows(t.scale, r);
    var i := if t.scale.x == 0.0 then 0 else if t.scale.y == 0.0 then 1 else 2;
    ZeroRowPropagates(sr, tr, i);
    DeterminantOfZeroRow(Mat4Mult(sr, tr), i);
  }

  /** The default Transform sits at the origin with the identity orientation and unit scale, and
      caches the identity as both matrices. */
  lemma DefaultTransform(parse: FloatParser)
    ensures TransformInit(DefaultArgs().0, DefaultArgs().1, DefaultArgs().2, parse)
         == Ok(Transform(Vec3(0.0, 0.0, 0.0), QuaternionIdentity(), Vec3(1.0, 1.0, 1.0),
                         Some(Mat4Identity()), Some(Mat4Identity())))
  {
    var t := Transform(Vec3(0.0, 0.0, 0.0), QuaternionIdentity(), Vec3(1.0, 1.0, 1.0), None, None);
    assert Vector3Init([DefaultArgs().0], parse) == Ok(t.position);
    assert QuaternionInit([DefaultArgs().1], parse) == Ok(t.orientation);
    assert Vector3Init([DefaultArgs().2], parse) == Ok(t.scale);
    DefaultWorld(t);
    IdentityInverse();
    assert Determinant(World(t)) != 0.0;
  }

  /** The default fields give the identity as world matrix. */
  lemma DefaultWorld(t: Transform)
    requires t.position == Vec3(0.0, 0.0, 0.0) && t.orientation == QuaternionIdentity() && t.scale == Vec3(1.0, 1.0, 1.0)
    ensures World(t) == Mat4Identity()
  {
    IdentityDisplay();
    assert Mat4Scaling(t.scale) == Mat4Identity();
    RotationQuaternionOfScalar(1.0);
    assert Mat4Translation(t.position) == Mat4Identity();
    Matrix.MultIdentity(Mat4Identity());
  }

  /** Importing replaces the three fields but keeps the default's identity matrices, whatever the
      imported values are: the caches go stale. */
  lemma ImportLeavesCacheStale(json: map<string, PyObj>, parse: FloatParser)
    ensures ImportTransform(json, parse).Ok? ==>
              && ImportTransform(json, parse).value.worldMatrix == Some(Mat4Identity())
              && ImportTransform(json, parse).value.witMatrix == Some(Mat4Identity())
              && "position" in json
              && Vector3Init([json["position"]], parse) == Ok(ImportTransform(json, parse).value.position)
  {
    DefaultTransform(parse);
  }
}
