# py3dengine core, modelled in Dafny

This project models the sequential core of py3dengine, a small Python game engine with a C math
extension. The model covers four parts:

- **Math kernel** (`util.c`, `vector.c`, `quaternion.c`, `matrix.c`). Vectors, quaternions and
  row-major 4×4 matrices are modelled as immutable records and 16-element sequences over `real`.
  Every C function that writes an `out` array becomes a pure function returning a fresh value.
  `sqrt`, `sin` and `cos` are not defined: they arrive as a `Libm` record of functions, and a
  lemma that needs a value of one of them states it in its `requires`.
- **Python bindings** (`py3dvector3.c`, `py3dquaternion.c`, `py3dmatrix4x4.c`) and
  `transform.py`. Python values are a tagged union `PyObj`. Each binding becomes a function from
  `self` and the argument objects to `Result<value, Exc>`. It keeps the order in which the C code
  tries constructor forms and operand types, and the exception it raises in each case.
- **Wavefront OBJ front end** (`lexer.py`, `parser.py`, `wfoprocessor.py`). The lexer is a
  state record with a per-character step function, folded over the input string. The polygon
  lexer uses a concrete model of Python's `int()` on decimal strings. The parser is a
  per-token step function returning `Result<ParserState, ParserError>`. The processor collects
  material library names.
- **Engine bookkeeping** (`message_handler.py`, `component.py`, `gameobject.py`, `engine.py`,
  `resource_manager.py`, `resource_import.py`, `json_util.py`, `config.py`). Game objects and
  components live in an arena: a `World` maps object ids and component ids to records. Message
  delivery returns the list of handler calls it would make, in order. Recursion that Python bounds
  by its recursion limit carries a `fuel` budget and fails with `RecursionError` when it runs out.

Python's `float()` on strings is a `FloatParser` parameter (`string -> Option<real>`). Python's
dictionary iteration order is a `DictOrder` parameter. Neither is fixed by the model.

Modules follow the source files: `Wrappers`, `Py` (Python values and exceptions), `Util`,
`Vector`, `Quaternion`, `Matrix`, `Expansion` (algebra helpers for the matrix inverse),
`Binding`, `Transform`, `JsonUtil`, `Config`, `MessageHandler`, `Component`, `GameObject`,
`Engine`, `ResourceManager`, `ResourceImport`, `Decimal`, `Lexer`, `Parser`, `Processor`.

## Model

| member | source | states |
|---|---|---|
| Util.ClampRadians | py3dengine/math/lib/src/source/util.c:5-17 | A nonnegative angle lands in [0, 2π] and a negative one in [0, 2π). An angle already in [0, 2π] comes back unchanged, 2π included. The result differs from the input by a whole number of turns. |
| Util.ClampValue | py3dengine/math/lib/src/source/util.c:19-25 | A value below the bound comes back unchanged. With a positive bound the result is below it. A value at or above the bound reduces to a nonnegative result. The result is the value minus k bounds for some natural k. The precondition admits exactly the inputs on which the loop terminates. |
| Vector.Vec2Normalize | py3dengine/math/lib/src/source/vector.c:58-65 | Scaling the result by the original length gives back the vector. There is no zero guard, so a nonzero length is required. |
| Vector.Vec3Fill | py3dengine/math/lib/src/source/vector.c:80-86 | Every component is x, so filling with x is the all-ones vector scaled by x. |
| Vector.Vec3Divide | py3dengine/math/lib/src/source/vector.c:137-143 | Multiplying the quotient back by the divisor gives the vector. |
| Vector.Vec3Normalize | py3dengine/math/lib/src/source/vector.c:151-159 | At zero length the output buffer is returned untouched. Otherwise the result scaled by the length is the input. |
| Vector.Vec4Identity | py3dengine/math/lib/src/source/vector.c:162-165 | The identity is (0, 0, 0, 1), with w last: moving w first gives (1, 0, 0, 0). |
| Vector.AddSubtractInverse | py3dengine/math/lib/src/source/vector.c:96-110 | Subtracting undoes adding, and adding undoes subtracting. |
| Vector.DotSymmetric | py3dengine/math/lib/src/source/vector.c:120-124 | The dot product is symmetric. |
| Vector.CrossLaws | py3dengine/math/lib/src/source/vector.c:126-135 | The cross product is antisymmetric and vanishes on equal inputs. It is orthogonal to both inputs. |
| Vector.DivideIsScaleByReciprocal | py3dengine/math/lib/src/source/vector.c:137-143 | Dividing by a nonzero s is scaling by 1/s. |
| Vector.MakeWFirstLastInverse | py3dengine/math/lib/src/source/vector.c:183-201 | Moving w first and moving it last are inverse permutations of the four components. |
| Quaternion.QuaternionIdentity | py3dengine/math/lib/src/source/quaternion.c:8-15 | The identity has zero vector part and w = 1. |
| Quaternion.QuaternionNormalize | py3dengine/math/lib/src/source/quaternion.c:73-81 | Each component of q is divided by the length of the output buffer's current contents, not by the length of q. |
| Quaternion.QuaternionFromAxisAngle | py3dengine/math/lib/src/source/quaternion.c:57-71 | The result is the half-angle quaternion divided by its own length, because the buffer being normalized is the output itself. |
| Quaternion.MultIdentity | py3dengine/math/lib/src/source/quaternion.c:91-101 | The identity is a unit on both sides of the product. |
| Quaternion.MultCommutator | py3dengine/math/lib/src/source/quaternion.c:91-101 | Swapping the factors keeps w. The vector part then differs by twice the cross product of the vector parts. |
| Quaternion.MultNotCommutative | py3dengine/math/lib/src/source/quaternion.c:91-101 | The product is not commutative: i·j = k but j·i = −k. |
| Quaternion.NormMultiplicative | py3dengine/math/lib/src/source/quaternion.c:91-101 | The squared norm of a product is the product of the squared norms. |
| Quaternion.RotationIsSandwich | py3dengine/math/lib/src/source/quaternion.c:33-53 | The closed-form rotation equals the Hamilton sandwich q·v·q*, including a zero scalar part. |
| Quaternion.RotationByIdentity | py3dengine/math/lib/src/source/quaternion.c:40-52 | Rotating by the identity leaves the vector unchanged. |
| Quaternion.RotationIsLinear | py3dengine/math/lib/src/source/quaternion.c:40-52 | Rotation by a fixed quaternion is linear in the vector: it preserves sums and scalar multiples. |
| Quaternion.FromAxisAngleZero | py3dengine/math/lib/src/source/quaternion.c:57-71 | A zero angle about any axis gives the identity, given sin 0 = 0, cos 0 = 1 and √1 = 1. |
| Matrix.Mat3Identity | py3dengine/math/lib/src/source/matrix.c:10-16 | Entry (i, j) is 1 exactly when i = j, and 0 otherwise. |
| Matrix.Mat4Identity | py3dengine/math/lib/src/source/matrix.c:18-24 | Entry (i, j) is 1 exactly when i = j, and 0 otherwise. |
| Matrix.Mat4Transpose | py3dengine/math/lib/src/source/matrix.c:42-53 | Entry (i, j) of the result is entry (j, i) of the input. |
| Matrix.TransposeInvolution | py3dengine/math/lib/src/source/matrix.c:42-53 | Transposing twice gives the matrix back. |
| Matrix.TransposeIdentity | py3dengine/math/lib/src/source/matrix.c:42-53 | The identity is its own transpose. |
| Matrix.MultIdentity | py3dengine/math/lib/src/source/matrix.c:237-263 | The identity is a left and a right unit of the product. |
| Matrix.TranslationMovesPoints | py3dengine/math/lib/src/source/matrix.c:82-89 | A point (w = 1) times a translation matrix is moved by the offset. A direction (w = 0) is unchanged. |
| Matrix.ScalingScales | py3dengine/math/lib/src/source/matrix.c:227-234 | A row vector times a scaling matrix has x, y and z scaled componentwise, with w unchanged. |
| Matrix.ScalingScalesRows | py3dengine/math/lib/src/source/matrix.c:227-234 | A scaling matrix on the left scales the first three rows of the other factor. |
| Matrix.Vec4MultComposes | py3dengine/math/lib/src/source/matrix.c:397-410 | Multiplying a row vector by A·B is multiplying by A and then by B. It also gives every product entry as its row-column sum. |
| Matrix.ZeroRowPropagates | py3dengine/math/lib/src/source/matrix.c:237-263 | A zero row of the left factor is a zero row of the product. |
| Matrix.Mat4Inverse | py3dengine/math/lib/src/source/matrix.c:268-395 | The flag is 0 exactly when the cofactor determinant is 0, and then the output is left untouched. Otherwise the flag is 1. |
| Matrix.InverseIsInverse | py3dengine/math/lib/src/source/matrix.c:268-395 | When the flag is 1, the result is a two-sided inverse: m·inv = inv·m = I. |
| Matrix.IdentityInverse | py3dengine/math/lib/src/source/matrix.c:268-395 | The identity is invertible and is its own inverse. |
| Matrix.DeterminantOfZeroRow | py3dengine/math/lib/src/source/matrix.c:268-395 | A matrix with a zero row has determinant 0, so it is reported singular. |
| Matrix.RotationXFixesAxis | py3dengine/math/lib/src/source/matrix.c:91-104 | The x rotation fixes every vector along the x axis. |
| Matrix.RotationYFixesAxis | py3dengine/math/lib/src/source/matrix.c:106-119 | The y rotation fixes every vector along the y axis. |
| Matrix.RotationZFixesAxis | py3dengine/math/lib/src/source/matrix.c:121-134 | The z rotation fixes every vector along the z axis. |
| Matrix.RotationXUndone | py3dengine/math/lib/src/source/matrix.c:91-104 | Rotating about x by θ and then by −θ gives the identity, given that sin is odd, cos is even and sin² + cos² = 1. |
| Matrix.RotationAxisAboutX | py3dengine/math/lib/src/source/matrix.c:142-177 | The axis-angle rotation about the unit x axis is the x rotation, given √1 = 1. |
| Matrix.RotationAxisAboutY | py3dengine/math/lib/src/source/matrix.c:142-177 | The axis-angle rotation about the unit y axis is the y rotation, given √1 = 1. |
| Matrix.RotationAxisAboutZ | py3dengine/math/lib/src/source/matrix.c:142-177 | The axis-angle rotation about the unit z axis is the z rotation, given √1 = 1. |
| Matrix.RotationQuaternionOfScalar | py3dengine/math/lib/src/source/matrix.c:185-216 | A quaternion with zero vector part converts to the identity. This covers both the zero quaternion (the s = 0 guard) and (0, 0, 0, 1). |
| Matrix.ViewSendsEyeToOrigin | py3dengine/math/lib/src/source/matrix.c:430-461 | A view matrix built from basis vectors and an eye position sends the eye to the origin. |
| Matrix.LookAtSendsEyeToOrigin | py3dengine/math/lib/src/source/matrix.c:412-462 | The look-at matrix sends the camera position to the origin. |
| Matrix.LookAtIsAffine | py3dengine/math/lib/src/source/matrix.c:430-461 | The look-at matrix has fourth column (0, 0, 0, 1). |
| Py.NumberFloat | py3dengine/math/extension/src/source/py3dvector3.c:57-62 | A float converts to itself. Failure is a TypeError, or a ValueError for an unparsable string. |
| Py.ArgFloat | py3dengine/math/extension/src/source/py3dvector3.c:318-328 | The "f" argument unit accepts exactly floats, ints and bools. Anything else is a TypeError. |
| Py.ArgFloatRefinesNumberFloat | py3dengine/math/extension/src/source/py3dvector3.c:57-62 | Whatever "f" accepts, the number cast accepts with the same value. |
| Py.PyIndex | py3dengine/core/gameobject.py:80-81 | Python indexing: a negative index counts from the end. An index outside [−n, n) is an IndexError. |
| Binding.Vector3InitFromList | py3dengine/math/extension/src/source/py3dvector3.c:64-84 | A list starting with three floats builds that vector, and later items are ignored. |
| Binding.Vector3InitShortList | py3dengine/math/extension/src/source/py3dvector3.c:64-84 | A list shorter than three is a ValueError. |
| Binding.Vector3InitFromDict | py3dengine/math/extension/src/source/py3dvector3.c:86-108 | A dict with float "x", "y", "z" builds that vector. A dict without "x" is a KeyError. |
| Binding.Vector3InitCopies | py3dengine/math/extension/src/source/py3dvector3.c:110-141 | A Vector3 argument is copied. Three floats build that vector, and no arguments give (0, 0, 0). |
| Binding.Vector3InitArity | py3dengine/math/extension/src/source/py3dvector3.c:110-141 | Only 0, 1 or 3 arguments can succeed. Three arguments including a string are a TypeError. |
| Binding.Vector3AddOp | py3dengine/math/extension/src/source/py3dvector3.c:178-188 | Fails exactly when the operand is not a Vector3, and then with TypeError. |
| Binding.Vector3SubOp | py3dengine/math/extension/src/source/py3dvector3.c:190-200 | Fails exactly when the operand is not a Vector3, and then with TypeError. |
| Binding.Vector3AddThenSub | py3dengine/math/extension/src/source/py3dvector3.c:178-200 | `(v + w) - w == v`. |
| Binding.Vector3MultOp | py3dengine/math/extension/src/source/py3dvector3.c:202-267 | Every failure of `*` is a TypeError. |
| Binding.Vector3MultIdentityAndCross | py3dengine/math/extension/src/source/py3dvector3.c:244-267 | Times the identity quaternion, a vector is unchanged. Vector times vector is the cross product, so swapping the operands negates it. |
| Binding.Vector3MultTranslation | py3dengine/math/extension/src/source/py3dvector3.c:244-267 | Times a translation matrix, a vector is moved by the offset. |
| Binding.Vector3MultComposes | py3dengine/math/extension/src/source/py3dvector3.c:244-267 | Multiplying by A·B is multiplying by A and then by B, when A is affine. |
| Binding.TransformPointComposes | py3dengine/math/extension/src/source/py3dvector3.c:244-267 | Transforming (x, y, z, 1) and dropping w composes over an affine left factor. |
| Binding.Vector3DivOp | py3dengine/math/extension/src/source/py3dvector3.c:269-290 | Succeeds exactly for a number other than 0. Otherwise it is a TypeError or a ZeroDivisionError. The quotient times the divisor is `self`. |
| Binding.Vector3DivThenMult | py3dengine/math/extension/src/source/py3dvector3.c:269-290 | `(v / x) * x == v` whenever the division succeeds. |
| Binding.Vector3DotOp | py3dengine/math/extension/src/source/py3dvector3.c:292-300 | Succeeds exactly with one Vector3 argument, and fails otherwise with TypeError. |
| Binding.Vector3NormalizeScalesBack | py3dengine/math/extension/src/source/py3dvector3.c:309-316 | A nonzero vector is its normalization scaled by its length. (0, 0, 0) normalizes to (0, 0, 0), because the fresh result starts at zero and the kernel skips it. |
| Binding.Vector3FillOp | py3dengine/math/extension/src/source/py3dvector3.c:318-328 | Every failure is a TypeError. |
| Binding.FillStringAsymmetry | py3dengine/math/extension/src/source/py3dmatrix4x4.c:149-165 | A numeric string is refused by `Vector3.fill` but accepted by `Matrix4x4.fill`. |
| Binding.QuaternionInitForms | py3dengine/math/extension/src/source/py3dquaternion.c:109-140 | Covers every constructor form. No arguments give (0, 0, 0, 1). Four floats, a list starting with four floats, or a Quaternion give that quaternion. A short list is a ValueError, a dict without "x" a KeyError, and a tuple a TypeError. |
| Binding.QuaternionMultOp | py3dengine/math/extension/src/source/py3dquaternion.c:212-225 | Fails exactly when the operand is not a Quaternion, and then with TypeError. |
| Binding.QuaternionNormalizeIsCopy | py3dengine/math/extension/src/source/py3dquaternion.c:227-234 | As written, `normalize()` returns self unchanged, because it divides by the length of the (0, 0, 0, 1) result buffer. |
| Binding.QuaternionNormalizeCounterexample | py3dengine/math/extension/src/source/py3dquaternion.c:227-234 | (0, 0, 0, 2) is returned unchanged by the code as written, and becomes (0, 0, 0, 1) under the corrected normalization. |
| Binding.QuaternionNormalizeFixed | py3dengine/math/extension/src/source/py3dquaternion.c:227-234 | The corrected normalization: the result scaled by the quaternion's own length is the quaternion. |
| Binding.QuaternionFromAxisAndDegreesOp | py3dengine/math/extension/src/source/py3dquaternion.c:236-253 | Succeeds exactly with a Vector3 axis and an "f"-convertible angle, and fails otherwise with TypeError. |
| Binding.FromAxisAndDegreesZero | py3dengine/math/extension/src/source/py3dquaternion.c:236-253 | A zero angle gives the identity quaternion, which converts to the identity matrix. |
| Binding.Matrix4x4InitIgnoresArgs | py3dengine/math/extension/src/source/py3dmatrix4x4.c:59-63 | The constructor gives the identity, whatever the arguments. |
| Binding.Matrix4x4MultOp | py3dengine/math/extension/src/source/py3dmatrix4x4.c:284-297 | Fails exactly when the operand is not a Matrix4x4, and then with TypeError. |
| Binding.Matrix4x4InverseOp | py3dengine/math/extension/src/source/py3dmatrix4x4.c:135-147 | Fails exactly when the determinant is 0, and then with ArithmeticError. |
| Binding.Matrix4x4InverseIsInverse | py3dengine/math/extension/src/source/py3dmatrix4x4.c:135-147 | A successful `inverse()` multiplies with the matrix to the identity, on both sides. |
| Binding.RotationMatrixErrors | py3dengine/math/extension/src/source/py3dmatrix4x4.c:179-208 | With one number argument, an axis character other than x, y or z fails its assertion. For x, y and z, success is exactly one number argument. |
| Binding.OneVector3 | py3dengine/math/extension/src/source/py3dmatrix4x4.c:167-177 | Accepts exactly one Vector3 argument and yields it. Otherwise it is a TypeError. |
| Binding.Matrix4x4TranslationOp | py3dengine/math/extension/src/source/py3dmatrix4x4.c:167-177 | Succeeds exactly with one Vector3 argument, giving the translation by it. Otherwise it is a TypeError. |
| Binding.Matrix4x4ScalingOp | py3dengine/math/extension/src/source/py3dmatrix4x4.c:253-263 | Succeeds exactly with one Vector3 argument, giving the scaling by it. Otherwise it is a TypeError. |
| Binding.Matrix4x4RotationXOp | py3dengine/math/extension/src/source/py3dmatrix4x4.c:210-212 | Succeeds exactly with one argument the number cast accepts, giving the x rotation by it. A wrong arity is a TypeError, and a refused argument raises the cast's error. |
| Binding.Matrix4x4RotationYOp | py3dengine/math/extension/src/source/py3dmatrix4x4.c:214-216 | Succeeds exactly with one argument the number cast accepts, giving the y rotation by it. A wrong arity is a TypeError, and a refused argument raises the cast's error. |
| Binding.Matrix4x4RotationZOp | py3dengine/math/extension/src/source/py3dmatrix4x4.c:218-220 | Succeeds exactly with one argument the number cast accepts, giving the z rotation by it. A wrong arity is a TypeError, and a refused argument raises the cast's error. |
| Binding.Matrix4x4RotationAxisOp | py3dengine/math/extension/src/source/py3dmatrix4x4.c:222-239 | Succeeds exactly with a Vector3 and an argument the number cast accepts, giving the axis-angle rotation. Anything but a Vector3 and one more argument is a TypeError. |
| Binding.Matrix4x4RotationQuaternionOp | py3dengine/math/extension/src/source/py3dmatrix4x4.c:241-251 | Succeeds exactly with two arguments, the first a Quaternion, and then gives that quaternion's rotation matrix. Otherwise it is a TypeError. |
| Binding.Matrix4x4RotationQuaternionFixed | py3dengine/math/extension/src/source/py3dmatrix4x4.c:241-251 | The corrected signature: exactly one Quaternion argument, giving the matrix the two-argument form gives. |
| Binding.Matrix4x4LookAtLHOp | py3dengine/math/extension/src/source/py3dmatrix4x4.c:265-282 | Succeeds exactly with three Vector3 arguments, giving the look-at matrix of position, target and up. Otherwise it is a TypeError. |
| Binding.Matrix4x4LookAtSendsEyeToOrigin | py3dengine/math/extension/src/source/py3dmatrix4x4.c:265-282 | The camera position times its own look-at matrix is (0, 0, 0). |
| Binding.SeenAs | py3dengine/math/extension/src/source/py3dvector3.c:178-188 | The slot treats `self` as its own type: an object of that type as it is, and anything else as its memory reinterpreted. |
| Binding.SlotAsWritten | py3dengine/math/extension/src/source/py3dvector3.c:178-267 | As written, a slot called with a `self` of its own type is the operation on it; the type of `self` is never checked. |
| Binding.CheckedSlot | py3dengine/math/extension/src/source/py3dvector3.c:178-267 | The corrected slot raises TypeError for a foreign `self`, and agrees with the slot as written whenever `self` has the slot's type. |
| Binding.ReflectedOperandAccepted | py3dengine/math/extension/src/source/py3dvector3.c:178-267 | As written, `1 + v`, `2 - v`, `2.0 * v`, `2.0 * q` and `2 * m` all succeed, whatever the foreign operand's memory holds, while the corrected slot raises TypeError. |
| Binding.ReflectedScaleCounterexample | py3dengine/math/extension/src/source/py3dvector3.c:244-267 | As written, `2.0 * (1, 0, 0)` is a cross product with x component 0, while `(1, 0, 0) * 2.0` is (2, 0, 0). |
| Binding.Matrix4x4TransposeOp | py3dengine/math/extension/src/source/py3dmatrix4x4.c:126-133 | Entry (i, j) of the result is entry (j, i) of the matrix. |
| Transform.WorldMatrices | py3dengine/core/transform.py:36-42 | A failed rotation binding is the refresh's error. |
| Transform.RefreshMatrixCache | py3dengine/core/transform.py:36-43 | Position and orientation are kept. The world matrix is scaling · rotation · translation, and the inverse slot holds its inverse. The refresh fails with ArithmeticError exactly when the world matrix is singular. |
| Transform.RefreshMatrixCacheStray | py3dengine/core/transform.py:43 | As written, the inverse goes to a differently named attribute, so the slot the getter reads keeps its old value. |
| Transform.TransformInit | py3dengine/core/transform.py:7-14 | Position, orientation and scale are what the value constructors make of the arguments, and both matrices are cached. |
| Transform.InitAsWrittenAlwaysFails | py3dengine/core/transform.py:38 | As written, construction always fails. With valid arguments it fails with the TypeError of the one-argument `RotationQuaternion` call. |
| Transform.WitMatrixStaysEmpty | py3dengine/core/transform.py:32-34 | As written, a fresh transform reports no inverse world matrix after a refresh. The corrected refresh fills it. |
| Transform.WitMatrixIsInverse | py3dengine/core/transform.py:43 | The cached inverse is a two-sided inverse of the cached world matrix. |
| Transform.WorldMatrixComposes | py3dengine/core/transform.py:36-42 | The world matrix maps a point by scaling it, then rotating it, then translating it. |
| Transform.ScaleRotateTranslate | py3dengine/core/transform.py:42 | Scaling · affine · translation applied to a point scales it, applies the affine map, then adds the offset. |
| Transform.RotationIsAffine | py3dengine/core/transform.py:38 | The quaternion rotation matrix has fourth column (0, 0, 0, 1). |
| Transform.ScalingIsAffine | py3dengine/core/transform.py:40 | A scaling matrix has fourth column (0, 0, 0, 1). |
| Transform.ScaledIsAffine | py3dengine/core/transform.py:42 | Scaling an affine matrix keeps it affine. |
| Transform.ZeroScaleIsSingular | py3dengine/core/transform.py:43 | A scale with a zero component makes the refresh fail with ArithmeticError. |
| Transform.DefaultTransform | py3dengine/core/transform.py:7-14 | The defaults are (0, 0, 0), the identity quaternion and (1, 1, 1). The cache holds the identity as both the world matrix and its inverse. |
| Transform.DefaultWorld | py3dengine/core/transform.py:36-42 | The default position, orientation and scale give the identity world matrix. |
| Transform.ImportDecoratorFails | py3dengine/core/transform.py:46-47 | The decorator registers nothing and hands back the class. Calling the class on the function then fails with TypeError, because the Vector3 constructor refuses a function. |
| Transform.ImportFields | py3dengine/core/transform.py:46-54 | A successful import needs dicts under "position", "orientation" and "scale", and leaves the cached matrices as they were. |
| Transform.ImportLeavesCacheStale | py3dengine/core/transform.py:46-54 | An imported transform has the position from the JSON but still caches identity matrices. |
| JsonUtil.FetchProperty | py3dengine/core/json_util.py:1-6 | Succeeds exactly when the key is present with exactly the expected type, and returns the stored value. A missing key is a KeyError, and a wrong type a TypeError. |
| JsonUtil.FetchOptionalProperty | py3dengine/core/json_util.py:9-18 | A missing key gives the default. A present key is fetched strictly. |
| JsonUtil.FetchIsExact | py3dengine/core/json_util.py:1-6 | A bool is not accepted as an int, nor an int as a float, even when a default is given. |
| Config.AppendConfigValues | py3dengine/config/config.py:34-37 | A right-biased merge: the keys are the union, incoming values win, and other keys keep their values. |
| Config.ParseConfigFromStream | py3dengine/config/config.py:24-32 | A decode failure is a ConfigError. A decoded dict is merged exactly as by `append_config_values`. |
| Config.GetConfigValueOrFail | py3dengine/config/config.py:39-45 | Succeeds exactly for a present key, with its value. Otherwise it is a ConfigError. |
| Config.GetConfigValueOrDefault | py3dengine/config/config.py:47-53 | The value of a present key, or else the default. |
| Config.MergeThenRead | py3dengine/config/config.py:34-53 | Reading after a merge prefers the incoming value. Merging the same values twice is the same as merging once. |
| MessageHandler.NewFilters | py3dengine/core/message_handler.py:5-8 | New handlers have empty lists and accept by default. |
| MessageHandler.RemoveFirst | py3dengine/core/message_handler.py:44 | `list.remove` shortens the list by one and removes exactly one occurrence. |
| MessageHandler.RemoveFirstSplices | py3dengine/core/message_handler.py:44 | The occurrence removed is the first one: the result is the list with position i cut out, where i is the first position holding the element, and the other elements keep their order. |
| MessageHandler.WithFilterList | py3dengine/core/message_handler.py:31 | Selecting the list by the flag replaces that list only. |
| MessageHandler.AddMessageFilter | py3dengine/core/message_handler.py:30-36 | Fails with ValueError exactly when the type is already in the chosen list. Otherwise it appends to that list, and the other list and the default are unchanged. |
| MessageHandler.RemoveMessageFilter | py3dengine/core/message_handler.py:38-44 | Fails with ValueError exactly when the type is absent from the chosen list. Otherwise one occurrence leaves that list, and the rest is unchanged. |
| MessageHandler.SetAcceptByDefault | py3dengine/core/message_handler.py:14-16 | The flag becomes the truthiness of the value, and the lists are unchanged. |
| MessageHandler.RemoveAppended | py3dengine/core/message_handler.py:36-44 | Removing an element just appended to a list without it gives the list back. |
| MessageHandler.AddThenRemove | py3dengine/core/message_handler.py:30-44 | Adding and then removing the same type restores the filters. |
| MessageHandler.FiltersStayDuplicateFree | py3dengine/core/message_handler.py:30-44 | Adding and removing keep both lists free of duplicates. |
| MessageHandler.AcceptancePrecedence | py3dengine/core/gameobject.py:56-63 | The whitelist wins over the blacklist, which wins over the default. |
| Component.Iterate | py3dengine/core/component.py:49 | Lists and tuples iterate over their items. A string iterates over its characters in order, each as a one-character string. None, bools and numbers are not iterable. |
| Component.UnpackArgs | py3dengine/core/component.py:45-51 | None data gives no arguments, iterable data gives its items, and anything else is a single argument. |
| Component.ComponentReceive | py3dengine/core/component.py:41-53 | A handler is called exactly when the component accepts the message. The call is the handler named by the message, with the unpacked data. |
| Component.ComponentAcceptance | py3dengine/core/component.py:24-39 | With no handler of that name the message is refused, whatever the lists say. Otherwise the whitelist wins over the blacklist, which wins over the default. |
| Component.UnpackExamples | py3dengine/core/component.py:45-51 | A tuple unpacks and a float is passed alone. A string is split into characters, and None gives nothing. |
| GameObject.NewGameObject | py3dengine/core/gameobject.py:19-25 | A new object has no parent, children or components, and fresh filters. |
| GameObject.FirstIndex | py3dengine/core/gameobject.py:116-121 | The first position satisfying the test, or None when no position does. |
| GameObject.AttachChild | py3dengine/core/gameobject.py:65-70 | Fails with ValueError exactly when the child is already attached. Otherwise the child goes at the end and its parent is set. Nothing else changes, and the arena stays well formed. |
| GameObject.DetachChild | py3dengine/core/gameobject.py:73-78 | Fails with ValueError exactly when it is not a child. Otherwise it is removed from the list and its parent cleared. Nothing else changes. |
| GameObject.RemoveKeepsMembers | py3dengine/core/gameobject.py:76 | Removing from the child list brings in no new members. |
| GameObject.AttachThenDetach | py3dengine/core/gameobject.py:65-78 | Attaching a parentless non-child and detaching it gives back the world. |
| GameObject.GetChildByIndex | py3dengine/core/gameobject.py:80-81 | Succeeds exactly for an index in [−n, n), giving the child at that Python index (a negative index counts from the end). Otherwise it is an IndexError. |
| GameObject.AttachThenIndex | py3dengine/core/gameobject.py:65-81 | After attaching, index −1 gives the new child, and every earlier index gives what it gave before. |
| GameObject.GetChildByName | py3dengine/core/gameobject.py:83-96 | A found object has the name and lies in the subtree below the object. A direct child with the name is found before any descent. Only exhausted recursion fails. |
| GameObject.SearchChildren | py3dengine/core/gameobject.py:91-96 | The depth-first search finds only objects with the name, in the subtree of one of the given children. |
| GameObject.ChildByNameComplete | py3dengine/core/gameobject.py:83-96 | When the recursive search finds nothing, no object anywhere below has the name. |
| GameObject.SearchChildrenNone | py3dengine/core/gameobject.py:91-96 | When the search over a child list finds nothing, the search below each child found nothing. |
| GameObject.ChildByNameExact | py3dengine/core/gameobject.py:83-96 | A completed recursive search finds nothing exactly when no object below has the name. |
| GameObject.SearchChildrenFirstHit | py3dengine/core/gameobject.py:91-96 | The search's hit is the hit below some child i, and no child before i has the name anywhere below it: child order is depth-first order. |
| GameObject.FirstHitAfterMiss | py3dengine/core/gameobject.py:91-96 | When the first child's subtree has no hit, the hit of the rest is still the first in child order. |
| GameObject.AttachComponent | py3dengine/core/gameobject.py:101-106 | Fails with ValueError exactly for a duplicate. Otherwise the component is appended and its owner becomes the object. No other field of the object or the component changes, every other object and component is unchanged, and the arena stays well formed. |
| GameObject.AttachComponentAsWritten | py3dengine/core/gameobject.py:106 | As written, attaching leaves every component's owner as it was. |
| GameObject.DetachComponent | py3dengine/core/gameobject.py:109-114 | Fails with ValueError exactly when the component is absent. Otherwise its first occurrence is removed from the list and its owner cleared. No other field changes, every other object and component is unchanged, and the arena stays well formed. |
| GameObject.AttachComponentThenDetach | py3dengine/core/gameobject.py:101-114 | Attaching an ownerless component that is not yet attached and then detaching it gives back the world. |
| GameObject.DetachComponentAsWritten | py3dengine/core/gameobject.py:114 | As written, detaching leaves every component's owner as it was. |
| GameObject.FirstComponent | py3dengine/core/gameobject.py:116-121 | The first attached component passing the test: it passes, and none before it does. None exactly when no attached component passes. |
| GameObject.FirstComponentAfterAttach | py3dengine/core/gameobject.py:101-121 | After attaching, the first component passing a test is the earlier one if there was one, otherwise the new component if it passes. |
| GameObject.GetComponentByType | py3dengine/core/gameobject.py:116-121 | The first attached component of exactly that type (none before it has the type), or None when there is none. |
| GameObject.AttachThenFindByType | py3dengine/core/gameobject.py:101-121 | After attaching a component, a lookup by its type gives the earlier component of that type if there was one, and otherwise the new component. |
| GameObject.GetComponentByName | py3dengine/core/gameobject.py:129-134 | The first attached component with that name (none before it has the name), or None when there is none. |
| GameObject.AttachThenFindByName | py3dengine/core/gameobject.py:101-134 | After attaching a component, a lookup by its name gives the earlier component of that name if there was one, and otherwise the new component. |
| GameObject.GetComponentByIndex | py3dengine/core/gameobject.py:123-127 | Some exactly for an index in [−n, n), giving the component at that Python index. Otherwise None rather than an exception. |
| GameObject.AttachComponentThenIndex | py3dengine/core/gameobject.py:101-127 | After attaching, index −1 gives the new component, and every earlier index gives what it gave before. |
| GameObject.ComponentCalls | py3dengine/core/gameobject.py:48-50 | Calls go only to accepting components, in attach order, and every accepting component is called. |
| GameObject.Receive | py3dengine/core/gameobject.py:42-54 | A refused message makes no calls. Otherwise the components are called first, and then the children, only if the message propagates. Every call goes to an accepting component. |
| GameObject.ReceiveAll | py3dengine/core/gameobject.py:52-54 | Delivery to each child in order. Every call goes to an accepting component. |
| GameObject.Root | py3dengine/core/gameobject.py:35-40 | The climb ends at an object without a parent, and a parentless object is its own root. |
| GameObject.Bubble | py3dengine/core/gameobject.py:35-40 | Bubbling is delivery at the root. |
| GameObject.BubbleFromChild | py3dengine/core/gameobject.py:35-40 | A child of a root bubbles to that root. |
| GameObject.ComponentBubble | py3dengine/core/component.py:17-22 | Without an owner, bubbling does nothing. |
| GameObject.AttachedComponentBubbles | py3dengine/core/component.py:17-22 | After attaching, a component bubbles through its new owner. |
| GameObject.DetachedComponentBubbles | py3dengine/core/gameobject.py:109-114 | As written, a detached component keeps its owner, while the corrected detach clears it. |
| GameObject.ReceiveAsWritten | py3dengine/core/gameobject.py:42-54 | As written: a refused message makes no calls. An accepted propagating message raises AttributeError exactly when some child accepts a message named after the child itself. Otherwise the calls are the object's own component calls. |
| GameObject.PropagationWitness | py3dengine/core/gameobject.py:54 | On a root with one child and default filters, delivery as written raises AttributeError, while the corrected delivery reaches the child and succeeds. |
| Engine.Event | py3dengine/core/message.py:10-13 | Engine events carry no data and propagate. |
| Engine.LoadScene | py3dengine/core/engine.py:19-45 | An exception of the importer lookup escapes unwrapped, with nothing registered. The importer's OSError, ValueError, TypeError and KeyError become SceneError, and nothing is registered. A duplicate root name is a SceneError with the registry unchanged. Otherwise the root is registered under its name and then receives 'loading'. |
| Engine.UnloadScene | py3dengine/core/engine.py:48-55 | An unknown name is a SceneError. Otherwise 'unloading' is delivered before the entry is removed, so a failing delivery leaves it registered. |
| Engine.ActivateScene | py3dengine/core/engine.py:58-65 | The previous scene receives 'deactivating' before the new one receives 'activating', and only then does the new scene become active. |
| Engine.LoadSceneUnregistered | py3dengine/core/engine.py:19-22 | With no importer registered for GameObject, loading a scene raises the lookup's ValueError itself, not a SceneError, whatever the file holds. |
| Engine.LoadThenUnload | py3dengine/core/engine.py:19-55 | Loading under a new name and unloading that name restores the registry. |
| Engine.LoadTwiceFails | py3dengine/core/engine.py:41-42 | Loading the same root twice fails the second time with SceneError. |
| Engine.ActivationOrder | py3dengine/core/engine.py:58-65 | The calls of an activation are the 'deactivating' calls followed by the 'activating' calls. |
| ResourceManager.StoreResource | py3dengine/core/resource_manager.py:8-14 | A taken name is a ValueError. Otherwise the resource is added under its name and other entries are unchanged. |
| ResourceManager.GetResourceByName | py3dengine/core/resource_manager.py:5-6 | An unknown name is a KeyError. Otherwise the stored resource is returned. |
| ResourceManager.StoreThenGet | py3dengine/core/resource_manager.py:5-14 | What is stored is fetched back by its name, and every other name fetches what it did before. |
| ResourceImport.RefusalFor | py3dengine/core/resource_import.py:13 | The refusal is a ValueError when the type has a `__name__` for the message, and an AttributeError when it does not. |
| ResourceImport.RegisterImporter | py3dengine/core/resource_import.py:8-17 | With an argument missing, the function is handed back and the registry left alone. A known type is refused: ValueError, or AttributeError for a key without `__name__`. Otherwise the type maps to the function, which is handed back. |
| ResourceImport.GetImporterAsWritten | py3dengine/core/resource_import.py:20-22 | An unknown type is refused: ValueError, or AttributeError for a key without `__name__`. As written, a known type gives None. |
| ResourceImport.GetImporter | py3dengine/core/resource_import.py:20-22 | The corrected lookup: a known type gives its registered function. |
| ResourceImport.RegisterThenGet | py3dengine/core/resource_import.py:8-22 | After registering, the corrected lookup returns the function, the code as written returns None, and registering again is a ValueError. |
| Decimal.ParseInt | py3dengine/wfoparser/lexer.py:140 | `int()` on a decimal string: an optional sign, then digits with single underscores only between digits. Anything else is refused. |
| Decimal.IntToString | py3dengine/wfoparser/parser.py:180-181 | `str()` of an integer is nonempty and starts with '-' exactly when the integer is negative. |
| Decimal.ParseIntToString | py3dengine/wfoparser/lexer.py:140 | `int(str(i)) == i`. |
| Decimal.ParseIntExamples | py3dengine/wfoparser/lexer.py:140-145 | Accepts "42", "-7", "+7" and "1_000". Refuses "", "1__0", "_1", "1_" and "x". |
| Lexer.SplitSlash | py3dengine/wfoparser/lexer.py:129-145 | Splitting on '/' gives at least one segment, none containing '/'. |
| Lexer.PolygonIndex | py3dengine/wfoparser/lexer.py:137-145 | An empty segment is None. Any other segment is accepted exactly when `int()` accepts it, with `int()`'s value. |
| Lexer.PolygonIndices | py3dengine/wfoparser/lexer.py:128-147 | Succeeds exactly when every segment does, keeping their order. |
| Lexer.LexPolygon | py3dengine/wfoparser/lexer.py:121-149 | Succeeds exactly for at most two slashes with valid segments, giving one to three indices. |
| Lexer.SplitJoin | py3dengine/wfoparser/lexer.py:129-145 | Splitting slash-free parts joined with '/' gives the parts back. |
| Lexer.IndexTextRoundTrip | py3dengine/wfoparser/lexer.py:137-145 | Writing an index (None as the empty string) and reading it back gives the index. |
| Lexer.LexPolygonRoundTrip | py3dengine/wfoparser/lexer.py:121-149 | Every one- to three-index polygon, written with slashes, lexes back to itself. |
| Lexer.LexPolygonExamples | tests/wfoparser/test_lexer.py:21-23 | '1/2/3', '1//2' and '1/3/' lex to (1, 2, 3), (1, None, 2) and (1, 3, None). |
| Lexer.LexPolygonRefusals | py3dengine/wfoparser/lexer.py:134-147 | A third slash and a non-integer segment are both refused. |
| Lexer.Classify | py3dengine/wfoparser/lexer.py:98-119 | Keyword first, then number, then polygon, then string. The token keeps the given position. |
| Lexer.Pending | py3dengine/wfoparser/lexer.py:84-96 | The buffered token has column `char_pos − len(buffer) + 1`, and its kind follows the mode. |
| Lexer.Flush | py3dengine/wfoparser/lexer.py:77-93 | An empty buffer changes nothing. Otherwise the pending token is appended and the buffer emptied. Only a line break advances the line and resets the column. |
| Lexer.Transition | py3dengine/wfoparser/lexer.py:46-72 | Comment mode starts only at '#' and line-break mode only at a line ending. A separator never starts inside a separator, and the first character always opens a token. |
| Lexer.LexTokens | py3dengine/wfoparser/lexer.py:23-32 | The loop computes the fold of the step function over the input. The tokens are well formed: numbered lines, columns from 1, no two separators in a row. |
| Lexer.LexTokensOk | py3dengine/wfoparser/lexer.py:42-44 | Every token's line is one more than the number of line breaks before it. Columns start at 1, and separators never come two in a row. |
| Lexer.LexTokenBound | py3dengine/wfoparser/lexer.py:23-32 | Empty input yields no tokens, and there are never more tokens than characters. |
| Lexer.LineEndingsTrace | tests/wfoparser/test_lexer.py:38-51 | '\r\n\r\n\n\r\n\n\r\r' lexes to the seven line breaks the test expects. |
| Lexer.SameLineTrace | tests/wfoparser/test_lexer.py:53-67 | 'v 0.00 1.00 2.00\n' lexes to eight tokens at columns 1, 2, 3, 7, 8, 12, 13 and 17. |
| Parser.HeaderType | py3dengine/wfoparser/parser.py:6-16 | Exactly the nine keyword and comment token types start a statement. |
| Parser.HeaderToken | py3dengine/wfoparser/parser.py:6-16 | Every statement type has a header token mapping back to it. |
| Parser.ErrorMessage | py3dengine/wfoparser/parser.py:175-183 | The message starts "Unexpected token: TYPE". It ends with ", msg" when msg is nonempty. |
| Parser.AddItem | py3dengine/wfoparser/parser.py:112-116 | Appending an argument adds one item at the end and keeps the earlier ones. |
| Parser.Complete | py3dengine/wfoparser/parser.py:157-173 | The statement with the header's type, data, line and column is appended, and the state resets. |
| Parser.ProcessToken | py3dengine/wfoparser/parser.py:62-149 | Separators and line breaks between statements are skipped. A non-header start is "expected statement start". Only a line break completes a statement, and every other error is the bare unexpected-token error. |
| Parser.ParseFrom | py3dengine/wfoparser/parser.py:56-60 | Parsing only ever appends statements. |
| Parser.ParseAll | py3dengine/wfoparser/parser.py:56-60 | The loop computes the fold of the step function over the tokens. |
| Parser.ParseCons | py3dengine/wfoparser/parser.py:56-58 | Parsing a token list is one step and then the rest, and an error stops it. |
| Parser.ParseAppend | py3dengine/wfoparser/parser.py:56-60 | Parsing a concatenation is parsing the two parts in turn. |
| Parser.SkipFillers | py3dengine/wfoparser/parser.py:68-70 | Separators and line breaks between statements change nothing. |
| Parser.ParseEmit | py3dengine/wfoparser/parser.py:68-166 | A well-formed statement, written out as tokens, parses back to exactly that statement. |
| Parser.ParseEmitAll | py3dengine/wfoparser/parser.py:56-60 | Any sequence of well-formed statements, written out, parses back in order. |
| Parser.ParseTokensEmit | py3dengine/wfoparser/parser.py:56-173 | The top-level parse of written-out statements returns them. |
| Parser.NoBreakNoStatement | py3dengine/wfoparser/parser.py:86-149 | Without a line break, no statement is emitted. |
| Parser.UnfinishedIsDropped | py3dengine/wfoparser/parser.py:56-60 | A final statement cut before its line break is silently dropped. |
| Parser.UnexpectedStart | py3dengine/wfoparser/parser.py:72-73 | A number, string or polygon at a statement start is the "expected statement start" error. |
| Parser.ShortVertexError | py3dengine/wfoparser/parser.py:106-128 | A vertex ended after its separator fails at the line break, with "Unexpected token: LINE_BREAK". |
| Parser.ProcessKeepsOk | py3dengine/wfoparser/parser.py:62-173 | One step on a well-shaped token keeps the parser invariant. |
| Parser.ParseKeepsOk | py3dengine/wfoparser/parser.py:56-60 | Parsing well-shaped tokens keeps the parser invariant. |
| Parser.LexThenParse | py3dengine/wfoparser/parser.py:56-60 | Whatever the lexer's output parses to is a list of well-formed statements, with the right arity and argument types. |
| Processor.MaterialData | py3dengine/wfoparser/wfoprocessor.py:16-18 | At most one file per statement. |
| Processor.ProcessStatements | py3dengine/wfoparser/wfoprocessor.py:9-18 | The files so far, followed by the material library data of the statements in order. |
| Processor.MaterialDataAppend | py3dengine/wfoparser/wfoprocessor.py:9-11 | Processing in two batches collects what processing the whole list does. |
| Processor.MaterialDataContents | py3dengine/wfoparser/wfoprocessor.py:16-18 | A file is collected exactly when some material library statement carries it. |
| Processor.NoMaterialNoFiles | py3dengine/wfoparser/wfoprocessor.py:17 | Statements of other types contribute nothing. |
| Processor.ProcessOneMaterialLib | tests/wfoparser/test_processor.py:7-20 | One material library statement gives exactly its data. |

## Definitions

These functions model source code directly and carry no contract of their own, because any
contract would repeat the body. Each is stated through the members named after it, which have
rows above. Paths are as in the table.

- `Vector.Vec3Add`, `Vector.Vec3Subtract` (math/lib/src/source/vector.c:96-110): `Vector.AddSubtractInverse`, `Binding.Vector3AddThenSub`.
- `Vector.Vec3Scalar`, `Vector.Vec3Length` (vector.c:112-118, 145-149): `Vector.Vec3Divide`, `Vector.Vec3Normalize`, `Binding.Vector3NormalizeScalesBack`.
- `Vector.Vec3Dot`, `Vector.Vec3Cross` (vector.c:120-135): `Vector.DotSymmetric`, `Vector.CrossLaws`.
- `Vector.Vec4MakeWFirst`, `Vector.Vec4MakeWLast` (vector.c:183-201): `Vector.MakeWFirstLastInverse`, `Vector.Vec4Identity`.
- `Vector.Vec2Length`, `Vector.Vec2Scalar` (vector.c:44-65): `Vector.Vec2Normalize`. The other two-component operations and `Vector.Vec3Identity` have no law; see "Left out".
- `Quaternion.QuaternionMult` (quaternion.c:91-101): `Quaternion.MultIdentity`, `Quaternion.MultCommutator`, `Quaternion.MultNotCommutative`, `Quaternion.NormMultiplicative`.
- `Quaternion.QuaternionVec3Rotation` (quaternion.c:33-53): `Quaternion.RotationIsSandwich`, `Quaternion.RotationByIdentity`, `Quaternion.RotationIsLinear`.
- `Matrix.Mat4Mult`, `Matrix.Mat4Vec4Mult` (matrix.c:237-263, 397-410): `Matrix.MultIdentity`, `Matrix.Vec4MultComposes`, `Matrix.ZeroRowPropagates`.
- `Matrix.Mat4Translation`, `Matrix.Mat4Scaling` (matrix.c:82-89, 227-234): `Matrix.TranslationMovesPoints`, `Matrix.ScalingScales`, `Matrix.ScalingScalesRows`.
- `Matrix.Mat4RotationX`, `Matrix.Mat4RotationY`, `Matrix.Mat4RotationZ` (matrix.c:91-134): `Matrix.RotationXFixesAxis`, `Matrix.RotationYFixesAxis`, `Matrix.RotationZFixesAxis`, `Matrix.RotationXUndone`.
- `Matrix.Mat4RotationAxis` (matrix.c:142-177): `Matrix.RotationAxisAboutX`, `Matrix.RotationAxisAboutY`, `Matrix.RotationAxisAboutZ`.
- `Matrix.Mat4RotationQuaternion` (matrix.c:185-216): `Matrix.RotationQuaternionOfScalar`, `Transform.RotationIsAffine`.
- `Matrix.Determinant`, `Matrix.Cofactors` (matrix.c:268-395): `Matrix.Mat4Inverse`, `Matrix.InverseIsInverse`, `Matrix.DeterminantOfZeroRow`.
- `Matrix.Mat4LookAtLH`, `Matrix.ViewMatrix` (matrix.c:412-462): `Matrix.LookAtSendsEyeToOrigin`, `Matrix.ViewSendsEyeToOrigin`, `Matrix.LookAtIsAffine`.
- `Binding.Vector3Init` and its list and dict forms (math/extension/src/source/py3dvector3.c:64-141): `Binding.Vector3InitFromList`, `Binding.Vector3InitShortList`, `Binding.Vector3InitFromDict`, `Binding.Vector3InitCopies`, `Binding.Vector3InitArity`.
- `Binding.QuaternionInit` and its list and dict forms (py3dquaternion.c:63-140): `Binding.QuaternionInitForms`.
- `Binding.QuaternionNormalizeOp` (py3dquaternion.c:227-234): `Binding.QuaternionNormalizeIsCopy`, `Binding.QuaternionNormalizeCounterexample`.
- `Binding.Matrix4x4Init` (py3dmatrix4x4.c:59-63): `Binding.Matrix4x4InitIgnoresArgs`.
- `Binding.Matrix4x4FillOp` (py3dmatrix4x4.c:149-165): `Binding.FillStringAsymmetry`.
- `Binding.RotationMatrix` (py3dmatrix4x4.c:179-208): `Binding.RotationMatrixErrors`, `Binding.Matrix4x4RotationXOp`, `Binding.Matrix4x4RotationYOp`, `Binding.Matrix4x4RotationZOp`.
- `Binding.Vector3NormalizeOp` (py3dvector3.c:309-316): `Binding.Vector3NormalizeScalesBack`.
- `Binding.Forward` (py3dvector3.c:178-267, py3dquaternion.c:212-225, py3dmatrix4x4.c:284-297): the operator members above, through `Binding.SlotAsWritten` and `Binding.CheckedSlot`.
- `Transform.TransformInitAsWritten`, `Transform.RefreshMatrixCacheAsWritten` (core/transform.py:7-14, 36-43): `Transform.InitAsWrittenAlwaysFails`, `Transform.ImportDecoratorFails`.
- `Transform.ImportTransform` (transform.py:46-54): `Transform.ImportFields`, `Transform.ImportLeavesCacheStale`.
- `MessageHandler.FiltersAccept` (core/gameobject.py:56-63): `MessageHandler.AcceptancePrecedence`.
- `Component.ComponentAccepts` (core/component.py:24-39): `Component.ComponentAcceptance`.
- `Lexer.Lex`, `Lexer.LexPrefix`, `Lexer.Step` (wfoparser/lexer.py:23-75): `Lexer.LexTokens`, `Lexer.LexTokensOk`, `Lexer.LexTokenBound`, `Lexer.Transition`, `Lexer.LineEndingsTrace`, `Lexer.SameLineTrace`.
- `Parser.ParseTokens` (wfoparser/parser.py:56-60): `Parser.ParseAll`, `Parser.ParseTokensEmit`, `Parser.LexThenParse`.
- `Parser.Header`, `Parser.CommentStep`, `Parser.StringStep`, `Parser.NumberStep`, `Parser.FaceStep` (parser.py:68-149): `Parser.ProcessToken`, `Parser.ParseEmit`, `Parser.ProcessKeepsOk`, `Parser.UnexpectedStart`, `Parser.ShortVertexError`.

## Left out

- IEEE-754 single precision: rounding, NaN and infinities are not modelled. Arithmetic is exact over `real`, so `== 0` guards are exact comparisons.
- `sqrtf`, `sinf` and `cosf` are the fields of a `Libm` parameter. No trigonometric identity is assumed; a lemma that needs a value states it in its `requires`.
- Aliasing: every C function that writes `out` is a pure function returning a fresh value. Alias safety via temporaries in `Vec3Cross`, `QuaternionMult`, `Mat4Transpose` and `Mat4Mult` is therefore not a separate property. `Vec3Normalize` and `QuaternionNormalize` take the prior `out` contents as an argument, because the code reads them.
- Copy, fill and two-component operations without a law (`Vec2`/`Vec3`/`Vec4` copy, `Vec2Fill`, `Vec4Fill`, `Vec2Add`, `Vec2Subtract`, `Vec2Dot`, `Vec2Identity`, `Vec3Identity`, `Mat4Fill`, `Mat4Copy`, and the bindings `Vector3CopyOp` and `Matrix4x4CopyOp`) are modelled as plain values, with no contract of their own. So is `Vector3LengthOp`, which is `Vec3Length`; its law is `Binding.Vector3NormalizeScalesBack`.
- String rendering (`*ToCStr`, `*_Repr`) is not modelled: it is formatting only.
- CPython plumbing is not modelled: reference counts, `Py3d*_New` re-importing the module, `PyType_Ready`, getters, `mathmodule.c` (which registers the Quaternion type twice) and `setup.py`.
- The headers are not modelled: they carry only sizes and constants.
- `PyArg_ParseTuple` is reduced to its accept/refuse rule per format unit (`Py.ArgFloat`). `float()` on strings is the `FloatParser` parameter. `Decimal.ParseInt` covers ASCII digits only; `int()`'s surrounding whitespace and non-ASCII digits are not modelled.
- File and stream I/O is not modelled: `import_game_object`, the file opening in `load_scene`, `parse_config_from_file`, `wfoparser.import_from_file` and the lexer's `stream.read`. The lexer reads a string. `load_scene` takes the importer's outcome as a parameter. `parse_config_from_stream` takes the decoded JSON, or None for a decode failure.
- `wfoparser.import_from_file` returns what `process_statements` returns, which is always None. It is not modelled, because it is file I/O.
- `get_material_files` returning a tuple snapshot is immaterial in a value model. Accumulation across calls is the `files` argument of `Processor.ProcessStatements`.
- `py3dengine/logging/logging.py` is not modelled: it routes stream writes.
- `tests/math/unittests.py` prints trigonometric results and asserts nothing, so no lemma models it.
- `getattr`/`callable` are reduced to each component's set of handler names. Handlers are recorded as calls and not run, so their side effects on the world are not modelled.
- Dictionary iteration order (unpacking dict message data) is a `DictOrder` parameter.
- Python's recursion limit is a `fuel` argument. `GameObject.Receive`, `GameObject.GetChildByName` and `GameObject.Root` fail with RecursionError when it runs out, which also covers cyclic parent links.
- `get_child_count` and `get_component_count` are not modelled: they are list lengths.
- `_do_import_game_object` and the module-level `register_importer` call at gameobject.py:187 are not modelled. That call passes its arguments in swapped order, so it registers nothing and GameObject never gets an importer. The `@register_importer(Transform)` decorator on `import_transform` (transform.py:46) is modelled only through `Transform.ImportDecoratorFails`. That call has `obj_type` None, so it registers nothing and returns `Transform`. `Transform(import_transform)` then passes the function to `Vector3`, which raises TypeError (py3dvector3.c:117-129), so importing transform.py fails. `Transform.ImportFields` models the body of `import_transform` as if it could be reached.
- Engine.LoadScene: the importer lookup at engine.py:22 comes before the try block. Because GameObject is never registered, `get_importer` raises its ValueError there, unwrapped, and `load_scene` never reaches the file (`Engine.LoadSceneUnregistered`). Were the lookup to succeed, the code as written gets None back and calls it, and the resulting TypeError becomes SceneError. The model takes the lookup's exception (`lookupError`) and the importer's outcome (`imported`) as parameters, and covers that TypeError under the wrapped-exception case.
- Engine.LoadScene: the 'loading' delivery uses the corrected `GameObject.Receive`. As written (gameobject.py:54), a loaded scene whose root accepts the event and has a child accepting a message named after itself raises AttributeError instead (`GameObject.ReceiveAsWritten`, `GameObject.PropagationWitness`).
- Engine.UnloadScene: the 'unloading' delivery uses the corrected `GameObject.Receive`, with the same AttributeError left out as for `load_scene`.
- Engine.ActivateScene: the 'deactivating' and 'activating' deliveries use the corrected `GameObject.Receive`, with the same AttributeError left out as for `load_scene`.
- Util.ClampValue: its precondition excludes the inputs on which the source loops forever (bound ≤ 0 with value ≥ bound).
- Vector.Vec2Normalize: requires a nonzero length, because the source divides without a guard.
- Quaternion.QuaternionNormalize: requires the output buffer's length to be nonzero, because the source divides without a guard.
- Quaternion.QuaternionFromAxisAngle: requires the half-angle quaternion to have a nonzero length, because the normalization divides without a guard.
- Binding.QuaternionFromAxisAndDegreesOp: requires the normalization inside it to divide by a nonzero length (`AxisAngleDefined`). Its contract gives the argument rule and the error, not the quaternion.
- Binding.Vector3MultComposes: composition is stated for an affine left factor only. Dropping w and re-adding 1 breaks it for general matrices.
- Binding.Vector3MultOp: the contract fixes only the error class. The dispatch results are stated by `Vector3MultIdentityAndCross`, `Vector3MultTranslation` and `Vector3MultComposes`.
- Binding.Vector3FillOp: the contract fixes only the error class. `FillStringAsymmetry` gives the string case.
- Matrix.LookAtIsAffine: states the fourth column only. That right, up and look sit transposed in rows 0–2 is the definition of `Mat4LookAtLH`, and `LookAtSendsEyeToOrigin` states its translation row.
- Matrix.ScalingScales: states the action of a scaling matrix rather than its sixteen entries. `Matrix.TranslationMovesPoints` does the same for translations.
- Parser.ErrorMessage: states the prefix and the ", msg" suffix. The line and column in the middle are written with `Decimal.IntToString` but not stated.
- Parser.AddItem: a header token's own data is dropped when numbers or polygons follow. The source's data for those headers is None, so nothing is lost.
- Binding.Matrix4x4RotationQuaternionOp: the binding parses "O!O" but supplies one pointer, so the second object is stored through an argument that was never passed. That is undefined behaviour in C. The model takes the call to succeed and to ignore the second object.
- Binding.Vector3AddOp: models the call with a Vector3 on the left. The reflected call `1 + v`, in which the slot reads a foreign left operand as a vector, is `Binding.SlotAsWritten` (see Findings).
- Binding.Vector3SubOp: models the call with a Vector3 on the left. The reflected call `2 - v` is `Binding.SlotAsWritten` (see Findings).
- Binding.Vector3MultOp: the reflected call `2.0 * v` or `"a" * v` is `Binding.SlotAsWritten` (see Findings); this member has a Vector3 on the left.
- Binding.QuaternionMultOp: models the call with a Quaternion on the left. The reflected call `2.0 * q` is `Binding.SlotAsWritten` (see Findings).
- Binding.Matrix4x4MultOp: models the call with a Matrix4x4 on the left. The reflected call `2 * m` is `Binding.SlotAsWritten` (see Findings).
- Binding.SlotAsWritten: what a slot reads from a foreign `self` is undefined in C. The `Reinterpret` parameter stands for it, and no property depends on its value. Division is not affected, because `2.0 / v` fails converting `v` to a float.
- Binding.Matrix4x4RotationAxisOp: requires the axis length to be nonzero (`AxisDefined`), because `Matrix.Mat4RotationAxis` divides by it without a guard.
- Lexer.Transition: `"\r\r"` joins into one LINE_BREAK, while `"\r\n"` gives two. The model follows the code here. The branch for a line ending in comment mode is unreachable, because an earlier branch catches every line ending outside line-break mode.

## Findings

| source | as written | input that shows it | evidently intended | confidence | as-written member | corrected member |
|---|---|---|---|---|---|---|
| py3dengine/math/extension/src/source/py3dquaternion.c:227-234 | `normalize()` calls the kernel with a fresh identity buffer as `out`. The kernel divides by the length of `out`, so it divides by 1 and returns self. | Quaternion (0, 0, 0, 2) normalizes to (0, 0, 0, 2). | A unit quaternion, here (0, 0, 0, 1). | not executed | Binding.QuaternionNormalizeCounterexample | Binding.QuaternionNormalizeFixed |
| py3dengine/core/transform.py:38 | `_refresh_matrix_cache` calls `Matrix4x4.RotationQuaternion` with one argument, but the binding parses "O!O" and needs two. So every `Transform()` raises TypeError. | `Transform()` with default arguments. | A one-argument `RotationQuaternion`, giving the rotation of the orientation. | not executed | Transform.InitAsWrittenAlwaysFails | Binding.Matrix4x4RotationQuaternionFixed |
| py3dengine/core/transform.py:43 | The refresh stores the inverse in `_wit_matrix`, but the getter reads `_wit_mtx`, so `wit_matrix` never reports it. | Any refreshed transform: `wit_matrix` stays None. | The getter returns the cached inverse of the world matrix. | not executed | Transform.WitMatrixStaysEmpty | Transform.WitMatrixIsInverse |
| py3dengine/core/resource_import.py:20-22 | `get_importer` checks registration but has no `return`, so it gives None for a registered type. | Register f for a type, then `get_importer(type)` gives None. | It returns the registered function. | not executed | ResourceImport.GetImporterAsWritten | ResourceImport.GetImporter |
| py3dengine/core/gameobject.py:54 | Propagation calls `child.receive_message(child)`, passing the child instead of the message. | A root with one child, both with default filters, receiving any propagating message: the child accepts a "message" named after itself, then reads `propagate` from a game object and raises AttributeError. | Each child receives the same message. | not executed | GameObject.PropagationWitness | GameObject.Receive |
| py3dengine/core/gameobject.py:106 | `attach_component` sets `new_component.owner`, a plain attribute, while `bubble_message` reads `_owner`. So an attached component never bubbles. | Attach a component, then bubble from it: nothing is delivered. | The owner becomes the game object. | not executed | GameObject.AttachComponentAsWritten | GameObject.AttachComponent |
| py3dengine/core/gameobject.py:114 | `detach_component` clears `component.owner`, not `_owner`, so a detached component still bubbles to its old owner. | Attach (corrected) then detach a component: its `_owner` is still the object. | The owner is cleared. | not executed | GameObject.DetachedComponentBubbles | GameObject.DetachComponent |
| py3dengine/math/extension/src/source/py3dvector3.c:178-267 | The `+`, `-` and `*` slots of Vector3, and the `*` slots of Quaternion (py3dquaternion.c:212-225) and Matrix4x4 (py3dmatrix4x4.c:284-297), check only `other` and cast `self` unchecked. Python calls them with the extension object on the right when the left operand is a number or other foreign object, so they read that object's memory as elements. | `2.0 * Vector3(1, 0, 0)`: the slot takes (1, 0, 0) as `other` and returns a cross product with x component 0. | A foreign left operand is refused, so the expression raises TypeError. | not executed | Binding.ReflectedScaleCounterexample | Binding.CheckedSlot |
