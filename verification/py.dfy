/** The Python values and exceptions the bindings and the engine exchange, and the two ways the
    bindings turn a Python value into a float. */
module Py {
  import opened Wrappers
  import opened Vector
  import opened Quaternion
  import opened Matrix

  /** A Python object as far as the modelled code inspects it. Dictionaries are keyed by strings,
      which is all the lookups in the model use; `Opaque` stands for any object of another class. */
  datatype PyObj =
    | NoneObj
    | Bool(b: bool)
    | Int(i: int)
    | Float(f: real)
    | Str(s: string)
    | List(items: seq<PyObj>)
    | Tuple(items: seq<PyObj>)
    | Dict(entries: map<string, PyObj>)
    | Vector3Obj(v: Vec3)
    | QuaternionObj(q: Quat)
    | Matrix4x4Obj(m: Mat4)
    | Opaque(className: string)

  /** The class of a value: what `type(x)` answers. */
  datatype PyType =
    | NoneType | BoolType | IntType | FloatType | StrType | ListType | TupleType | DictType
    | Vector3Type | QuaternionType | Matrix4x4Type | OpaqueType(name: string)

  function TypeOf(o: PyObj): PyType {
    match o
    case NoneObj => NoneType
    case Bool(_) => BoolType
    case Int(_) => IntType
    case Float(_) => FloatType
    case Str(_) => StrType
    case List(_) => ListType
    case Tuple(_) => TupleType
    case Dict(_) => DictType
    case Vector3Obj(_) => Vector3Type
    case QuaternionObj(_) => QuaternionType
    case Matrix4x4Obj(_) => Matrix4x4Type
    case Opaque(n) => OpaqueType(n)
  }

  /** The built-in exceptions the modelled code raises, plus the engine's own error classes. */
  datatype Exc =
    | TypeError
    | ValueError
    | KeyError
    | ZeroDivisionError
    | ArithmeticError
    | AssertionError
    | RecursionError
    | IndexError
    | AttributeError
    | OSError
    | SceneError
    | ConfigError

  /** Python's float() of a string: the model does not define which strings parse, so every
      operation that can convert a string takes the parser as a parameter. */
  type FloatParser = string -> Option<real>

  /** PyNumber_Float: floats, ints and bools convert, a string converts when it parses (else
      ValueError), and anything else is a TypeError. */
  function NumberFloat(o: PyObj, parse: FloatParser): (r: Result<real, Exc>)
    ensures r.Err? ==> r.error == TypeError || (o.Str? && r.error == ValueError)
    ensures o.Float? ==> r == Ok(o.f)
  {
    match o
    case Float(f) => Ok(f)
    case Int(i) => Ok(i as real)
    case Bool(b) => Ok(if b then 1.0 else 0.0)
    case Str(s) => (match parse(s) case Some(f) => Ok(f) case None => Err(ValueError))
    case _ => Err(TypeError)
  }

  /** The "f" unit of PyArg_ParseTuple: like PyNumber_Float but without string parsing, so a
      string is a TypeError. */
  function ArgFloat(o: PyObj): (r: Result<real, Exc>)
    ensures r.Ok? <==> (o.Float? || o.Int? || o.Bool?)
    ensures r.Err? ==> r.error == TypeError
  {
    match o
    case Float(f) => Ok(f)
    case Int(i) => Ok(i as real)
    case Bool(b) => Ok(if b then 1.0 else 0.0)
    case _ => Err(TypeError)
  }

  /** Whatever string parser is in force, every value "f" accepts PyNumber_Float accepts too,
      with the same number. */
  lemma ArgFloatRefinesNumberFloat(o: PyObj, parse: FloatParser)
    ensures ArgFloat(o).Ok? ==> NumberFloat(o, parse) == ArgFloat(o)
  {
  }

  /** Python truthiness: false for None, False, zero and empty containers; the extension types and
      other objects define no truth test and are true. */
  predicate Truthy(o: PyObj) {
    match o
    case NoneObj => false
    case Bool(b) => b
    case Int(i) => i != 0
    case Float(f) => f != 0.0
    case Str(s) => |s| > 0
    case List(items) => |items| > 0
    case Tuple(items) => |items| > 0
    case Dict(d) => |d| > 0
    case _ => true
  }

  /** Python's `seq[index]`: a negative index counts from the end; anything outside is an
      IndexError. */
  function PyIndex<T>(s: seq<T>, index: int): (r: Result<T, Exc>)
    ensures r.Ok? <==> -|s| <= index < |s|
    ensures 0 <= index < |s| ==> r == Ok(s[index])
    ensures -|s| <= index < 0 ==> r == Ok(s[|s| + index])
    ensures r.Err? ==> r.error == IndexError
  {
    if 0 <= index < |s| then Ok(s[index])
    else if -|s| <= index < 0 then Ok(s[|s| + index])
    else Err(IndexError)
  }
}
