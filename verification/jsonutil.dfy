/** json_util.py: reading a property of a decoded JSON object with an exact type check. */
module JsonUtil {
  import opened Wrappers
  import opened Py

  /** fetch_property: a missing key is a KeyError and a value whose class is not exactly the
      expected one (so a bool where an int is expected) is a TypeError. */
  function FetchProperty(json: map<string, PyObj>, key: string, expected: PyType): (r: Result<PyObj, Exc>)
    ensures r.Ok? <==> key in json && TypeOf(json[key]) == expected
    ensures r.Ok? ==> r.value == json[key]
    ensures key !in json ==> r == Err(KeyError)
    ensures key in json && TypeOf(json[key]) != expected ==> r == Err(TypeError)
  {
    if key !in json then Err(KeyError)
    else if TypeOf(json[key]) != expected then Err(TypeError)
    else Ok(json[key])
  }

  /** fetch_optional_property: a missing key gives the default, but a present key of the wrong
      class is still a TypeError. */
  function FetchOptionalProperty(json: map<string, PyObj>, key: string, expected: PyType, default: PyObj): (r: Result<PyObj, Exc>)
    ensures key !in json ==> r == Ok(default)
    ensures key in json ==> r == FetchProperty(json, key, expected)
  {
    if key !in json then Ok(default)
    else FetchProperty(json, key, expected)
  }

  /** The type check is exact: a bool is not accepted where an int is expected, nor an int where
      a float is, even though Python treats both as numbers. */
  lemma FetchIsExact(json: map<string, PyObj>, key: string, default: PyObj)
    ensures key in json && json[key].Bool? ==> FetchProperty(json, key, IntType) == Err(TypeError)
    ensures key in json && json[key].Int? ==> FetchOptionalProperty(json, key, FloatType, default) == Err(TypeError)
  {
  }
}
