/**
 * JSON values as Python's json module hands them over: None, booleans,
 * strings, integers, floats, lists and string-keyed dicts. Their text form
 * is not modelled: wherever text is produced or read, the encoder or the
 * decoder is a parameter.
 */
module Json {

  datatype JsonValue =
    | JNull
    | JBool(b: bool)
    | JStr(s: string)
    | JInt(i: int)    // a Python 2 `int`
    | JLong(l: int)   // a Python 2 `long`, whatever its value (5L, 2**64 // 2**62)
    | JFloat(f: real)
    | JArr(items: seq<JsonValue>)
    | JObj(fields: map<string, JsonValue>)

  /** Python truthiness, as in `if data:`: None, False, zero, "" and empty containers are false. */
  predicate Truthy(v: JsonValue) {
    match v
    case JNull => false
    case JBool(b) => b
    case JStr(s) => s != ""
    case JInt(i) => i != 0
    case JLong(l) => l != 0
    case JFloat(f) => f != 0.0
    case JArr(items) => items != []
    case JObj(fields) => fields != map[]
  }

  /**
   * `sys.maxint` of Python 2 on 64-bit Linux and macOS: the largest `int`.
   * Arithmetic beyond it yields a `long`.
   */
  const PyMaxInt: int := 0x7fff_ffff_ffff_ffff

  /** Whether the value fits a Python 2 `int`. */
  predicate IsPyInt(i: int) {
    -PyMaxInt - 1 <= i <= PyMaxInt
  }

  /**
   * `isinstance(v, (unicode, str, int, float))`. In Python `bool` is a
   * subclass of `int`, so booleans are scalars too. A `long` is not an `int`,
   * whatever its value; a `JInt` outside the `int` range stands for the
   * `long` that Python would hold there.
   */
  predicate IsScalar(v: JsonValue) {
    v.JBool? || v.JStr? || (v.JInt? && IsPyInt(v.i)) || v.JFloat?
  }

  /** `d.get(key)` on a dict: the value stored under the key, or None. */
  function Lookup(fields: map<string, JsonValue>, key: string): JsonValue {
    if key in fields then fields[key] else JNull
  }
}
