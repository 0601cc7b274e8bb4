/**
 * Parsed JSON as the JavaScript code sees it after `res.json()`: an open record
 * whose properties may be missing. A missing property reads as `Undefined`.
 */
module Json {

  datatype Value =
    | Undefined
    | Null
    | Bool(b: bool)
    | Num(n: int)
    | Str(s: string)
    | Arr(elems: seq<Value>)
    | Obj(fields: map<string, Value>)

  /** `null` or `undefined`: the values on which `??` falls back and `?.` stops. */
  predicate Nullish(v: Value) {
    v.Undefined? || v.Null?
  }

  /** JavaScript truthiness, as `if (v)` and `||` test it. */
  predicate Truthy(v: Value) {
    match v
    case Undefined => false
    case Null => false
    case Bool(b) => b
    case Num(n) => n != 0
    case Str(s) => s != ""
    case Arr(_) => true
    case Obj(_) => true
  }

  /**
   * Reading property `key`: the field of an object, `undefined` otherwise. This is
   * `v?.key` on every value, and `v.key` on every value that is not nullish, for
   * the keys the client reads. One of them, `search`, is also a method of
   * strings (`String.prototype.search`); the client only reads `.results` of it,
   * which is `undefined` on that function just as on the `undefined` this model
   * gives. None of the other keys is a property of strings, numbers, booleans or arrays.
   */
  function Member(v: Value, key: string): Value {
    if v.Obj? && key in v.fields then v.fields[key] else Undefined
  }

  /** A property of a record held as a map. */
  function Get(m: map<string, Value>, key: string): Value {
    Member(Obj(m), key)
  }

  /** `a ?? b` */
  function Coalesce(a: Value, b: Value): Value {
    if Nullish(a) then b else a
  }

  /** `a || b` */
  function Or(a: Value, b: Value): Value {
    if Truthy(a) then a else b
  }
}
