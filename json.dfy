/**
 * JSON values as JavaScript code sees them after parsing a response body,
 * with the JavaScript operations the dashboard applies to them: truthiness,
 * property reads and the `typeof` / `Array.isArray` tests.
 *
 * A property that is absent reads as `undefined`, written here as `None`.
 */
module Json {

  datatype Option<+T> = None | Some(value: T)

  datatype Result<+T, +E> = Ok(value: T) | Err(error: E)

  datatype Json =
    | JNull
    | JBool(b: bool)
    | JNum(n: real)
    | JStr(s: string)
    | JArr(items: seq<Json>)
    | JObj(fields: map<string, Json>)

  /** A JavaScript value that may be `undefined` (`None`). */
  type Value = Option<Json>

  /**
   * A JavaScript exception: the `TypeError` raised by reading a property of
   * `null` or `undefined` or by calling something that is not a function, or
   * an error thrown by a callee (the HTTP client) carrying its message, or the
   * exception a library call is taken to throw on input whose real handling
   * by the library is not modelled.
   */
  datatype Fault =
    | TypeError
    | Thrown(reason: string)
    | Unmodelled(what: string)

  /** JavaScript truthiness of a parsed JSON value. */
  predicate Truthy(v: Value) {
    match v
    case None => false
    case Some(j) =>
      match j
      case JNull => false
      case JBool(b) => b
      case JNum(n) => n != 0.0
      case JStr(s) => s != ""
      case JArr(_) => true
      case JObj(_) => true
  }

  /**
   * `v[key]` for a value that is neither `null` nor `undefined`: an object's
   * own field, and `undefined` for every other value (the property names used
   * by the dashboard are none of the built-in properties of strings, numbers
   * or arrays).
   */
  function Lookup(v: Value, key: string): Value {
    if v.Some? && v.value.JObj? && key in v.value.fields then Some(v.value.fields[key]) else None
  }

  /**
   * `v[key]` with JavaScript's `TypeError` when `v` is `null` or `undefined`.
   * The only exception is that `TypeError`; a defined result comes only from
   * an object that has the key as its own field; every other value that is
   * not `null` or `undefined` (a string, number, boolean, array or an object
   * without the key) answers `undefined`.
   */
  function Member(v: Value, key: string): (r: Result<Value, Fault>)
    ensures r.Err? <==> v == None || v == Some(JNull)
    ensures r.Err? ==> r.error == TypeError
    ensures r.Ok? && r.value.Some? <==> v.Some? && v.value.JObj? && key in v.value.fields
    ensures r.Ok? && r.value.Some? ==> r.value.value == v.value.fields[key]
    ensures r.Ok? ==> Truthy(r.value) ==> v.Some? && v.value.JObj?
  {
    if v == None || v == Some(JNull) then Err(TypeError) else Ok(Lookup(v, key))
  }

  /** `typeof v === 'number'` */
  predicate IsNumber(v: Value) {
    v.Some? && v.value.JNum?
  }

  /** `typeof v === 'string'` */
  predicate IsString(v: Value) {
    v.Some? && v.value.JStr?
  }

  /** `Array.isArray(v)` */
  predicate IsArray(v: Value) {
    v.Some? && v.value.JArr?
  }

  /** `typeof v === 'object'`, which holds of `null` and of arrays too. */
  predicate TypeofObject(v: Value) {
    v.Some? && (v.value.JNull? || v.value.JArr? || v.value.JObj?)
  }

  /** A string-valued field read, `v[key] === s`. */
  predicate FieldIs(v: Value, key: string, s: string) {
    Lookup(v, key) == Some(JStr(s))
  }
}
