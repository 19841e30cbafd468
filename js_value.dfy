/**
 * Dynamically typed JavaScript values, for the places where the extension
 * inspects data of unknown shape (`any` parameters checked with `typeof`,
 * `Array.isArray` and truthiness).
 */
module Js {
  import opened Wrappers
  import opened JsString

  /** A JavaScript value. Numbers are integers here; `JError` is an
    * instance of `Error`, whose `message` property is a string and whose
    * other properties are `props`. */
  datatype Value =
    | JUndefined
    | JNull
    | JBool(b: bool)
    | JNum(n: int)
    | JStr(s: string)
    | JArray(elems: seq<Value>)
    | JObject(fields: map<string, Value>)
    | JError(message: string, props: map<string, Value>)

  /** `!!v` */
  predicate Truthy(v: Value)
  {
    match v
    case JUndefined => false
    case JNull => false
    case JBool(b) => b
    case JNum(n) => n != 0
    case JStr(s) => s != ""
    case _ => true
  }

  /** `typeof v === 'object'`, which holds for `null` as well. */
  predicate IsObjectType(v: Value)
  {
    v.JNull? || v.JArray? || v.JObject? || v.JError?
  }

  /** `v === null || v === undefined`: reading a property of such a value throws. */
  predicate Nullish(v: Value)
  {
    v.JNull? || v.JUndefined?
  }

  /** `v[key]` for a value that is not nullish; also `v?.[key]`, which gives
    * `undefined` for a nullish `v`. Arrays and primitives carry none of the
    * property names the extension reads. */
  function Field(v: Value, key: string): (r: Value)
    ensures Nullish(v) ==> r == JUndefined
    ensures v.JObject? ==> r == if key in v.fields then v.fields[key] else JUndefined
  {
    match v
    case JObject(fields) => if key in fields then fields[key] else JUndefined
    case JError(message, props) =>
      if key == "message" then JStr(message) else if key in props then props[key] else JUndefined
    case _ => JUndefined
  }

  /** `a || b` */
  function Or(a: Value, b: Value): (r: Value)
    ensures Truthy(a) ==> r == a
    ensures !Truthy(a) ==> r == b
  {
    if Truthy(a) then a else b
  }

  /** A string-valued `Error` instance with no extra properties: `new Error(message)`. */
  function NewError(message: string): Value
  {
    JError(message, map[])
  }

  /** What a failing operation throws: a value passed on unchanged, a
    * `new Error(message)` built from some value, the TypeError of reading
    * `property` of `undefined` or `null`, or the TypeError of calling a
    * method a value does not have. */
  datatype Failure =
    | Thrown(value: Value)
    | ErrorWith(message: Value)
    | TypeErrorReading(property: string)
    | TypeErrorCalling(name: string)

  /** `v.trim()` for a value of unknown type: reading `trim` of a nullish
    * value throws, and on any other non-string it is not a function. */
  function TrimValue(v: Value): (r: Result<string, Failure>)
    ensures v.JStr? ==> r == Ok(Trim(v.s))
    ensures !v.JStr? ==> r.Err?
  {
    if v.JStr? then Ok(Trim(v.s))
    else if Nullish(v) then Err(TypeErrorReading("trim"))
    else Err(TypeErrorCalling("trim"))
  }
}
