/**
 * JavaScript values as the two backends see them: the parsed JSON body of an
 * upstream response, or `undefined` (what reading a missing property yields).
 */
module JsValues {
  import opened Wrappers

  /** A JavaScript number, kept as its IEEE-754 bit pattern: the core only copies numbers. */
  datatype Number = Number(bits: bv64)

  datatype Json =
    | JNull
    | JBool(b: bool)
    | JNum(n: Number)
    | JStr(s: string)
    | JArray(items: seq<Json>)
    | JObject(fields: map<string, Json>)

  datatype JsValue = Undefined | Defined(json: Json)

  /** An object built by an object literal: each property may hold `undefined`. */
  type JsObject = map<string, JsValue>

  /** The `TypeError` thrown by `v.key` when `v` is `undefined` or `null`. */
  datatype TypeError = CannotRead(key: string)

  /** Reading a property of `v` does not throw: `v` is neither `undefined` nor `null`. */
  predicate Readable(v: JsValue) {
    v != Undefined && v != Defined(JNull)
  }

  /** The value of `v.key` when the read does not throw: an own field of an object, else `undefined`. */
  function Field(v: JsValue, key: string): JsValue {
    if v.Defined? && v.json.JObject? && key in v.json.fields then Defined(v.json.fields[key]) else Undefined
  }

  /** The property read `v.key` (also a destructuring `const { key } = v`). */
  function ReadProperty(v: JsValue, key: string): (r: Result<JsValue, TypeError>)
    ensures r.Err? <==> !Readable(v)
    ensures r.Ok? ==> r.value == Field(v, key)
    ensures r.Err? ==> r.error == CannotRead(key)
  {
    match v
    case Undefined => Err(CannotRead(key))
    case Defined(JNull) => Err(CannotRead(key))
    case Defined(JObject(fields)) => if key in fields then Ok(Defined(fields[key])) else Ok(Undefined)
    case Defined(_) => Ok(Undefined)
  }
}
