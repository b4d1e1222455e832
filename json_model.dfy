/**
 * Decoded JSON values as the worker sees them after `JSON.parse`, with the
 * parts of JavaScript's semantics the guards and handlers rely on: property
 * access (`undefined` when missing), truthiness and `typeof`.
 */
module JsonModel {
  import opened Wrappers

  /** A JSON value. Numbers are mathematical reals: the infinities `JSON.parse` gives for out-of-range literals are not modelled. */
  datatype Json =
    | JNull
    | JBool(b: bool)
    | JNumber(n: real)
    | JString(s: string)
    | JArray(items: seq<Json>)
    | JObject(fields: map<string, Json>)

  /**
   * A JavaScript value that may be `undefined` (None). Property access
   * `v.key` on an object yields the field, and on any other non-nullish value
   * yields `undefined` (the keys read by this system are not properties of
   * arrays, strings, numbers or booleans).
   */
  function Get(v: Option<Json>, key: string): (r: Option<Json>)
    ensures r.Some? ==> v.Some? && v.value.JObject? && key in v.value.fields
  {
    if v.Some? && v.value.JObject? && key in v.value.fields then Some(v.value.fields[key]) else None
  }

  /** JavaScript truthiness: `undefined`, `null`, `false`, `0` and `""` are falsy. */
  predicate Truthy(v: Option<Json>) {
    match v
    case None => false
    case Some(JNull) => false
    case Some(JBool(b)) => b
    case Some(JNumber(n)) => n != 0.0
    case Some(JString(s)) => s != ""
    case Some(JArray(_)) => true
    case Some(JObject(_)) => true
  }

  /** `typeof v === 'object'`: true of `null`, arrays and objects. */
  predicate TypeofObject(v: Option<Json>) {
    v.Some? && (v.value.JNull? || v.value.JArray? || v.value.JObject?)
  }

  /** `typeof v === 'number'`. */
  predicate TypeofNumber(v: Option<Json>) {
    v.Some? && v.value.JNumber?
  }

  /** `typeof v === 'string'`. */
  predicate TypeofString(v: Option<Json>) {
    v.Some? && v.value.JString?
  }

  /** `typeof v === 'boolean'`. */
  predicate TypeofBoolean(v: Option<Json>) {
    v.Some? && v.value.JBool?
  }

  /** `v && typeof v === 'object'`, the opening test of every guard. */
  predicate IsObjectLike(v: Option<Json>) {
    Truthy(v) && TypeofObject(v)
  }

  /** `v === undefined || typeof v === 'number'`. */
  predicate OptionalNumber(v: Option<Json>) {
    v.None? || TypeofNumber(v)
  }

  /** `v === undefined || typeof v === 'string'`. */
  predicate OptionalString(v: Option<Json>) {
    v.None? || TypeofString(v)
  }
}
