/** The parsed JSON request body, as far as the route handlers look into it. */
module Json {
  import opened Wrappers

  /** A JSON value; numbers keep their literal text, which the handlers never inspect. */
  datatype Value =
    | Null
    | Bool(b: bool)
    | Number(literal: string)
    | Str(s: string)
    | Array(items: seq<Value>)
    | Object(fields: map<string, Value>)

  /**
   * `(req.body || {})[key]`, with `None` for `undefined`. A missing or falsy
   * body is replaced by `{}`; a string, number, boolean or array body has no
   * own property named like a request field, so only an object can supply one.
   */
  function Field(body: Option<Value>, key: string): (r: Option<Value>)
    ensures r.Some? <==> body.Some? && body.value.Object? && key in body.value.fields
    ensures r.Some? ==> r.value == body.value.fields[key]
  {
    match body
    case Some(Object(fields)) => if key in fields then Some(fields[key]) else None
    case _ => None
  }

  /**
   * JavaScript truthiness of a JSON value. Whether a number is truthy
   * (everything but `0`, `-0` and `NaN`) depends on its literal, so it is
   * left to the parameter `numberTruthy`.
   */
  predicate Truthy(v: Value, numberTruthy: string -> bool) {
    match v
    case Null => false
    case Bool(b) => b
    case Number(literal) => numberTruthy(literal)
    case Str(s) => s != []
    case Array(_) => true
    case Object(_) => true
  }

  /** `body || {}`, with `None` for an absent (`undefined`) body. */
  function OrEmpty(body: Option<Value>, numberTruthy: string -> bool): Value {
    if body.Some? && Truthy(body.value, numberTruthy) then body.value else Object(map[])
  }

  /**
   * `v[key]` for the keys the handlers read: an object's own field. A string,
   * number, boolean or array value has no property named `prompt` or `lyrics`.
   */
  function Get(v: Value, key: string): Option<Value> {
    if v.Object? && key in v.fields then Some(v.fields[key]) else None
  }

  /**
   * `Field` is `(req.body || {})[key]` as written, whatever the truthiness of
   * numbers: a falsy body is replaced by `{}`, which holds no field.
   */
  lemma FieldIsLookup(body: Option<Value>, key: string, numberTruthy: string -> bool)
    ensures Field(body, key) == Get(OrEmpty(body, numberTruthy), key)
  {
    if body.Some? && body.value.Object? {
      assert Truthy(body.value, numberTruthy);
    }
  }
}

/** The helpers of the server: the reference loader and `safeStr`. */
module Helpers {
  import opened Wrappers
  import opened JsString
  import opened Json

  /** How many characters of the reference file the loader keeps. */
  const REFERENCE_LIMIT: nat := 14000

  /**
   * `getReferenceText`: the reference file's contents cut to their first
   * 14000 characters, or the empty string when the file cannot be read
   * (`None`).
   */
  function ReferenceText(file: Option<string>): (r: string)
    ensures |r| <= REFERENCE_LIMIT
    ensures file.None? ==> r == []
    ensures file.Some? ==> StartsWith(file.value, r)
    ensures file.Some? && |file.value| <= REFERENCE_LIMIT ==> r == file.value
    ensures file.Some? && |file.value| > REFERENCE_LIMIT ==> |r| == REFERENCE_LIMIT
    ensures r == [] <==> file.None? || file.value == []
  {
    match file
    case None => ""
    case Some(text) => Prefix(text, REFERENCE_LIMIT)
  }

  /** The string `safeStr` starts from: the value itself when it is a string, the default otherwise. */
  function StringOr(v: Option<Value>, d: string): string {
    if v.Some? && v.value.Str? then v.value.s else d
  }

  /**
   * `safeStr(v, maxLen, d)`: coerces a request field to a string (a
   * non-string becomes `d`) and keeps at most `maxLen` characters of it.
   */
  function SafeStr(v: Option<Value>, maxLen: nat, d: string): (r: string)
    ensures |r| <= maxLen
    ensures v.Some? && v.value.Str? ==> StartsWith(v.value.s, r)
    ensures !(v.Some? && v.value.Str?) ==> StartsWith(d, r)
    ensures v.Some? && v.value.Str? && |v.value.s| <= maxLen ==> r == v.value.s
    ensures |StringOr(v, d)| <= maxLen ==> r == StringOr(v, d)
    ensures |StringOr(v, d)| > maxLen ==> |r| == maxLen
  {
    Prefix(StringOr(v, d), maxLen)
  }
}
