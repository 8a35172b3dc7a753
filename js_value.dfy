/**
 * The JSON values a request body can carry in a field, with JavaScript's
 * truthiness and the text the database driver sends when such a value is
 * bound as a query parameter.
 */
module JsValue {
  import opened Wrappers
  import opened JsText

  /** A JSON value as the request body can carry it; numbers are whole. */
  datatype Json = JNull | JUndefined | JBool(b: bool) | JNumber(n: int) | JString(s: string)

  /** `Boolean(v)`: false exactly for `false`, 0, "", `null` and `undefined`. */
  predicate Truthy(v: Json) {
    match v
    case JNull => false
    case JUndefined => false
    case JBool(b) => b
    case JNumber(n) => n != 0
    case JString(s) => s != ""
  }

  /**
   * The text a bound query parameter is sent as: a string as it is, a number
   * as its decimal text, a boolean as "true" or "false"; `null` and
   * `undefined` are SQL NULL (`None`).
   */
  function ParamText(v: Json): (r: Option<string>)
    ensures v.JString? ==> r == Some(v.s)
    ensures r.None? <==> v.JNull? || v.JUndefined?
    ensures Truthy(v) ==> r.Some? && r.value != ""
  {
    match v
    case JNull => None
    case JUndefined => None
    case JBool(b) => Some(if b then "true" else "false")
    case JNumber(n) => Some(IntToString(n))
    case JString(s) => Some(s)
  }

  /** A number bound as a parameter is sent as text that reads back as the same number. */
  lemma ParamTextNumber(n: int)
    ensures ParamText(JNumber(n)).Some? && ParseInt(ParamText(JNumber(n)).value) == Some(n)
  {
    ParseIntToString(n);
  }
}
