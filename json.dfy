/**
 * Request bodies and stored documents as JSON-like values. A key that is
 * absent from an object stands for a `undefined` property; numbers are
 * integers, and `JNaN` stands for `NaN` (or a number the integer model
 * does not represent).
 */
module JsonValues {
  import opened Wrappers
  import opened Strings

  datatype Json =
    | JNull
    | JBool(b: bool)
    | JNum(n: int)
    | JNaN
    | JStr(s: string)
    | JArr(items: seq<Json>)
    | JObj(fields: map<string, Json>)

  type Object = map<string, Json>

  /** The property `k` of `obj`, `None` when it is `undefined`. */
  function Get(obj: Object, k: string): Option<Json> {
    if k in obj then Some(obj[k]) else None
  }

  /** `Array.prototype.join(",")` over already converted elements. */
  function JoinComma(parts: seq<string>): string {
    if |parts| == 0 then ""
    else if |parts| == 1 then parts[0]
    else parts[0] + "," + JoinComma(parts[1..])
  }

  /** `String(v)`; inside an array, `null` elements print as the empty string. */
  function JsString(v: Json): string
    decreases v
  {
    match v
    case JNull => "null"
    case JBool(b) => if b then "true" else "false"
    case JNum(n) => IntToString(n)
    case JNaN => "NaN"
    case JStr(s) => s
    case JArr(items) =>
      JoinComma(seq(|items|, i requires 0 <= i < |items| => if items[i] == JNull then "" else JsString(items[i])))
    case JObj(_) => "[object Object]"
  }

  /** JavaScript truthiness of a possibly `undefined` value. */
  predicate Truthy(v: Option<Json>) {
    match v
    case None => false
    case Some(JNull) => false
    case Some(JBool(b)) => b
    case Some(JNum(n)) => n != 0
    case Some(JNaN) => false
    case Some(JStr(s)) => s != ""
    case Some(JArr(_)) => true
    case Some(JObj(_)) => true
  }

  /** `Number(v)`; `None` is `NaN`. Arrays convert through their string form. */
  function ToNumber(v: Json): Option<int> {
    match v
    case JNull => Some(0)
    case JBool(b) => Some(if b then 1 else 0)
    case JNum(n) => Some(n)
    case JNaN => None
    case JStr(s) => NumberOf(s)
    case _ => NumberOf(JsString(v))
  }

  /** `Number(v)` as a JSON value, as `data.coords.map((x) => Number(x))` stores it. */
  function NumberValue(v: Json): Json {
    match ToNumber(v)
    case Some(n) => JNum(n)
    case None => JNaN
  }

  /** `Number.isFinite(v)`: true only of a number that is not `NaN`. */
  predicate IsFiniteNumber(v: Json) {
    v.JNum?
  }
}
