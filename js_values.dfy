/**
 * JavaScript values as the client layer sees them: the values a JSON body
 * parses to, `undefined`, truthiness, property access, and `String(v)`.
 */
module JsValues {
  import opened Wrappers
  import opened JsStrings

  /**
   * A JSON value. Numbers are integers (a body's fractional numbers are not
   * modelled); an object is a map because `JSON.parse` keeps only the last of
   * duplicate keys.
   */
  datatype Json =
    | JNull
    | JBool(b: bool)
    | JNum(n: int)
    | JStr(s: string)
    | JArr(items: seq<Json>)
    | JObj(fields: map<string, Json>)

  /** A value that may be `undefined` (`None`). */
  type Value = Option<Json>

  /** JavaScript truthiness: `undefined`, `null`, `false`, `0` and `""` are falsy. */
  predicate Truthy(v: Value) {
    match v
    case None => false
    case Some(JNull) => false
    case Some(JBool(b)) => b
    case Some(JNum(n)) => n != 0
    case Some(JStr(s)) => s != ""
    case Some(JArr(_)) => true
    case Some(JObj(_)) => true
  }

  /**
   * `j.key` for a `j` that is not `null`: an own property of an object. The
   * keys this layer reads (`message`, `token`, `email`, ...) are not
   * properties of strings, arrays, numbers or booleans, so those give `undefined`.
   */
  function Field(j: Json, key: string): (v: Value)
    ensures v.Some? ==> j.JObj? && key in j.fields && v.value == j.fields[key]
  {
    match j
    case JObj(m) => if key in m then Some(m[key]) else None
    case _ => None
  }

  /** `v?.key`: `undefined` when `v` is `null` or `undefined`. */
  function Prop(v: Value, key: string): (r: Value)
    ensures v.None? || v == Some(JNull) ==> r.None?
  {
    match v
    case None => None
    case Some(j) => Field(j, key)
  }

  /**
   * `const { ... } = v` succeeds unless `v` is `null` or `undefined`, for
   * which it throws a `TypeError`.
   */
  predicate Destructurable(v: Value) {
    v.Some? && v.value != JNull
  }

  /** `v || fallback` */
  function Or(v: Value, fallback: Json): (r: Json)
    ensures Truthy(v) ==> Some(r) == v
    ensures !Truthy(v) ==> r == fallback
  {
    if Truthy(v) then v.value else fallback
  }

  /**
   * `String(j)`: strings as they are, arrays joined with ",", every plain
   * object as "[object Object]".
   */
  function ToString(j: Json): string
    decreases j, 1
  {
    match j
    case JNull => "null"
    case JBool(b) => if b then "true" else "false"
    case JNum(n) => IntToString(n)
    case JStr(s) => s
    case JArr(xs) => Join(xs, ",")
    case JObj(_) => "[object Object]"
  }

  /** `Array.prototype.join(sep)`: `null` elements print as the empty string. */
  function Join(xs: seq<Json>, sep: string): string
    decreases xs, 0
  {
    if xs == [] then ""
    else
      var first := if xs[0] == JNull then "" else ToString(xs[0]);
      if |xs| == 1 then first else first + sep + Join(xs[1..], sep)
  }

  /** `String(v)` for a value that may be `undefined`. */
  function StringOf(v: Value): string {
    match v
    case None => "undefined"
    case Some(j) => ToString(j)
  }
}
