/** Values as the relay sees them after JSON parsing, and the few JavaScript
    coercions the relay applies to them: truthiness, property access and
    string conversion. */
module JsValues {
  import opened Wrappers
  import JsNumbers

  /** A parsed upstream body (or a raw text body, as `JStr`). JSON numbers
      are modelled as integers. */
  datatype Json =
    | JNull
    | JBool(b: bool)
    | JNum(n: int)
    | JStr(s: string)
    | JArr(items: seq<Json>)
    | JObj(fields: map<string, Json>)

  /** JavaScript truthiness: `null`, `false`, `0` and `""` are falsy;
      every array and object is truthy. */
  predicate Truthy(v: Json)
  {
    match v
    case JNull => false
    case JBool(b) => b
    case JNum(n) => n != 0
    case JStr(s) => s != ""
    case JArr(_) => true
    case JObj(_) => true
  }

  /** `v.key` on a value that is not null: an own field of an object, and
      `undefined` (None) for every other kind of value, since none of the
      keys the relay reads exists on the prototypes of strings, numbers,
      booleans or arrays. */
  function Get(v: Json, key: string): (r: Option<Json>)
    ensures r.Some? <==> v.JObj? && key in v.fields
    ensures r.Some? ==> r.value == v.fields[key]
  {
    if v.JObj? && key in v.fields then Some(v.fields[key]) else None
  }

  /** `o?.key`: short-circuits to `undefined` on `undefined` and on `null`. */
  function OptGet(o: Option<Json>, key: string): (r: Option<Json>)
    ensures (o.None? || o.value == JNull) ==> r.None?
    ensures o.Some? && o.value != JNull ==> r == Get(o.value, key)
  {
    match o
    case None => None
    case Some(v) => if v == JNull then None else Get(v, key)
  }

  /** Truthiness of a possibly-undefined value. */
  predicate OptTruthy(o: Option<Json>)
  {
    o.Some? && Truthy(o.value)
  }

  /** `String(v)`: the conversion a template literal or `+` applies, and
      also what `v.toString()` gives for a non-null value. Arrays join their
      elements with "," and render `null` elements as empty text; plain
      objects render as "[object Object]". */
  function ToStr(v: Json): string
    decreases v, 1
  {
    match v
    case JNull => "null"
    case JBool(b) => if b then "true" else "false"
    case JNum(n) => JsNumbers.IntToString(n)
    case JStr(s) => s
    case JArr(items) => JoinFrom(v, 0)
    case JObj(_) => "[object Object]"
  }

  /** The `Array.prototype.join(",")` of the elements of the array `arr`
      from index `i` on. */
  function JoinFrom(arr: Json, i: nat): string
    requires arr.JArr? && i <= |arr.items|
    decreases arr, 0, |arr.items| - i
  {
    if i == |arr.items| then ""
    else
      var x := arr.items[i];
      var head := if x == JNull then "" else ToStr(x);
      if i + 1 == |arr.items| then head else head + "," + JoinFrom(arr, i + 1)
  }

  /** `o?.toString()`: undefined on undefined and on null. */
  function OptToString(o: Option<Json>): (r: Option<string>)
    ensures r.None? <==> o.None? || o.value == JNull
  {
    match o
    case None => None
    case Some(v) => if v == JNull then None else Some(ToStr(v))
  }

  /** The message of the TypeError V8 raises for `null.key`. */
  function ReadOfNullMessage(key: string): string
  {
    "Cannot read properties of null (reading '" + key + "')"
  }
}
