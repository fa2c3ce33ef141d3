/** A JSON value as `JSON.parse` hands it to the code, with the two JavaScript
    coercions the bot applies to such values: truthiness and `String(x)`. */
module Json {
  import opened Wrappers

  /** A parsed JSON value. A number carries the text JavaScript's `String(x)` prints for
      it (so `1e21` carries "1e+21"); JSON has no NaN, so only "0" is a falsy number. */
  datatype JsonValue =
    | JNull
    | JBool(b: bool)
    | JNumber(text: string)
    | JString(s: string)
    | JArray(items: seq<JsonValue>)
    | JObject(fields: map<string, JsonValue>)

  /** JavaScript truthiness of a parsed value. */
  predicate Truthy(v: JsonValue) {
    match v
    case JNull => false
    case JBool(b) => b
    case JNumber(t) => t != "0"
    case JString(s) => s != ""
    case JArray(_) => true
    case JObject(_) => true
  }

  /** Whether `String(v)` returns rather than throws. `JSON.parse` makes a `"toString"`
      key an own data property, never a function, so `String` of such an object finds no
      callable `toString`, gets the object back from `valueOf`, and throws "Cannot convert
      object to primitive value". An array throws when one of its elements does. */
  predicate Stringable(v: JsonValue) {
    match v
    case JArray(items) => forall i :: 0 <= i < |items| ==> Stringable(items[i])
    case JObject(fields) => "toString" !in fields
    case _ => true
  }

  /** `String(v)`, for a value it does not throw on. An array prints as its elements
      joined by commas, with `null` elements printing as nothing; an object prints as
      "[object Object]". */
  function ToJsString(v: JsonValue): string
    requires Stringable(v)
  {
    match v
    case JNull => "null"
    case JBool(b) => if b then "true" else "false"
    case JNumber(t) => t
    case JString(s) => s
    case JArray(items) =>
      JoinWithCommas(seq(|items|, i requires 0 <= i < |items| =>
        if items[i].JNull? then "" else ToJsString(items[i])))
    case JObject(_) => "[object Object]"
  }

  /** `parts.join(",")`. */
  function JoinWithCommas(parts: seq<string>): string
  {
    if |parts| == 0 then ""
    else if |parts| == 1 then parts[0]
    else parts[0] + "," + JoinWithCommas(parts[1..])
  }

  /** The own properties of a value that JavaScript property access can reach for the
      argument names the tools use: only an object has any. */
  function Fields(v: JsonValue): map<string, JsonValue>
  {
    if v.JObject? then v.fields else map[]
  }

  /** `v[key]` compared with `!= null`: `None` when the property is absent or `null`. */
  function Present(v: JsonValue, key: string): (r: Option<JsonValue>)
    ensures r.Some? <==> key in Fields(v) && Fields(v)[key] != JNull
    ensures r.Some? ==> r.value != JNull
  {
    if key in Fields(v) && Fields(v)[key] != JNull then Some(Fields(v)[key]) else None
  }
}
