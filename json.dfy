/**
 * The JSON values the client hands to the transport as request bodies, and the
 * two pieces of JavaScript semantics the client relies on: truthiness (used by
 * `x || default` and `if (x)`) and the string conversion of `null` (used when
 * an unconfigured field is concatenated).
 */
module Json {
  import opened Wrappers

  /** A JSON value. Numbers are integers here; fractional numbers and NaN are not modelled. */
  datatype Json =
    | JNull
    | JBool(b: bool)
    | JNumber(n: int)
    | JString(s: string)
    | JArray(items: seq<Json>)
    | JObject(fields: seq<(string, Json)>)

  /** JavaScript truthiness of a JSON value: `null`, `false`, `0` and `""` are falsy. */
  predicate Truthy(j: Json) {
    match j
    case JNull => false
    case JBool(b) => b
    case JNumber(n) => n != 0
    case JString(s) => s != ""
    case JArray(_) => true
    case JObject(_) => true
  }

  /** JavaScript truthiness of an optional string: absent or empty is falsy. */
  predicate Given(s: Option<string>) {
    s.Some? && s.value != ""
  }

  /** JavaScript's `s || fallback` on an optional string. */
  function OrElse(s: Option<string>, fallback: string): (r: string)
    ensures Given(s) ==> r == s.value
    ensures !Given(s) ==> r == fallback
  {
    if Given(s) then s.value else fallback
  }

  /** The string JavaScript's `+` uses for a string-or-null operand. */
  function ToJsString(s: Option<string>): string {
    match s
    case Some(v) => v
    case None => "null"
  }
}
