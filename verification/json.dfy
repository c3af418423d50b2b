/** Parsed JSON values as the program receives them from the source API,
    together with the two JavaScript operations the program applies to
    them: truthiness and the nullish-coalescing operator `??`. */
module JsonValues {
  import opened Results

  /** A parsed JSON value. Numbers are kept as exact reals: the program
      never does arithmetic on them, it only copies them and (for the
      whole body) tests them for truthiness. Objects are maps because
      parsing keeps one value per key. */
  datatype Json =
    | JNull
    | JBool(b: bool)
    | JNumber(n: real)
    | JString(s: string)
    | JArray(items: seq<Json>)
    | JObject(fields: map<string, Json>)

  /** JavaScript truthiness of a JSON value: `null`, `false`, `0` and `""`
      are falsy, every other value (every array and object included) is truthy. */
  predicate Truthy(v: Json) {
    match v
    case JNull => false
    case JBool(b) => b
    case JNumber(n) => n != 0.0
    case JString(s) => s != ""
    case JArray(_) => true
    case JObject(_) => true
  }

  /** Property read `v.key`, for a key that no built-in prototype defines
      (every key the program reads is such a key): an object yields its own
      field, any other non-null value yields `undefined`. Reading a property
      of `null` throws instead, so callers only use it on non-null values or
      after a truthiness test has ruled `null` out. */
  function Get(v: Json, key: string): Option<Json> {
    if v.JObject? && key in v.fields then Some(v.fields[key]) else None
  }

  /** `key` is present on `v` with a value other than `null`. */
  predicate Present(v: Json, key: string) {
    v.JObject? && key in v.fields && v.fields[key] != JNull
  }

  /** JavaScript `a ?? fallback`: the fallback replaces `undefined` and
      `null` only, so falsy values such as `0`, `false` and `""` survive. */
  function Coalesce(a: Option<Json>, fallback: Json): Json {
    match a
    case None => fallback
    case Some(JNull) => fallback
    case Some(v) => v
  }
}
