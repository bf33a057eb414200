/** Decoded JSON documents, as `encoding/json` hands them to Go code as `interface{}`. */
module Json {

  /** A decoded JSON value; numbers are kept as exact reals rather than float64. */
  datatype Json =
    | Null
    | Bool(b: bool)
    | Number(n: real)
    | Str(s: string)
    | Array(items: seq<Json>)
    | Object(fields: map<string, Json>)
}
