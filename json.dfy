/**
 * The dynamically typed documents that travel between the tool and a Directus
 * instance. The tool never inspects a snapshot or a diff; it only needs a
 * generic JSON value and a codec it can call.
 */
module Json {
  import opened Wrappers

  /** An untyped JSON value (what Go decodes into `any`). */
  datatype Value =
    | JNull
    | JBool(b: bool)
    | JNumber(n: real)
    | JString(s: string)
    | JArray(items: seq<Value>)
    | JObject(fields: map<string, Value>)

  /** A JSON object, Go's `map[string]any`: snapshots and diffs have this type. */
  type Document = map<string, Value>

  /**
   * The JSON codec, left abstract: encoding can fail (Go's `json.Marshal`), and
   * decoding a body either yields the first JSON value in it or fails with a
   * message (Go's `json.Decoder.Decode`).
   */
  datatype Codec = Codec(encode: Value -> Result<string, string>, decode: string -> Result<Value, string>)

  /** The word Go's decoder uses for the kind of a JSON value in a type error. */
  function KindName(v: Value): string
  {
    match v
    case JNull => "null"
    case JBool(_) => "bool"
    case JNumber(_) => "number"
    case JString(_) => "string"
    case JArray(_) => "array"
    case JObject(_) => "object"
  }
}
