/** The structured values a step's input, output and metadata payloads hold,
    and that the dictionary form of a trace is made of. */
module Values {

  /** A JSON-like value: string, integer, boolean, null, list or mapping. */
  datatype Value =
    | Str(s: string)
    | Int(i: int)
    | Bool(b: bool)
    | Null
    | List(items: seq<Value>)
    | Map(entries: map<string, Value>)

  /** A string-keyed payload, as Python's `dict[str, Any]`. */
  type Payload = map<string, Value>
}
