/** The values `JSON.parse` can produce. History entries are opaque to the
    block, so numbers keep their lexeme and nothing here interprets them. */
module JsonValues {
  import opened Wrappers

  datatype Json =
    | Null
    | Bool(b: bool)
    | Number(lexeme: string)
    | Str(s: string)
    | Arr(items: seq<Json>)
    | Obj(members: seq<(string, Json)>)

  /** The empty JSON array, `[]`. */
  const EmptyArray: Json := Arr([])

  /** A JSON parser is a partial function from text to values; `None` is a
      thrown `SyntaxError`. The block depends on one fact about it only: the
      literal text `[]` parses to the empty array. */
  type Parser = string -> Option<Json>

  predicate ParsesEmptyArray(parse: Parser)
  {
    parse("[]") == Some(EmptyArray)
  }
}
