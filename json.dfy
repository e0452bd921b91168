/** The decoded JSON of a Stripe API object, as handed to the field resolvers. */
module JsonValues {

  /**
   * One JSON value. `Null` is Python's `None`: the decoder turns JSON null into
   * `None`, so a stored null and the `None` a resolver returns are one value.
   * Numbers are integers (Stripe amounts and timestamps are integral).
   */
  datatype Json =
    | Null
    | Bool(b: bool)
    | Int(i: int)
    | Str(s: string)
    | Array(items: seq<Json>)
    | Object(fields: map<string, Json>)

  /** A Stripe object: a mapping from keys to JSON values. */
  type JsonObject = map<string, Json>
}
