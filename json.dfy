/** The JSON document model that traces are serialised into: booleans, integers, strings,
    arrays and objects; there is no null and no fractional number. Key order is not modelled:
    an object is a finite map from key to value. */
module Json {
  datatype Value =
    | Bool(b: bool)
    | Number(n: int)
    | Str(s: string)
    | Array(items: seq<Value>)
    | Object(members: map<string, Value>)

  /** The items of the JSON array that encodes `xs` element by element. */
  function Elements<T>(xs: seq<T>, enc: T -> Value): seq<Value>
  {
    seq(|xs|, i requires 0 <= i < |xs| => enc(xs[i]))
  }

  /** The JSON string holding `s`. */
  function StrOf(s: string): Value
  {
    Str(s)
  }
}
