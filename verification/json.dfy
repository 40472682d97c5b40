/** JSON values and byte buffers as the chaincode sees them through
    Go's `encoding/json` package. The package itself is not modelled:
    parsing arrives as a `Parsed` outcome and marshalling as a
    `MarshalResult`. */
module Json {

  /** A Go `byte`. */
  newtype byte = x: int | 0 <= x < 256

  type Bytes = seq<byte>

  const Space: byte := 32       // ' '
  const Comma: byte := 44       // ','
  const LeftBrace: byte := 123  // '{'
  const RightBrace: byte := 125 // '}'

  datatype Option<+T> = None | Some(value: T)

  datatype Result<+T, +E> = Ok(value: T) | Err(error: E)

  /** A value decoded into Go's `interface{}`. Numbers are kept as their
      literal text: `encoding/json` turns them into `float64`, which this
      model never inspects. */
  datatype Json =
    | JNull
    | JBool(b: bool)
    | JNumber(literal: string)
    | JString(s: string)
    | JArray(items: seq<Json>)
    | JObject(members: map<string, Json>)

  /** The outcome of the parser inside `json.Unmarshal`: either a failure,
      standing for every error `Unmarshal` returns before looking at the
      top-level value's kind (bad syntax, a number out of `float64` range,
      …), or a document. */
  datatype Parsed = UnmarshalFailure(reason: string) | Document(value: Json)

  /** The outcome of `json.Marshal`. */
  datatype MarshalResult = Marshalled(bytes: Bytes) | MarshalError(message: string)

  /** Text of a JSON object: an opening brace, the members, a closing brace. */
  predicate IsObjectText(b: Bytes) {
    |b| >= 2 && b[0] == LeftBrace && b[|b| - 1] == RightBrace
  }

  /** What `json.Marshal` guarantees of a struct or a map: when it succeeds
      it produces the text of an object. */
  predicate ObjectShaped(m: MarshalResult) {
    m.Marshalled? ==> IsObjectText(m.bytes)
  }

  /** The member text of an object, between its braces. */
  function Members(b: Bytes): (inner: Bytes)
    requires IsObjectText(b)
    ensures |inner| == |b| - 2
    ensures [LeftBrace] + inner + [RightBrace] == b
  {
    b[1..|b| - 1]
  }

  /** The object whose member text is `inner`. */
  function ObjectText(inner: Bytes): (b: Bytes)
    ensures IsObjectText(b) && Members(b) == inner
  {
    [LeftBrace] + inner + [RightBrace]
  }
}
