/** Re-serialising a product record: `Product.toBytes`. The struct is
    marshalled without its bag; a non-empty bag is marshalled on its own and
    spliced in by overwriting two bytes and appending. */
module Encoding {
  import opened Json
  import opened Products

  /** The two `json.Marshal` calls `toBytes` makes: one on the struct (which
      encodes the sixteen tagged fields and skips `Data`), one on the bag. */
  datatype Encoder = Encoder(
    marshalFields: Product -> MarshalResult,
    marshalData: map<string, Json> -> MarshalResult)
  {
    /** `json.Marshal` produces object text for this record and, when
        `toBytes` marshals it at all (it is non-empty), for its bag. */
    predicate ShapedFor(p: Product) {
      ObjectShaped(marshalFields(p)) && (|p.data| > 0 ==> ObjectShaped(marshalData(p.data)))
    }
  }

  /** What `toBytes` returns. With an empty bag, exactly the struct's
      encoding. Otherwise the struct's closing brace becomes a space and
      the bag's opening brace a comma, and the two are joined: one object
      whose members are the struct's, then " ,", then the bag's. A failing
      marshal returns its error. */
  function Encoded(p: Product, enc: Encoder): (r: Result<Bytes, string>)
    requires enc.ShapedFor(p)
    ensures enc.marshalFields(p).MarshalError? ==> r == Err(enc.marshalFields(p).message)
    ensures enc.marshalFields(p).Marshalled? && |p.data| == 0 ==>
      r == Ok(enc.marshalFields(p).bytes)
    ensures enc.marshalFields(p).Marshalled? && |p.data| > 0 && enc.marshalData(p.data).MarshalError? ==>
      r == Err(enc.marshalData(p.data).message)
    ensures enc.marshalFields(p).Marshalled? && |p.data| > 0 && enc.marshalData(p.data).Marshalled? ==>
      var outer, inner := enc.marshalFields(p).bytes, enc.marshalData(p.data).bytes;
      && r.Ok?
      && r.value == outer[..|outer| - 1] + [Space, Comma] + inner[1..]
      && |r.value| == |outer| + |inner|
      && r.value[0] == outer[0]
      && r.value[|r.value| - 1] == inner[|inner| - 1]
      && Members(r.value) == Members(outer) + [Space, Comma] + Members(inner)
    ensures r.Ok? ==> IsObjectText(r.value)
  {
    match enc.marshalFields(p)
    case MarshalError(e) => Err(e)
    case Marshalled(outer) =>
      if |p.data| == 0 then Ok(outer)
      else
        match enc.marshalData(p.data)
        case MarshalError(e) => Err(e)
        case Marshalled(inner) =>
          SpliceJoinsMembers(outer, inner);
          Ok(ObjectText(Members(outer) + [Space, Comma] + Members(inner)))
  }

  /** Splicing two objects by bytes, the closing brace of the first
      becoming a space and the opening brace of the second a comma, joins
      their member texts into one object. */
  lemma SpliceJoinsMembers(outer: Bytes, inner: Bytes)
    requires IsObjectText(outer) && IsObjectText(inner)
    ensures var joined := ObjectText(Members(outer) + [Space, Comma] + Members(inner));
      && joined == outer[..|outer| - 1] + [Space, Comma] + inner[1..]
      && |joined| == |outer| + |inner|
      && joined[0] == outer[0]
      && joined[|joined| - 1] == inner[|inner| - 1]
  {
    var joined := ObjectText(Members(outer) + [Space, Comma] + Members(inner));
    assert joined == [LeftBrace] + Members(outer) + [Space, Comma] + Members(inner) + [RightBrace];
    assert joined[..|outer| - 1] == [LeftBrace] + Members(outer);
    assert joined[|outer| + 1..] == Members(inner) + [RightBrace];
  }

  /** `toBytes`: the two marshalled buffers are patched in place, then the
      bag's is appended to the struct's. */
  method ToBytes(product: Product, enc: Encoder) returns (r: Result<Bytes, string>)
    requires enc.ShapedFor(product)
    ensures r == Encoded(product, enc)
  {
    var outerResult := enc.marshalFields(product);
    if outerResult.MarshalError? {
      return Err(outerResult.message);
    }
    var outer := outerResult.bytes;
    var bytesOuter := new byte[|outer|](i requires 0 <= i < |outer| => outer[i]);
    assert bytesOuter[..] == outer;

    var combined: Bytes;
    if |product.data| > 0 {
      var innerResult := enc.marshalData(product.data);
      if innerResult.MarshalError? {
        return Err(innerResult.message);
      }
      var inner := innerResult.bytes;
      var bytesInner := new byte[|inner|](i requires 0 <= i < |inner| => inner[i]);
      bytesOuter[bytesOuter.Length - 1] := Space;
      bytesInner[0] := Comma;
      combined := bytesOuter[..] + bytesInner[..];
      assert bytesOuter[..] == outer[..|outer| - 1] + [Space];
      assert bytesInner[..] == [Comma] + inner[1..];
      assert combined == outer[..|outer| - 1] + [Space, Comma] + inner[1..];
    } else {
      combined := bytesOuter[..];
    }
    return Ok(combined);
  }
}
