/** The `createProduct` transaction over a ledger modelled as a map from
    keys to stored bytes. */
module Chaincode {
  import opened Json
  import opened Products
  import opened Decoding
  import opened Keys
  import opened Encoding
  import opened DecodingFacts

  /** The peer response: `shim.Success(payload)` or `shim.Error(message)`;
      `Panicked` stands for a transaction aborted by a Go panic. */
  datatype Response = Success(payload: Bytes) | Error(message: string) | Panicked

  const ArgCountMessage: string :=
    "createProduct: Invalid number of args, must be exactly 1 argument containing JSON containing data"

  /** The `encoding/json` behaviour `createProduct` relies on: how an
      argument parses, and how records and bags marshal. */
  datatype JsonLib = JsonLib(unmarshal: Bytes -> Parsed, encoder: Encoder) {
    /** Marshalling succeeds only with object text, and the struct's
        encoding does not depend on its bag. */
    ghost predicate Valid() {
      && (forall p: Product :: encoder.ShapedFor(p))
      // the struct is marshalled without its bag (tag "-")
      && (forall p: Product, d: map<string, Json> ::
            encoder.marshalFields(p.(data := d)) == encoder.marshalFields(p))
    }
  }

  /** The world state the chaincode writes through `stub.PutState`. */
  class Ledger {
    var state: map<string, Bytes>

    constructor ()
      ensures state == map[]
    {
      state := map[];
    }

    /** `stub.PutState(key, value)`. `fault` is the error the peer reports,
        if any; a failed put writes nothing. */
    method PutState(key: string, value: Bytes, fault: Option<string>) returns (err: Option<string>)
      modifies this
      ensures err == fault
      ensures state == if fault.None? then old(state)[key := value] else old(state)
    {
      err := fault;
      if fault.None? {
        state := state[key := value];
      }
    }

    /** `createProduct`: exactly one argument, decoded, keyed, re-encoded and
        written. Any failure leaves the ledger as it was; success writes the
        encoding under the product's key, returns the same bytes, and leaves
        every other key untouched. */
    method CreateProduct(args: seq<Bytes>, json: JsonLib, fault: Option<string>) returns (resp: Response)
      requires json.Valid()
      modifies this
      ensures !resp.Success? ==> state == old(state)
      ensures |args| != 1 ==> resp == Error(ArgCountMessage)
      ensures |args| == 1 ==>
        match Decode(json.unmarshal(args[0]))
        case Err(UnmarshalError(reason)) => resp == Error(reason)
        case Err(TypeAssertionPanic) => resp == Panicked
        case Ok(p) =>
          match Encoded(p, json.encoder)
          case Err(e) => resp == Error(e)
          case Ok(bytes) =>
            && (fault.Some? ==> resp == Error(fault.value))
            && (fault.None? ==> resp == Success(bytes)
                                && state == old(state)[GetProductKey(p) := bytes])
    {
      if |args| != 1 {
        return Error(ArgCountMessage);
      }

      var productInput := args[0];
      var decoded := GetProductFromJson(json.unmarshal(productInput));
      if decoded.Err? {
        match decoded.error {
          case UnmarshalError(reason) => return Error(reason);
          case TypeAssertionPanic => return Panicked;
        }
      }
      var product := decoded.value;

      var key := GetProductKey(product);
      var encoded := ToBytes(product, json.encoder);
      if encoded.Err? {
        return Error(encoded.error);
      }
      var bytes := encoded.value;

      var err := PutState(key, bytes, fault);
      if err.Some? {
        return Error(err.value);
      }
      return Success(bytes);
    }
  }

  /** The repository's test submits its sample record to a fresh ledger
      and expects a success. As written, the record's "id" member makes the
      transaction panic, and nothing is stored. */
  method SubmitTestRecord(text: Bytes, json: JsonLib, fault: Option<string>)
    returns (resp: Response, ledger: Ledger)
    requires json.Valid()
    requires json.unmarshal(text) == Document(JObject(Fixture))
    ensures resp == Panicked
    ensures ledger.state == map[]
  {
    ledger := new Ledger();
    FixturePanics();
    resp := ledger.CreateProduct([text], json, fault);
  }
}
