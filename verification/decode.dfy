/** Decoding a product record: `getProductFromJSON`. The input is parsed
    into a generic map; each of sixteen fixed names that is present is
    moved out of the map into its typed field; whatever is left stays in the
    record's unknown-fields bag. */
module Decoding {
  import opened Json
  import opened Products

  datatype DecodeError =
    /** `json.Unmarshal` returned an error. */
    | UnmarshalError(reason: string)
    /** An unchecked type assertion (`val.(int)`, `val.(string)`) panicked. */
    | TypeAssertionPanic

  /** The Go type name `encoding/json` uses in its error for a top-level
      value that is not an object. */
  function KindName(v: Json): (name: string) {
    match v
    case JNull => "null"
    case JBool(_) => "bool"
    case JNumber(_) => "number"
    case JString(_) => "string"
    case JArray(_) => "array"
    case JObject(_) => "object"
  }

  /** `json.Unmarshal(incoming, &product.Data)` with `Data` a
      `map[string]interface{}`: an object becomes the map, `null` leaves the
      map nil (empty), any other value or an unmarshal failure is an error. */
  function UnmarshalObject(doc: Parsed): (r: Result<map<string, Json>, DecodeError>)
    ensures r.Ok? <==> doc.Document? && (doc.value.JObject? || doc.value.JNull?)
    ensures r.Ok? && doc.value.JObject? ==> r.value == doc.value.members
    ensures r.Ok? && doc.value.JNull? ==> r.value == map[]
    ensures doc.UnmarshalFailure? ==> r == Err(UnmarshalError(doc.reason))
  {
    match doc
    case UnmarshalFailure(reason) => Err(UnmarshalError(reason))
    case Document(JObject(members)) => Ok(members)
    case Document(JNull) => Ok(map[])
    case Document(v) =>
      Err(UnmarshalError("json: cannot unmarshal " + KindName(v)
                         + " into Go value of type map[string]interface {}"))
  }

  /** The `val.(string)` assertion on the member `name` cannot panic. */
  predicate StringAssertable(m: map<string, Json>, name: string) {
    name in m ==> m[name].JString?
  }

  /** Every type assertion the decoder makes on `m` succeeds. `val.(int)`
      never does: `encoding/json` decodes every number as `float64`, so
      "id" must be absent. */
  predicate Assertable(m: map<string, Json>) {
    IdName !in m && forall i | 0 <= i < |StringNames| :: StringAssertable(m, StringNames[i])
  }

  /** The string a present string member holds, or Go's zero value "". */
  function StringOr(m: map<string, Json>, name: string): (field: string) {
    if name in m && m[name].JString? then m[name].s else ""
  }

  /** The field-extraction pass of `getProductFromJSON` over the parsed
      map `m`, as a specification. */
  function DecodeMap(m: map<string, Json>): (r: Result<Product, DecodeError>)
  {
    if !Assertable(m) then Err(TypeAssertionPanic)
    else
      Ok(Product(
        id := 0,
        gtin := StringOr(m, "gtin"),
        lot := StringOr(m, "lot"),
        serialNumber := StringOr(m, "serialNumber"),
        expiryDate := StringOr(m, "expiryDate"),
        event := StringOr(m, "event"),
        gln := StringOr(m, "gln"),
        status := StringOr(m, "status"),
        tradeItemDesc := StringOr(m, "tradeItemDesc"),
        product := StringOr(m, "product"),
        tradeName := StringOr(m, "tradename"),
        manufactureDate := StringOr(m, "manufactureDate"),
        location := StringOr(m, "location"),
        toGln := StringOr(m, "toGln"),
        sender := StringOr(m, "sender"),
        receiver := StringOr(m, "receiver"),
        data := m - LookedUpNames))
  }

  /** What decoding a parsed object means: it fails exactly when a type
      assertion would panic; otherwise "id" is 0, every string field holds
      the string its member held or "" when the member is absent, and the
      bag holds exactly the members whose names were not looked up, with
      their values unchanged. */
  lemma DecodeMapMeaning(m: map<string, Json>)
    ensures DecodeMap(m).Ok? <==> Assertable(m)
    ensures DecodeMap(m).Err? ==> DecodeMap(m).error == TypeAssertionPanic
    ensures DecodeMap(m).Ok? ==>
      var p := DecodeMap(m).value;
      && p.id == 0
      && (forall i | 0 <= i < |StringNames| ::
            (StringNames[i] in m ==> m[StringNames[i]] == JString(FieldAt(p, i))) &&
            (StringNames[i] !in m ==> FieldAt(p, i) == ""))
      && (forall k :: k in p.data <==> k in m && k !in LookedUpNames)
      && (forall k | k in p.data :: p.data[k] == m[k])
  {
  }

  /** `getProductFromJSON` as a specification: unmarshal, then extract. */
  function Decode(doc: Parsed): (r: Result<Product, DecodeError>) {
    match UnmarshalObject(doc)
    case Err(e) => Err(e)
    case Ok(m) => DecodeMap(m)
  }

  /** The names deleted before the string step with index `i`. */
  ghost function ExtractedBefore(i: nat): (names: set<string>)
    requires i <= |StringNames|
  {
    {IdName} + set j | 0 <= j < i :: StringNames[j]
  }

  /** The state of `getProductFromJSON` before the string step with index
      `i`: the looked-up names met so far are deleted from the map, "id"
      is 0, and each string field met so far holds its member's string. */
  ghost predicate Progress(parsed: map<string, Json>, data: map<string, Json>, product: Product, i: nat)
    requires i <= |StringNames|
  {
    && data == parsed - ExtractedBefore(i)
    && product.id == 0
    && forall j | 0 <= j < i ::
         StringAssertable(parsed, StringNames[j]) &&
         FieldAt(product, j) == StringOr(parsed, StringNames[j])
  }

  /** Before the first string step, only "id" (which must be absent) has
      been dealt with. */
  lemma ProgressStart(parsed: map<string, Json>)
    requires IdName !in parsed
    ensures Progress(parsed, parsed, ZeroProduct.(id := 0), 0)
  {
    assert ExtractedBefore(0) == {IdName};
  }

  /** One string step seen from the parsed map: the member is still there
      untouched; if it is not a string, decoding panics; otherwise taking
      it and deleting it reaches the state before the next step. */
  lemma ProgressStep(parsed: map<string, Json>, data: map<string, Json>, product: Product, i: nat)
    requires i < |StringNames| && Progress(parsed, data, product, i)
    ensures var name := StringNames[i];
      && (name in data <==> name in parsed)
      && (name in data ==> data[name] == parsed[name])
      && (name in parsed && !parsed[name].JString? ==> DecodeMap(parsed) == Err(TypeAssertionPanic))
      && (StringAssertable(parsed, name) ==>
            Progress(parsed, data - {name}, WithFieldAt(product, i, StringOr(parsed, name)), i + 1))
  {
    LookedUpNamesDistinct();
    var name := StringNames[i];
    assert name !in ExtractedBefore(i);
    assert ExtractedBefore(i + 1) == ExtractedBefore(i) + {name};
    WithFieldAtFrame(product, i, StringOr(parsed, name));
  }

  /** After the last string step the record, with the remaining map as its
      bag, is the decoded record. */
  lemma ProgressDone(parsed: map<string, Json>, data: map<string, Json>, product: Product)
    requires IdName !in parsed
    requires Progress(parsed, data, product, |StringNames|)
    ensures DecodeMap(parsed) == Ok(product.(data := data))
  {
    assert ExtractedBefore(|StringNames|) == LookedUpNames;
    assert Assertable(parsed);
    FieldsDetermine(product, DecodeMap(parsed).value);
  }

  /** One string step of `getProductFromJSON`: if `name` is present, assert
      that its value is a string (panicking otherwise), take it and delete
      the member; if absent, the field is "". */
  method TakeString(data: map<string, Json>, name: string)
    returns (panics: bool, field: string, rest: map<string, Json>)
    ensures panics <==> name in data && !data[name].JString?
    ensures !panics ==> rest == data - {name}
    ensures !panics && name in data ==> data[name] == JString(field)
    ensures !panics && name !in data ==> field == ""
  {
    rest := data;
    if name in data {
      var val := data[name];
      if !val.JString? {
        panics, field := true, "";
        return;
      }
      panics, field := false, val.s;
      rest := rest - {name};
    } else {
      panics, field := false, "";
    }
  }

  /** `getProductFromJSON`. The map is unmarshalled, "id" is checked, and
      the fifteen identical string steps of the source run in the source's
      order, each updating the record and deleting from the map. */
  method GetProductFromJson(incoming: Parsed) returns (r: Result<Product, DecodeError>)
    ensures r == Decode(incoming)
  {
    var product := ZeroProduct;
    var data: map<string, Json>;
    match UnmarshalObject(incoming) {
      case Err(e) => return Err(e);
      case Ok(m) => data := m;
    }
    ghost var parsed := data;

    if IdName in data {
      // `val.(int)` on a decoded value always panics
      return Err(TypeAssertionPanic);
    }
    product := product.(id := 0);
    ProgressStart(parsed);

    var i := 0;
    while i < |StringNames|
      invariant 0 <= i <= |StringNames|
      invariant Progress(parsed, data, product, i)
    {
      ProgressStep(parsed, data, product, i);
      var panics, field;
      panics, field, data := TakeString(data, StringNames[i]);
      if panics {
        return Err(TypeAssertionPanic);
      }
      product := WithFieldAt(product, i, field);
      i := i + 1;
    }
    ProgressDone(parsed, data, product);
    r := Ok(product.(data := data));
  }
}
