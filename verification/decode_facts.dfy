/** Consequences of `getProductFromJSON` as written: which inputs it
    rejects, what happens to members whose names it does not look up, and
    what it does with the record used by the repository's own tests. */
module DecodingFacts {
  import opened Json
  import opened Products
  import opened Decoding

  /** Anything but an object or `null` at the top level is an unmarshal
      error; nothing is extracted. */
  lemma DecodeRejectsNonObject(doc: Parsed)
    requires !(doc.Document? && (doc.value.JObject? || doc.value.JNull?))
    ensures Decode(doc).Err? && Decode(doc).error.UnmarshalError?
  {
  }

  /** `null` unmarshals into a nil map, so it decodes to the zero record
      with an empty bag. */
  lemma NullDecodesToZero()
    ensures Decode(Document(JNull)) == Ok(ZeroProduct)
  {
    assert Assertable(map[]);
  }

  /** A member named "id" always makes decoding panic: `encoding/json`
      gives every number as `float64`, which `val.(int)` rejects, and any
      other kind of value is rejected as well. */
  lemma IdAlwaysPanics(m: map<string, Json>)
    requires IdName in m
    ensures DecodeMap(m) == Err(TypeAssertionPanic)
  {
  }

  /** A looked-up string name holding a non-string value makes decoding
      panic, whatever the other members are. */
  lemma NonStringFieldPanics(m: map<string, Json>, i: nat)
    requires i < |StringNames|
    requires StringNames[i] in m && !m[StringNames[i]].JString?
    ensures DecodeMap(m) == Err(TypeAssertionPanic)
  {
    assert !StringAssertable(m, StringNames[i]);
  }

  /** The bag of a decoded record is empty exactly when the input had no
      member besides the looked-up names. */
  lemma BagEmptyIff(m: map<string, Json>)
    requires DecodeMap(m).Ok?
    ensures |DecodeMap(m).value.data| == 0 <==> m.Keys <= LookedUpNames
  {
    DecodeMapMeaning(m);
    var bag := DecodeMap(m).value.data;
    if |bag| == 0 {
      forall k | k in m ensures k in LookedUpNames {
        assert k !in bag;
      }
    } else {
      var k :| k in bag;
      assert k in m && k !in LookedUpNames;
    }
  }

  /** Two of the struct's own JSON tags, "serialNo" and "expirationDate",
      are not among the names the decoder looks up. */
  lemma UnmatchedStructTags()
    ensures "serialNo" in StructTags && "serialNo" !in LookedUpNames
    ensures "expirationDate" in StructTags && "expirationDate" !in LookedUpNames
  {
    assert "serialNo" !in StringNames && "expirationDate" !in StringNames;
  }

  /** Members under those two tags are left in the bag instead of filling
      the serial number and the expiry date, which stay "" unless the
      input also used the looked-up names. */
  lemma TagNamedMembersStayInBag(m: map<string, Json>)
    requires DecodeMap(m).Ok?
    ensures forall t | t in {"serialNo", "expirationDate"} && t in m ::
      t in DecodeMap(m).value.data && DecodeMap(m).value.data[t] == m[t]
    ensures "serialNumber" !in m ==> DecodeMap(m).value.serialNumber == ""
    ensures "expiryDate" !in m ==> DecodeMap(m).value.expiryDate == ""
  {
    UnmatchedStructTags();
  }

  /** The product record that the repository's tests submit to
      `createProduct` (data_chaincode_test.go, line 15), as parsed. */
  const Fixture: map<string, Json> := map[
    "id" := JNumber("1"),
    "gtin" := JString("08806555018611"),
    "lot" := JString("M036191"),
    "serialNo" := JNumber("1936800"),
    "expirationDate" := JString("10/10/2026"),
    "event" := JString("commission"),
    "gln" := JString("0300060000037"),
    "status" := JString("active"),
    "tradeItemDesc" := JString("gardasil9 10 pack "),
    "product" := JString("gardasil9"),
    "tradename" := JString("Gardasil 9"),
    "manufactureDate" := JString("10/10/2019"),
    "location" := JString("Wilson, NC"),
    "toGln" := JString("0300060000037"),
    "toLocation" := JString("Wilson, NC"),
    "loc_cd" := JObject(map["lat" := JNumber("35.721268"), "lon" := JNumber("-77.915543")]),
    "sender" := JString("manufacturer"),
    "receiver" := JString("manufacturer"),
    "event_dt" := JString("2019-10-12T04:00:00.000Z")
  ]

  /** The test record carries "id": 1, so decoding it panics. */
  lemma FixturePanics()
    ensures Decode(Document(JObject(Fixture))) == Err(TypeAssertionPanic)
  {
    IdAlwaysPanics(Fixture);
  }

  /** The "id" step as evidently intended: a JSON number is accepted and
      converted by `toInt`, which stands for Go's `int(val.(float64))` and
      is not modelled further; any other kind of value still panics. The
      string steps are those of `DecodeMap`. */
  function DecodeMapNumericId(m: map<string, Json>, toInt: string -> int): (r: Result<Product, DecodeError>)
  {
    if IdName in m && m[IdName].JNumber? then
      match DecodeMap(m - {IdName})
      case Err(e) => Err(e)
      case Ok(p) => Ok(p.(id := toInt(m[IdName].literal)))
    else
      DecodeMap(m)
  }

  /** With the intended "id" step, a numeric "id" no longer panics:
      decoding succeeds exactly when every string assertion does, the
      identifier is the converted number, and the rest of the record and
      the bag are what the code as written produces without "id". */
  lemma NumericIdAccepted(m: map<string, Json>, toInt: string -> int)
    requires IdName in m && m[IdName].JNumber?
    ensures DecodeMapNumericId(m, toInt).Ok? <==>
      forall i | 0 <= i < |StringNames| :: StringAssertable(m, StringNames[i])
    ensures DecodeMapNumericId(m, toInt).Ok? ==>
      var p := DecodeMapNumericId(m, toInt).value;
      && p.id == toInt(m[IdName].literal)
      && p.(id := 0) == DecodeMap(m - {IdName}).value
      && p.data == m - LookedUpNames
  {
    LookedUpNamesDistinct();
    var rest := m - {IdName};
    assert Assertable(rest) <==>
      forall i | 0 <= i < |StringNames| :: StringAssertable(m, StringNames[i])
    by {
      forall i | 0 <= i < |StringNames|
        ensures StringAssertable(rest, StringNames[i]) == StringAssertable(m, StringNames[i])
      {
        assert StringNames[i] != IdName;
      }
    }
    assert rest - LookedUpNames == m - LookedUpNames;
  }

  /** Without "id" the intended decoder and the code as written agree. */
  lemma NumericIdAgreesWithoutId(m: map<string, Json>, toInt: string -> int)
    requires IdName !in m
    ensures DecodeMapNumericId(m, toInt) == DecodeMap(m)
  {
  }

  /** With the intended "id" step, the repository's test record decodes,
      and its identifier is the converted number 1. */
  lemma FixtureDecodesWithIntendedId(toInt: string -> int)
    ensures DecodeMapNumericId(Fixture, toInt).Ok?
    ensures DecodeMapNumericId(Fixture, toInt).value.id == toInt("1")
  {
    NumericIdAccepted(Fixture, toInt);
    forall i | 0 <= i < |StringNames| ensures StringAssertable(Fixture, StringNames[i]) {
    }
  }
}
