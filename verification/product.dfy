/** The `Product` record of the data chaincode: sixteen typed fields and
    the bag of input members that match none of the names the decoder
    looks up. */
module Products {
  import opened Json

  /** A product record. Field order follows the Go struct. `data` is the
      unknown-fields bag, which the struct encoder skips (its tag is "-"). */
  datatype Product = Product(
    id: int,
    gtin: string,
    lot: string,
    serialNumber: string,
    expiryDate: string,
    event: string,
    gln: string,
    status: string,
    tradeItemDesc: string,
    product: string,
    tradeName: string,
    manufactureDate: string,
    location: string,
    toGln: string,
    sender: string,
    receiver: string,
    data: map<string, Json>)

  /** A Go `Product` with every field at its zero value and a nil `Data`. */
  const ZeroProduct: Product :=
    Product(0, "", "", "", "", "", "", "", "", "", "", "", "", "", "", "", map[])

  /** The name the decoder looks up for the integer field. */
  const IdName: string := "id"

  /** The fifteen names the decoder looks up for the string fields, in the
      order it visits them. Two of them differ from the struct's own JSON
      tags: "serialNumber" (tag "serialNo") and "expiryDate" (tag
      "expirationDate"). */
  const StringNames: seq<string> := [
    "gtin", "serialNumber", "lot", "expiryDate", "event", "gln", "status",
    "tradeItemDesc", "product", "tradename", "manufactureDate", "location",
    "toGln", "sender", "receiver"
  ]

  /** Every name the decoder looks up and removes from the bag. */
  const LookedUpNames: set<string> := {IdName} + set n | n in StringNames

  /** The JSON tags of the struct, under which the struct encoder writes
      the sixteen fields. */
  const StructTags: set<string> := {
    "id", "gtin", "lot", "serialNo", "expirationDate", "event", "gln",
    "status", "tradeItemDesc", "product", "tradename", "manufactureDate",
    "location", "toGln", "sender", "receiver"
  }

  /** The string field filled from the member named `StringNames[i]`. */
  function FieldAt(p: Product, i: nat): (field: string)
    requires i < |StringNames|
  {
    match i
    case 0 => p.gtin
    case 1 => p.serialNumber
    case 2 => p.lot
    case 3 => p.expiryDate
    case 4 => p.event
    case 5 => p.gln
    case 6 => p.status
    case 7 => p.tradeItemDesc
    case 8 => p.product
    case 9 => p.tradeName
    case 10 => p.manufactureDate
    case 11 => p.location
    case 12 => p.toGln
    case 13 => p.sender
    case _ => p.receiver
  }

  /** `p` with the string field filled from `StringNames[i]` set to `v`. */
  function WithFieldAt(p: Product, i: nat, v: string): (q: Product)
    requires i < |StringNames|
  {
    match i
    case 0 => p.(gtin := v)
    case 1 => p.(serialNumber := v)
    case 2 => p.(lot := v)
    case 3 => p.(expiryDate := v)
    case 4 => p.(event := v)
    case 5 => p.(gln := v)
    case 6 => p.(status := v)
    case 7 => p.(tradeItemDesc := v)
    case 8 => p.(product := v)
    case 9 => p.(tradeName := v)
    case 10 => p.(manufactureDate := v)
    case 11 => p.(location := v)
    case 12 => p.(toGln := v)
    case 13 => p.(sender := v)
    case _ => p.(receiver := v)
  }

  /** Setting one string field leaves the others, the identifier and the
      bag as they were. */
  lemma WithFieldAtFrame(p: Product, i: nat, v: string)
    requires i < |StringNames|
    ensures WithFieldAt(p, i, v).id == p.id && WithFieldAt(p, i, v).data == p.data
    ensures forall j | 0 <= j < |StringNames| ::
      FieldAt(WithFieldAt(p, i, v), j) == if j == i then v else FieldAt(p, j)
  {
    forall j | 0 <= j < |StringNames|
      ensures FieldAt(WithFieldAt(p, i, v), j) == if j == i then v else FieldAt(p, j)
    {
    }
  }

  /** Apart from its bag, a record is determined by its identifier and its
      fifteen string fields. */
  lemma FieldsDetermine(p: Product, q: Product)
    requires p.id == q.id
    requires forall j | 0 <= j < |StringNames| :: FieldAt(p, j) == FieldAt(q, j)
    ensures p.(data := q.data) == q
  {
    assert FieldAt(p, 0) == FieldAt(q, 0) && FieldAt(p, 1) == FieldAt(q, 1);
    assert FieldAt(p, 2) == FieldAt(q, 2) && FieldAt(p, 3) == FieldAt(q, 3);
    assert FieldAt(p, 4) == FieldAt(q, 4) && FieldAt(p, 5) == FieldAt(q, 5);
    assert FieldAt(p, 6) == FieldAt(q, 6) && FieldAt(p, 7) == FieldAt(q, 7);
    assert FieldAt(p, 8) == FieldAt(q, 8) && FieldAt(p, 9) == FieldAt(q, 9);
    assert FieldAt(p, 10) == FieldAt(q, 10) && FieldAt(p, 11) == FieldAt(q, 11);
    assert FieldAt(p, 12) == FieldAt(q, 12) && FieldAt(p, 13) == FieldAt(q, 13);
    assert FieldAt(p, 14) == FieldAt(q, 14);
  }

  /** The sixteen looked-up names are pairwise distinct. */
  lemma LookedUpNamesDistinct()
    ensures forall i, j | 0 <= i < j < |StringNames| :: StringNames[i] != StringNames[j]
    ensures IdName !in StringNames
  {
  }
}
