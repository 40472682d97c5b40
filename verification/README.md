# dataUploadcc product chaincode, modelled in Dafny

This models the Hyperledger Fabric chaincode in `data_chaincode.go`. The
chaincode receives a product event record as JSON in a `createProduct`
transaction and handles it in four steps:

- It decodes the record into a `Product` struct. Sixteen fixed member names fill typed fields, and every other member is kept in an unknown-fields bag (`Data`).
- It derives a natural key from the GTIN, serial number, lot and expiry date.
- It re-serialises the record by splicing the struct's JSON with the bag's JSON.
- It writes the bytes to the ledger under that key.

Modules:

- `Json` (json.dfy): JSON values as the chaincode sees them after `encoding/json`, byte buffers, and object text `{…}`.
- `Products` (product.dfy): the `Product` record, the names the decoder looks up (in the source's order), and the struct's JSON tags.
- `Decoding` (decode.dfy): `getProductFromJSON`.
  - `Decode` and `DecodeMap` are its specification.
  - `GetProductFromJson` is the imperative method. It deletes members from a map variable and fills the record step by step, and it is proved to return exactly `Decode(incoming)`.
- `DecodingFacts` (decode_facts.dfy): what decoding does on particular inputs, including the repository's own test record.
- `Keys` (key.dfy): `getProductKey` and ASCII lower-casing.
- `Encoding` (encode.dfy): `Product.toBytes`.
  - `Encoded` is its specification.
  - `ToBytes` patches two arrays in place and appends them, and it is proved equal to `Encoded`.
- `Chaincode` (chaincode.dfy): `createProduct` as a method of a `Ledger` class whose `state` map is the world state written through `PutState`.

How the model treats the source:

- **Type assertions panic.** A looked-up name holding a value of the wrong JSON type makes the source panic. The model returns the `TypeAssertionPanic` outcome, and `createProduct` answers `Panicked`.
- **A present "id" always panics.** `encoding/json` decodes every JSON number into `interface{}` as `float64`, so the `val.(int)` assertion on "id" fails whatever the value is. Consequently, the sample record in the repository's test (`data_chaincode_test.go`, line 15) carries `"id":1` and panics. The test nevertheless expects status 200. `DecodingFacts.FixturePanics` and `Chaincode.SubmitTestRecord` state what the code as written does with that record.
- **Two names do not match their struct tags.** The decoder looks up "serialNumber" and "expiryDate", but the struct's JSON tags are "serialNo" and "expirationDate". Members under those tags stay in the bag and are written out a second time by `toBytes`. So the model claims no decode/encode round trip. It claims disjointness of the bag only from the sixteen looked-up names.
- **The serial number is a string.** It is looked up with a string assertion (data_chaincode.go:133) and lower-cased in the key like the GTIN and the lot (data_chaincode.go:225).

## Model

| member | source | states |
|---|---|---|
| Decoding.UnmarshalObject | data_chaincode.go:115-117 | Unmarshalling into the map succeeds exactly for an object (the map is its members) or `null` (an empty map). An unmarshal failure (bad syntax, a number out of `float64` range) or any other top-level value is returned as an unmarshal error. |
| Decoding.DecodeMapMeaning | data_chaincode.go:119-215 | Decoding a parsed map fails exactly when some type assertion would fail ("id" present, or a looked-up string name holding a non-string), and the failure is a panic. On success the id is 0. Each string field holds its member's string, or "" when the member is absent. The bag holds exactly the members whose names were not looked up, with their values unchanged. |
| Decoding.TakeString | data_chaincode.go:126-131 | One string step: it panics exactly when the name is present with a non-string value. Otherwise the field is the member's string (or "" when absent), and the map loses exactly that name. |
| Decoding.ProgressStep | data_chaincode.go:126-215 | Before each string step, the member is still in the working map with its parsed value. A non-string value there makes the whole decode panic. Taking a string value deletes it and fills exactly its field, reaching the state before the next step. |
| Decoding.ProgressDone | data_chaincode.go:216-217 | After the last step, the record with the remaining map as its bag is the decoded record. |
| Decoding.GetProductFromJson | data_chaincode.go:112-219 | The imperative decoder returns exactly `Decode(incoming)`: the unmarshal error, the panic, or the record and bag described by `DecodeMapMeaning`. |
| DecodingFacts.FixtureDecodesWithIntendedId | data_chaincode_test.go:15 | With the intended "id" step, the test record decodes successfully, and its identifier is the converted number 1. |
| DecodingFacts.DecodeRejectsNonObject | data_chaincode.go:115-117 | Input that is not an object or `null` yields an unmarshal error and no record. |
| DecodingFacts.NullDecodesToZero | data_chaincode.go:113-124 | `null` decodes to the all-zero record with an empty bag: absence is never an error. |
| DecodingFacts.IdAlwaysPanics | data_chaincode.go:119-121 | Any member named "id" makes decoding panic. |
| DecodingFacts.NonStringFieldPanics | data_chaincode.go:126-128 | Any looked-up string name with a non-string value makes decoding panic, whatever the other members are. |
| DecodingFacts.BagEmptyIff | data_chaincode.go:119-215 | The decoded bag is empty exactly when every input member's name was looked up. |
| DecodingFacts.UnmatchedStructTags | data_chaincode.go:24-25 | "serialNo" and "expirationDate" are struct tags but not looked-up names. |
| DecodingFacts.TagNamedMembersStayInBag | data_chaincode.go:132-149 | Members named "serialNo" or "expirationDate" stay in the bag unchanged. The serial number and the expiry date stay "" unless the input used the looked-up names. |
| DecodingFacts.FixturePanics | data_chaincode_test.go:15 | Decoding the repository's test record panics, because it carries "id". |
| DecodingFacts.NumericIdAccepted | data_chaincode.go:119-121 | With the intended "id" step, a numeric "id" is accepted. Decoding succeeds exactly when every string assertion does. The identifier is the converted number, and everything else equals what the code as written produces without "id". |
| DecodingFacts.NumericIdAgreesWithoutId | data_chaincode.go:119-124 | Without an "id" member, the intended decoder and the code as written give the same result. |
| Keys.LowerChar | data_chaincode.go:225 | ASCII lower-casing of one character: 'A'..'Z' move to 'a'..'z', and everything else is unchanged. |
| Keys.Lower | data_chaincode.go:225 | Lower-casing keeps the length and lower-cases every position. |
| Keys.GetProductKey | data_chaincode.go:222-228 | The key's length is the sum of the four parts' lengths. |
| Keys.KeyParts | data_chaincode.go:225 | The key read back in four parts: the first three equal GTIN, serial number and lot up to case and contain no upper-case letter, and the expiry date ends it verbatim. |
| Keys.LowerSameUpToCase | data_chaincode.go:225 | Strings equal up to case lower-case to the same string. |
| Keys.LowerIdempotent | data_chaincode.go:225 | Lower-casing twice equals lower-casing once. |
| Keys.SameNaturalKeySameKey | data_chaincode.go:222-226 | Records agreeing on GTIN, serial number and lot up to case, and on the expiry date exactly, get the same key (natural-key semantics). |
| Keys.SameKeySameNaturalKey | data_chaincode.go:222-226 | Conversely, for parts of matching lengths, equal keys mean the same natural key up to case. |
| Keys.KeyIsNotInjective | data_chaincode.go:225 | Without separators, different GTIN/serial pairs ("ab","c") and ("a","bc") collide. |
| Encoding.Encoded | data_chaincode.go:232-256 | A marshal error is returned as is. With an empty bag, the result is exactly the struct encoding. With a non-empty bag, it is the struct encoding without its last byte, then a space and a comma, then the bag encoding without its first byte. Its length is the sum, it starts with the struct's first byte and ends with the bag's last. It is one object whose members are the struct's, then " ,", then the bag's. |
| Encoding.SpliceJoinsMembers | data_chaincode.go:245-249 | Overwriting the struct's closing brace with a space and the bag's opening brace with a comma, then appending, gives the object whose members are the struct's, " ," and the bag's. Its length is the sum, and its first and last bytes are the struct's first and the bag's last. |
| Encoding.ToBytes | data_chaincode.go:232-256 | Overwriting the two bytes in place and appending yields exactly `Encoded`. |
| Chaincode.Ledger.PutState | data_chaincode.go:97-101 | A successful put sets exactly that key. A failed put reports its error and changes nothing. |
| Chaincode.Ledger.CreateProduct | data_chaincode.go:71-106 | A wrong argument count gives the fixed error. Unmarshal, marshal and put failures give their errors, and a failed assertion panics. Every failure leaves the ledger unchanged. On success the ledger maps the record's key to the encoded bytes, every other key is untouched (last write wins), and the same bytes are returned. |
| Chaincode.SubmitTestRecord | data_chaincode_test.go:50-63 | Submitting the test record to a fresh ledger panics and stores nothing. |

## Findings

| source | as written | input that shows it | evidently intended | confidence | as-written member | corrected member |
|---|---|---|---|---|---|---|
| data_chaincode.go:119-121 | "id" is asserted to be an `int`, but `encoding/json` decodes every number into `interface{}` as `float64`, so any present "id" panics | the test record at data_chaincode_test.go:15 carries `"id":1`, and the test at data_chaincode_test.go:58-60 expects status 200 | a numeric "id" becomes the identifier and decoding continues | high; not executed | DecodingFacts.FixturePanics, Chaincode.SubmitTestRecord | DecodingFacts.NumericIdAccepted, DecodingFacts.FixtureDecodesWithIntendedId |

`Chaincode.Ledger.CreateProduct` keeps the code as written. The intended decoder, `DecodingFacts.DecodeMapNumericId`, is stated beside the as-written decoder and proved to differ from it only in the "id" step.

## Left out

- `main`, `Init`, `Invoke` and the Fabric shim types (data_chaincode.go:43-69) are left out: they are process start-up and dispatch by function name. The test's `queryProductsByEvent` call reaches `Invoke`'s unknown-function branch, which is not modelled.
- Logging through `fmt.Println` is left out, because it does not affect any result.
- The `encoding/json` parser is not part of this model. Its outcome for an argument is the parameter `JsonLib.unmarshal` (an unmarshal failure or a JSON value), so JSON text syntax, duplicate member names and `float64` conversion are not modelled. Numbers stay opaque literals.
- The `encoding/json` marshaller is not part of this model. Its results are the two functions of an `Encoder`, assumed (`JsonLib.Valid`) to ignore the bag when encoding the struct, and to produce object text `{…}` whenever they succeed, for the bag only when it is non-empty (an empty bag is never marshalled). Member order, escaping and the struct's own field encoding are not modelled.
- The content of a Go panic message is left out. A panic is one `Panicked` outcome, and how the peer turns it into a response is not modelled.
- `stub.PutState` as a storage engine is not modelled. The ledger is a map, and a peer-side failure is the `fault` parameter.
- Keys.LowerChar: only ASCII letters are lower-cased; Go's `strings.ToLower` also maps non-ASCII upper-case letters.
- Keys.GetProductKey: its own contract gives only the key's length. What the key contains is stated by `Keys.KeyParts`.
- Decoding.GetProductFromJson: the source's fifteen identical string steps are one loop over the looked-up names in the source's order. The "id" step stays separate.
- Go's distinction between a nil and an empty `Data` map is not modelled. Both have length 0, which is all `toBytes` inspects.
- Pagination and rich queries are left out: there is no such code in `data_chaincode.go`.
- DecodingFacts.FixtureDecodesWithIntendedId: it states that the test record decodes and gives its identifier. The full decoded record and its bag are not spelled out. Go's float-to-int conversion is the abstract parameter `toInt`.
