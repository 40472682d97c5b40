/** The natural key under which a product is stored: `getProductKey`. */
module Keys {
  import opened Products

  /** `unicode.ToLower` restricted to ASCII: 'A'..'Z' map to 'a'..'z'. */
  function LowerChar(c: char): (d: char)
    ensures 'A' <= c <= 'Z' ==> d as int == c as int + 32
    ensures !('A' <= c <= 'Z') ==> d == c
  {
    if 'A' <= c <= 'Z' then (c as int + 32) as char else c
  }

  /** `strings.ToLower`, character by character. */
  function Lower(s: string): (r: string)
    ensures |r| == |s|
    ensures forall i | 0 <= i < |s| :: r[i] == LowerChar(s[i])
  {
    if s == [] then [] else [LowerChar(s[0])] + Lower(s[1..])
  }

  /** The two strings are equal once ASCII case is ignored. */
  predicate SameUpToCase(a: string, b: string) {
    |a| == |b| && forall i | 0 <= i < |a| :: LowerChar(a[i]) == LowerChar(b[i])
  }

  /** No ASCII upper-case letter occurs in `s`. */
  predicate NoUpper(s: string) {
    forall i | 0 <= i < |s| :: !('A' <= s[i] <= 'Z')
  }

  /** `getProductKey`: the lower-cased GTIN, serial number and lot, then the
      expiry date as given, joined without separators. */
  function GetProductKey(p: Product): (key: string)
    ensures |key| == |p.gtin| + |p.serialNumber| + |p.lot| + |p.expiryDate|
  {
    Lower(p.gtin) + Lower(p.serialNumber) + Lower(p.lot) + p.expiryDate
  }

  /** Where each of four joined strings lies in the joined string. */
  lemma JoinedParts(a: string, b: string, c: string, d: string)
    ensures var k := a + b + c + d;
      && k[..|a|] == a
      && k[|a|..|a| + |b|] == b
      && k[|a| + |b|..|a| + |b| + |c|] == c
      && k[|a| + |b| + |c|..] == d
  {
    var k := a + b + c + d;
    assert k == a + (b + (c + d));
    assert k[|a|..] == b + (c + d);
    assert k[|a| + |b|..] == c + d;
  }

  /** The key read back: its first three parts equal the GTIN, serial
      number and lot up to case and carry no upper-case letter, and the
      expiry date closes it unchanged. */
  lemma KeyParts(p: Product)
    ensures var key := GetProductKey(p);
      var a, b, c := |p.gtin|, |p.gtin| + |p.serialNumber|,
                     |p.gtin| + |p.serialNumber| + |p.lot|;
      && SameUpToCase(key[..a], p.gtin)
      && SameUpToCase(key[a..b], p.serialNumber)
      && SameUpToCase(key[b..c], p.lot)
      && NoUpper(key[..c])
      && key[c..] == p.expiryDate
  {
    JoinedParts(Lower(p.gtin), Lower(p.serialNumber), Lower(p.lot), p.expiryDate);
  }

  /** Strings equal up to case lower-case to the same string. */
  lemma LowerSameUpToCase(a: string, b: string)
    requires SameUpToCase(a, b)
    ensures Lower(a) == Lower(b)
  {
  }

  /** Lower-casing twice is lower-casing once. */
  lemma LowerIdempotent(s: string)
    ensures Lower(Lower(s)) == Lower(s)
  {
    assert forall i | 0 <= i < |s| :: LowerChar(LowerChar(s[i])) == LowerChar(s[i]);
  }

  /** Natural-key semantics: two products whose GTIN, serial number and lot
      agree up to case and whose expiry dates are equal get the same key,
      whatever their other fields, so a later write at that key replaces an
      earlier one. */
  lemma SameNaturalKeySameKey(p: Product, q: Product)
    requires SameUpToCase(p.gtin, q.gtin)
    requires SameUpToCase(p.serialNumber, q.serialNumber)
    requires SameUpToCase(p.lot, q.lot)
    requires p.expiryDate == q.expiryDate
    ensures GetProductKey(p) == GetProductKey(q)
  {
    LowerSameUpToCase(p.gtin, q.gtin);
    LowerSameUpToCase(p.serialNumber, q.serialNumber);
    LowerSameUpToCase(p.lot, q.lot);
  }

  /** The converse, for fields of matching lengths: equal keys mean the
      same natural key up to case. */
  lemma SameKeySameNaturalKey(p: Product, q: Product)
    requires |p.gtin| == |q.gtin| && |p.serialNumber| == |q.serialNumber| && |p.lot| == |q.lot|
    requires GetProductKey(p) == GetProductKey(q)
    ensures SameUpToCase(p.gtin, q.gtin)
    ensures SameUpToCase(p.serialNumber, q.serialNumber)
    ensures SameUpToCase(p.lot, q.lot)
    ensures p.expiryDate == q.expiryDate
  {
    KeyParts(p);
    KeyParts(q);
    var key := GetProductKey(p);
    var a, b, c := |p.gtin|, |p.gtin| + |p.serialNumber|, |p.gtin| + |p.serialNumber| + |p.lot|;
    SameUpToCaseTransitive(p.gtin, key[..a], q.gtin);
    SameUpToCaseTransitive(p.serialNumber, key[a..b], q.serialNumber);
    SameUpToCaseTransitive(p.lot, key[b..c], q.lot);
  }

  lemma SameUpToCaseTransitive(a: string, b: string, c: string)
    requires SameUpToCase(b, a) && SameUpToCase(b, c)
    ensures SameUpToCase(a, c)
  {
  }

  /** Without separators the key is ambiguous: different GTIN and serial
      number pairs can produce the same key. */
  lemma KeyIsNotInjective()
    ensures var p := ZeroProduct.(gtin := "ab", serialNumber := "c");
            var q := ZeroProduct.(gtin := "a", serialNumber := "bc");
            p.gtin != q.gtin && GetProductKey(p) == GetProductKey(q)
  {
    var p := ZeroProduct.(gtin := "ab", serialNumber := "c");
    var q := ZeroProduct.(gtin := "a", serialNumber := "bc");
    assert Lower("ab") == "ab" && Lower("c") == "c";
    assert Lower("a") == "a" && Lower("bc") == "bc";
  }
}
