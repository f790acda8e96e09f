/** The ordered store behind every route: one Redis list `queue:<shopId>`
    per shop, abstracted as a map from shop id to the names in wait order
    (earliest joiner first). */
module Store {

  type ShopId = string
  type Name = string

  /** A shop with no key holds the empty line. */
  type Store = map<ShopId, seq<Name>>

  /** `LRANGE queue:<shop> 0 -1`: the whole line, empty for a missing key. */
  function Line(store: Store, shop: ShopId): (r: seq<Name>)
    ensures shop !in store ==> r == []
  {
    if shop in store then store[shop] else []
  }

  /** Writes a shop's line. Like Redis, a list that becomes empty is
      deleted, so the map never holds an empty line. */
  function WithLine(store: Store, shop: ShopId, line: seq<Name>): (r: Store)
    ensures Line(r, shop) == line
    ensures SameElsewhere(store, r, shop)
    ensures shop in r <==> line != []
    ensures forall k :: k in r && k != shop ==> k in store
  {
    if line == [] then store - {shop} else store[shop := line]
  }

  /** Every shop other than `shop` has the same line in both stores. */
  ghost predicate SameElsewhere(a: Store, b: Store, shop: ShopId)
  {
    forall k :: k != shop ==> Line(a, k) == Line(b, k)
  }

  /** No queued name is the empty string (join refuses empty names). */
  predicate NoBlankNames(line: seq<Name>)
  {
    forall i :: 0 <= i < |line| ==> line[i] != ""
  }

  /** What every route preserves: no stored list is empty (Redis deletes
      them) and no queued name is blank. */
  predicate Valid(store: Store)
  {
    forall k :: k in store ==> store[k] != [] && NoBlankNames(store[k])
  }

  /** In a valid store a shop's key exists exactly when someone is waiting
      in its line. */
  lemma LineNonEmptyIffKey(store: Store, shop: ShopId)
    requires Valid(store)
    ensures Line(store, shop) != [] <==> shop in store
  {
  }

  /** In a valid store every line, present or not, has no blank name. */
  lemma ValidLine(store: Store, shop: ShopId)
    requires Valid(store)
    ensures NoBlankNames(Line(store, shop))
  {
  }

  /** Replacing one line by a line without blank names keeps the store
      valid. */
  lemma {:induction false} WithLineValid(store: Store, shop: ShopId, line: seq<Name>)
    requires Valid(store)
    requires NoBlankNames(line)
    ensures Valid(WithLine(store, shop, line))
  {
    var r := WithLine(store, shop, line);
    forall k | k in r
      ensures r[k] != [] && NoBlankNames(r[k])
    {
      if k == shop {
        assert r[k] == Line(r, shop) == line;
      } else {
        assert Line(r, k) == Line(store, k);
      }
    }
  }
}
