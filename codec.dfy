/**
 The cart codec: re-keying a cart by item name for transport, and resolving
 the names back to catalog items. The JSON text itself is produced and parsed
 by a serialization library; this module works on the payload that text
 carries, a map from item name to quantity.
 */
module CartCodec {
  import opened BakeryItems

  datatype Option<T> = None | Some(value: T)

  /** The serialized payload: `{"items": {name: quantity, ...}}`. */
  datatype Cart = Cart(items: map<string, int>)

  /** `order` lists the keys of `m` in the map's iteration order (a cart built
      by the view model iterates in insertion order). */
  predicate IsIterationOrder(order: seq<BakeryItem>, m: map<BakeryItem, int>)
  {
    && (forall i, j :: 0 <= i < j < |order| ==> order[i] != order[j])
    && (forall k :: k in m ==> k in order)
    && (forall i :: 0 <= i < |order| ==> order[i] in m)
  }

  /** The position of the last item called `n` in `order`, -1 when there is none. */
  function LastIndex(order: seq<BakeryItem>, n: string): (i: int)
    ensures -1 <= i < |order|
    ensures 0 <= i ==> order[i].name == n && forall j :: i < j < |order| ==> order[j].name != n
    ensures i < 0 ==> forall j :: 0 <= j < |order| ==> order[j].name != n
    decreases |order|
  {
    if order == [] then -1
    else if order[|order| - 1].name == n then |order| - 1
    else LastIndex(order[..|order| - 1], n)
  }

  /** Re-keys the entries of `m` visited in `order` by name, each visit
      overwriting what an earlier item of the same name wrote. */
  function ReKey(m: map<BakeryItem, int>, order: seq<BakeryItem>): (items: map<string, int>)
    requires forall i :: 0 <= i < |order| ==> order[i] in m
    ensures forall i :: 0 <= i < |order| ==> order[i].name in items
    ensures forall n :: n in items ==> 0 <= LastIndex(order, n) && items[n] == m[order[LastIndex(order, n)]]
    decreases |order|
  {
    if order == [] then map[]
    else
      var last := order[|order| - 1];
      ReKey(m, order[..|order| - 1])[last.name := m[last]]
  }

  /** toJson: the cart keyed by item name. Every item's name appears, and no
      other; the quantity under a name is that of the last item with that
      name in iteration order. */
  function ToJson(m: map<BakeryItem, int>, order: seq<BakeryItem>): (c: Cart)
    requires IsIterationOrder(order, m)
    ensures forall k :: k in m ==> k.name in c.items
    ensures forall n :: n in c.items ==> 0 <= LastIndex(order, n) && c.items[n] == m[order[LastIndex(order, n)]]
  {
    Cart(ReKey(m, order))
  }

  /** When no two cart items share a name, every quantity survives toJson
      under its item's name. */
  lemma ToJsonKeepsQuantities(m: map<BakeryItem, int>, order: seq<BakeryItem>)
    requires IsIterationOrder(order, m)
    requires forall k1, k2 :: k1 in m && k2 in m && k1.name == k2.name ==> k1 == k2
    ensures forall k :: k in m ==> ToJson(m, order).items[k.name] == m[k]
  {
    var c := ToJson(m, order);
    forall k | k in m
      ensures c.items[k.name] == m[k]
    {
      assert order[LastIndex(order, k.name)] in m;
    }
  }

  /** The first catalog item called `name`, as the list's `find` returns it. */
  function Find(catalog: seq<BakeryItem>, name: string): (r: Option<BakeryItem>)
    ensures r.Some? ==> r.value in catalog && r.value.name == name
    ensures forall j :: 0 <= j < |catalog| && catalog[j].name == name ==> r.Some? && r.value in catalog[..j + 1]
    decreases |catalog|
  {
    if catalog == [] then None
    else if catalog[0].name == name then Some(catalog[0])
    else
      var r := Find(catalog[1..], name);
      assert forall j :: 1 <= j < |catalog| ==> catalog[1..][..j] == catalog[1..j + 1];
      r
  }

  /** The item stood in for a name the catalog does not know: that name, price
      0 and image 0. */
  function Placeholder(name: string): BakeryItem
  {
    BakeryItem(name, 0, 0)
  }

  /** The item a name decodes to: the first catalog match, else a placeholder.
      Either way it carries the name it was resolved from. */
  function Resolve(name: string, catalog: seq<BakeryItem>): (item: BakeryItem)
    ensures item.name == name
    ensures item in catalog || item == Placeholder(name)
    ensures forall j :: 0 <= j < |catalog| && catalog[j].name == name ==> item in catalog[..j + 1]
    ensures (forall j :: 0 <= j < |catalog| ==> catalog[j].name != name) ==> item == Placeholder(name)
  {
    match Find(catalog, name)
    case Some(item) => item
    case None => Placeholder(name)
  }

  /** toBakeryItemMap: each name of the payload resolved against the catalog,
      with its quantity. It is total: an unknown name yields a placeholder. */
  function ToBakeryItemMap(c: Cart, catalog: seq<BakeryItem>): (r: map<BakeryItem, int>)
    ensures forall n :: n in c.items ==> Resolve(n, catalog) in r && r[Resolve(n, catalog)] == c.items[n]
    ensures forall k :: k in r ==> k.name in c.items && k == Resolve(k.name, catalog)
  {
    map n | n in c.items :: Resolve(n, catalog) := c.items[n]
  }

  /** If each cart item is what its own name resolves to, the round trip
      gives back the cart. */
  lemma RoundTripWhenSelfResolving(m: map<BakeryItem, int>, order: seq<BakeryItem>, catalog: seq<BakeryItem>)
    requires IsIterationOrder(order, m)
    requires forall k :: k in m ==> Resolve(k.name, catalog) == k
    ensures ToBakeryItemMap(ToJson(m, order), catalog) == m
  {
    var c := ToJson(m, order);
    var d := ToBakeryItemMap(c, catalog);
    forall k1, k2 | k1 in m && k2 in m && k1.name == k2.name
      ensures k1 == k2
    {
      assert Resolve(k1.name, catalog) == k1 && Resolve(k2.name, catalog) == k2;
    }
    ToJsonKeepsQuantities(m, order);
    forall k | k in m
      ensures k in d && d[k] == m[k]
    {
      assert Resolve(k.name, catalog) == k;
    }
    forall k | k in d
      ensures k in m
    {
      var i := LastIndex(order, k.name);
      assert order[i] in m;
      assert Resolve(order[i].name, catalog) == order[i];
    }
    MapsEqual(d, m);
  }

  lemma MapsEqual(a: map<BakeryItem, int>, b: map<BakeryItem, int>)
    requires forall k :: k in a ==> k in b && a[k] == b[k]
    requires forall k :: k in b ==> k in a
    ensures a == b
  {
  }

  /** A cart survives toJson then toBakeryItemMap exactly when each of its
      items is what its own name resolves to in the catalog. */
  lemma RoundTripIff(m: map<BakeryItem, int>, order: seq<BakeryItem>, catalog: seq<BakeryItem>)
    requires IsIterationOrder(order, m)
    ensures ToBakeryItemMap(ToJson(m, order), catalog) == m
            <==> forall k :: k in m ==> Resolve(k.name, catalog) == k
  {
    var d := ToBakeryItemMap(ToJson(m, order), catalog);
    if d == m {
      forall k | k in m
        ensures Resolve(k.name, catalog) == k
      {
        assert k in d;
      }
    }
    if forall k :: k in m ==> Resolve(k.name, catalog) == k {
      RoundTripWhenSelfResolving(m, order, catalog);
    }
  }

  /** With a catalog whose names are distinct and a cart of catalog items,
      the round trip gives back the cart. */
  lemma RoundTripWithCatalog(m: map<BakeryItem, int>, order: seq<BakeryItem>, catalog: seq<BakeryItem>)
    requires IsIterationOrder(order, m)
    requires DistinctNames(catalog)
    requires forall k :: k in m ==> k in catalog
    ensures ToBakeryItemMap(ToJson(m, order), catalog) == m
  {
    forall k | k in m
      ensures Resolve(k.name, catalog) == k
    {
      var j :| 0 <= j < |catalog| && catalog[j] == k;
      var item := Resolve(k.name, catalog);
      assert item in catalog[..j + 1];
      var i :| 0 <= i <= j && catalog[i] == item;
      assert catalog[i].name == catalog[j].name;
    }
    RoundTripIff(m, order, catalog);
  }

  /** Two cart items that share a name collapse into one payload entry, so
      the round trip cannot give back the cart, whatever the catalog. */
  lemma NameCollisionIsLossy(m: map<BakeryItem, int>, order: seq<BakeryItem>, catalog: seq<BakeryItem>,
                             k1: BakeryItem, k2: BakeryItem)
    requires IsIterationOrder(order, m)
    requires k1 in m && k2 in m && k1 != k2 && k1.name == k2.name
    ensures ToBakeryItemMap(ToJson(m, order), catalog) != m
  {
    RoundTripIff(m, order, catalog);
  }

  /** The app's own carts: any cart of catalog items round-trips. */
  lemma CatalogCartRoundTrip(m: map<BakeryItem, int>, order: seq<BakeryItem>,
                             baget: int, kruassan: int, vishnyaPirog: int, syrniki: int, napoleonTort: int)
    requires IsIterationOrder(order, m)
    requires forall k :: k in m ==> k in Catalog(baget, kruassan, vishnyaPirog, syrniki, napoleonTort)
    ensures ToBakeryItemMap(ToJson(m, order), Catalog(baget, kruassan, vishnyaPirog, syrniki, napoleonTort)) == m
  {
    RoundTripWithCatalog(m, order, Catalog(baget, kruassan, vishnyaPirog, syrniki, napoleonTort));
  }

  /** A name the catalog does not know decodes to a zero-priced placeholder
      with the payload's quantity. */
  lemma UnknownNameBecomesPlaceholder(c: Cart, catalog: seq<BakeryItem>, name: string)
    requires name in c.items
    requires forall i :: 0 <= i < |catalog| ==> catalog[i].name != name
    ensures var r := ToBakeryItemMap(c, catalog);
            Placeholder(name) in r && r[Placeholder(name)] == c.items[name] && Placeholder(name).price == 0
  {
  }
}
