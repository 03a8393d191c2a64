/**
 The bakery's catalog items and the price of a cart of them.

 A cart maps each item to the quantity ordered. Items compare structurally on
 (name, price, imageRes), as the source's data class does, so two items with
 the same name but a different price are two different cart lines.
 */
module BakeryItems {

  /** A catalog entry. `price` is in whole roubles; `imageRes` is an opaque
      resource identifier that the cart logic never looks at. */
  datatype BakeryItem = BakeryItem(name: string, price: int, imageRes: int)

  /** The price of one cart line. */
  function LineTotal(item: BakeryItem, quantity: int): int
  {
    quantity * item.price
  }

  /** The sum of quantity times price over every entry of the cart. The order in
      which entries are summed does not matter (see TotalWithout). */
  ghost function Total(cart: map<BakeryItem, int>): int
    decreases |cart|
  {
    if cart == map[] then 0
    else
      var k :| k in cart;
      LineTotal(k, cart[k]) + Total(cart - {k})
  }

  /** Any entry can be split off the sum, whichever entry Total happened to pick. */
  lemma {:induction false} TotalWithout(cart: map<BakeryItem, int>, item: BakeryItem)
    requires item in cart
    ensures Total(cart) == LineTotal(item, cart[item]) + Total(cart - {item})
    decreases |cart|
  {
    var k :| k in cart && Total(cart) == LineTotal(k, cart[k]) + Total(cart - {k});
    if k != item {
      TotalWithout(cart - {k}, item);
      TotalWithout(cart - {item}, k);
      assert cart - {k} - {item} == cart - {item} - {k};
    }
  }

  /** No two catalog entries share a name. */
  predicate DistinctNames(catalog: seq<BakeryItem>)
  {
    forall i, j :: 0 <= i < j < |catalog| ==> catalog[i].name != catalog[j].name
  }

  /** The app's fixed catalog; the image resource ids are parameters because
      they are generated by the build. */
  function Catalog(baget: int, kruassan: int, vishnyaPirog: int, syrniki: int, napoleonTort: int): (c: seq<BakeryItem>)
    ensures |c| == 5
    ensures DistinctNames(c)
  {
    [ BakeryItem("Багет", 40, baget),
      BakeryItem("Круассан", 50, kruassan),
      BakeryItem("Пирог с вишней", 150, vishnyaPirog),
      BakeryItem("Сырники", 80, syrniki),
      BakeryItem("Торт Наполеон", 350, napoleonTort) ]
  }
}
