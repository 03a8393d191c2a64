# Bakery cart ledger

A model of the cart logic of a small bakery storefront app. The user browses a
fixed catalog of five bakery items and adds them to a cart; the app shows the
cart and its running total. The view model also provides removing one unit and
resetting the cart, and the codec provides a JSON round trip of the cart; no
screen of the app calls these (the only call into the view model is
`addToCart`, MainActivity.kt:209).

The model has four modules:

- `BakeryItems` (items.dfy): the `BakeryItem` value. Items compare on name, price
  and image id, as the source's data class does. The module also holds the app's
  catalog and `Total`, the sum of quantity × price over a cart.
- `CartLedger` (ledger.dfy): the view model's state as a value (`Ledger`: a cart
  and a running total) and its three transitions, add, remove and reset.
  Lemmas show that every sequence of operations from the empty cart keeps two
  facts true: every quantity is at least 1, and the running total equals
  `Total` of the cart.
- `ViewModel` (view_model.dfy): class `BakeryViewModel`, holding the fields
  `cart` and `totalPrice` and updating them in place. Each method is proved to
  move the object to the state the matching `CartLedger` transition gives. Each
  method also keeps the invariant.
- `CartCodec` (codec.dfy): `toJson`, which re-keys the cart by item name, and
  `toBakeryItemMap`, which resolves names back against a catalog. Unknown names
  become zero-priced placeholders. The round trip is proved to give back the
  cart exactly when every cart item is what its own name resolves to. So it
  holds for catalog items when catalog names are distinct. Two items that share
  a name make it lossy.

`BakeryItem` is a data class (MainActivity.kt:33), so cart keys compare by
value on (name, price, imageRes); the model keys the cart by value.

## Model

| member | source | states |
|---|---|---|
| BakeryItems.Catalog | app/src/main/java/com/example/compose12/MainActivity.kt:176-182 | the app's catalog has five items with pairwise distinct names |
| CartLedger.Add | app/src/main/java/com/example/compose12/MainActivity.kt:61-66 | addToCart sets the item's quantity to its old quantity plus 1 (1 if absent), leaves every other entry unchanged, and raises the total by the item's price |
| CartLedger.Remove | app/src/main/java/com/example/compose12/MainActivity.kt:69-81 | removeFromCart on an absent item changes nothing. On a present item it lowers the total by the price. The entry either drops by 1 and stays at least 1, or is deleted when it was 1. Other entries are unchanged |
| CartLedger.EmptyValid | app/src/main/java/com/example/compose12/MainActivity.kt:54-58 | the initial empty cart with total 0 satisfies the ledger invariant |
| CartLedger.AddKeepsValid | app/src/main/java/com/example/compose12/MainActivity.kt:61-66 | addToCart keeps all quantities at least 1 and the total equal to the sum of quantity × price |
| CartLedger.RemoveKeepsValid | app/src/main/java/com/example/compose12/MainActivity.kt:69-81 | removeFromCart keeps all quantities at least 1 and the total equal to the sum of quantity × price, in all three branches |
| CartLedger.StepKeepsValid | app/src/main/java/com/example/compose12/MainActivity.kt:61-87 | each of add, remove and reset keeps the ledger invariant |
| CartLedger.RunKeepsValid | app/src/main/java/com/example/compose12/MainActivity.kt:61-87 | any sequence of add/remove/reset from a valid ledger ends in a valid ledger |
| CartLedger.ReachableValid | app/src/main/java/com/example/compose12/MainActivity.kt:54-87 | every state reachable from a fresh view model has only quantities of at least 1, and a total equal to the sum of quantity × price |
| CartLedger.AddThenRemove | app/src/main/java/com/example/compose12/MainActivity.kt:61-81 | adding then removing an item restores the cart and total exactly, whenever that item's entry (if any) is positive |
| CartLedger.RemoveThenAdd | app/src/main/java/com/example/compose12/MainActivity.kt:61-81 | removing one unit of a present item and adding it back restores the cart and total exactly |
| CartLedger.ResetIdempotent | app/src/main/java/com/example/compose12/MainActivity.kt:84-87 | resetCart gives the empty cart and total 0, and a second reset changes nothing |
| CartLedger.BaguetteCroissantScenario | app/src/main/java/com/example/compose12/MainActivity.kt:61-81 | add baguette twice, add croissant, remove baguette: the result is one of each and a total of 90 |
| ViewModel.BakeryViewModel.constructor | app/src/main/java/com/example/compose12/MainActivity.kt:53-58 | a new view model holds the empty cart and total 0, which satisfies the invariant |
| ViewModel.BakeryViewModel.AddToCart | app/src/main/java/com/example/compose12/MainActivity.kt:61-66 | the in-place update leaves the fields equal to CartLedger.Add of the old fields and keeps the invariant |
| ViewModel.BakeryViewModel.RemoveFromCart | app/src/main/java/com/example/compose12/MainActivity.kt:69-81 | the in-place update leaves the fields equal to CartLedger.Remove of the old fields and keeps the invariant |
| ViewModel.BakeryViewModel.ResetCart | app/src/main/java/com/example/compose12/MainActivity.kt:84-87 | the fields become the empty cart and total 0, which satisfies the invariant |
| CartCodec.ReKey | app/src/main/java/com/example/compose12/MainActivity.kt:40 | mapKeys by name: every visited item's name is a key, and each name holds the quantity of the last item with that name in visiting order |
| CartCodec.ToJson | app/src/main/java/com/example/compose12/MainActivity.kt:39-43 | the payload's names are exactly the cart items' names, and each holds the quantity of the last such item in the cart's iteration order |
| CartCodec.ToJsonKeepsQuantities | app/src/main/java/com/example/compose12/MainActivity.kt:39-43 | when no two cart items share a name, each item's quantity appears under its name |
| CartCodec.Find | app/src/main/java/com/example/compose12/MainActivity.kt:48 | find returns a catalog item with the name, and no earlier catalog item has that name; it returns nothing only when no item has the name |
| CartCodec.Resolve | app/src/main/java/com/example/compose12/MainActivity.kt:48 | a name resolves to an item with that name: the first catalog match, or the placeholder (name, 0, 0) when there is none |
| CartCodec.ToBakeryItemMap | app/src/main/java/com/example/compose12/MainActivity.kt:45-50 | every payload name appears as its resolved item with its quantity, and the result holds nothing else. It never fails on an unknown name |
| CartCodec.UnknownNameBecomesPlaceholder | app/src/main/java/com/example/compose12/MainActivity.kt:45-50 | a name missing from the catalog decodes to a zero-priced placeholder carrying the payload's quantity |
| CartCodec.RoundTripWhenSelfResolving | app/src/main/java/com/example/compose12/MainActivity.kt:39-50 | if every cart item is what its name resolves to, then toBakeryItemMap(toJson(cart)) is the cart |
| CartCodec.RoundTripIff | app/src/main/java/com/example/compose12/MainActivity.kt:39-50 | toBakeryItemMap(toJson(cart)) equals the cart if and only if every cart item is what its own name resolves to |
| CartCodec.RoundTripWithCatalog | app/src/main/java/com/example/compose12/MainActivity.kt:39-50 | with distinct catalog names and a cart of catalog items, the round trip gives back the cart |
| CartCodec.NameCollisionIsLossy | app/src/main/java/com/example/compose12/MainActivity.kt:39-50 | two distinct cart items with the same name make the round trip differ from the cart, whatever the catalog |
| CartCodec.CatalogCartRoundTrip | app/src/main/java/com/example/compose12/MainActivity.kt:39-50 | any cart of the app's own catalog items survives the round trip |

## Left out

- The JSON text is not modelled. `Json.encodeToString` and `Json.decodeFromString` are a serialization library's code. The model works on the `Cart(items)` payload, so encoding and decoding the text are the identity on it. A parse error on malformed text is thrown by that library and is not modelled.
- Prices are `Double` in the source. The model uses whole-rouble integers, as every catalog price is whole. Floating-point drift of the running total is therefore not modelled. Neither is the `"%.2f"` display formatting.
- CartLedger.Add: quantities are unbounded integers. The source's 32-bit `Int` would wrap after 2^31 - 1 additions of one item. BakeryViewModel.AddToCart inherits this through Add.
- CartCodec.ToJson: the cart's iteration order is a parameter. The source's map iterates in insertion order, and the view model does not record that order. So the model says which item wins a name collision relative to a given order. It does not derive that order from the history of add and remove calls.
- The image resource ids of the catalog are build-generated constants. `Catalog` takes them as parameters.
- Compose's `mutableStateOf` snapshot state and the `ViewModel` lifecycle are not modelled. `cart` and `totalPrice` are plain fields.
- The screens, navigation, `MainActivity.onCreate` and image loading are not modelled. These are user interface only.
