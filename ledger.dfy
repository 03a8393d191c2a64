/**
 The cart ledger as values: the state the view model holds (a cart and a
 running total), its three transitions, and what every sequence of them
 preserves. The BakeryViewModel class is proved to move between exactly these
 states.
 */
module CartLedger {
  import opened BakeryItems

  /** The view model's two fields. */
  datatype Ledger = Ledger(cart: map<BakeryItem, int>, totalPrice: int)

  /** The state a fresh view model starts in. */
  const Empty: Ledger := Ledger(map[], 0)

  /** The quantity of `item` in `cart`, 0 when it has no entry. */
  function Quantity(cart: map<BakeryItem, int>, item: BakeryItem): int
  {
    if item in cart then cart[item] else 0
  }

  /** addToCart: one more of `item`, and its price on the total. */
  function Add(s: Ledger, item: BakeryItem): (r: Ledger)
    ensures item in r.cart && r.cart[item] == Quantity(s.cart, item) + 1
    ensures r.cart - {item} == s.cart - {item}
    ensures r.totalPrice == s.totalPrice + item.price
  {
    Ledger(s.cart[item := Quantity(s.cart, item) + 1], s.totalPrice + item.price)
  }

  /** removeFromCart: one fewer of `item`; the entry goes when its last unit
      goes; an item without an entry leaves the ledger as it was. */
  function Remove(s: Ledger, item: BakeryItem): (r: Ledger)
    ensures item !in s.cart ==> r == s
    ensures item in s.cart ==> r.totalPrice == s.totalPrice - item.price
    ensures item in r.cart ==> item in s.cart && r.cart[item] == s.cart[item] - 1 >= 1
    ensures item in s.cart && s.cart[item] > 1 ==> item in r.cart
    ensures r.cart - {item} == s.cart - {item}
  {
    if item !in s.cart then s
    else if s.cart[item] > 1 then Ledger(s.cart[item := s.cart[item] - 1], s.totalPrice - item.price)
    else Ledger(s.cart - {item}, s.totalPrice - item.price)
  }

  /** The view model's three public operations. */
  datatype Op = AddToCart(item: BakeryItem) | RemoveFromCart(item: BakeryItem) | ResetCart

  function Step(s: Ledger, op: Op): Ledger
  {
    match op
    case AddToCart(item) => Add(s, item)
    case RemoveFromCart(item) => Remove(s, item)
    case ResetCart => Empty
  }

  function Run(s: Ledger, ops: seq<Op>): Ledger
    decreases |ops|
  {
    if ops == [] then s else Run(Step(s, ops[0]), ops[1..])
  }

  /** Every entry holds at least one unit. */
  ghost predicate AllPositive(cart: map<BakeryItem, int>)
  {
    forall k :: k in cart ==> cart[k] >= 1
  }

  /** The ledger invariant: no zero or negative entries, and the running total
      is the sum of quantity times price. */
  ghost predicate Valid(s: Ledger)
  {
    AllPositive(s.cart) && s.totalPrice == Total(s.cart)
  }

  lemma EmptyValid()
    ensures Valid(Empty)
  {
  }

  /** One more unit of an item adds its price to the line. */
  lemma LineTotalSucc(item: BakeryItem, quantity: int)
    ensures LineTotal(item, quantity + 1) == LineTotal(item, quantity) + item.price
  {
  }

  /** The sum of a cart, split into the line of `item` (0 when absent) and the rest. */
  lemma TotalSplit(cart: map<BakeryItem, int>, item: BakeryItem)
    ensures Total(cart) == LineTotal(item, Quantity(cart, item)) + Total(cart - {item})
  {
    if item in cart {
      TotalWithout(cart, item);
    } else {
      assert cart - {item} == cart;
    }
  }

  lemma AddKeepsValid(s: Ledger, item: BakeryItem)
    requires Valid(s)
    ensures Valid(Add(s, item))
  {
    var r := Add(s, item);
    var q := Quantity(s.cart, item);
    TotalSplit(r.cart, item);
    TotalSplit(s.cart, item);
    LineTotalSucc(item, q);
    assert Total(r.cart) == Total(s.cart) + item.price;
  }

  lemma RemoveKeepsValid(s: Ledger, item: BakeryItem)
    requires Valid(s)
    ensures Valid(Remove(s, item))
  {
    if item in s.cart {
      var r := Remove(s, item);
      var q := s.cart[item];
      TotalSplit(r.cart, item);
      TotalSplit(s.cart, item);
      assert Quantity(r.cart, item) == q - 1;
      LineTotalSucc(item, q - 1);
      assert Total(r.cart) == Total(s.cart) - item.price;
    }
  }

  lemma StepKeepsValid(s: Ledger, op: Op)
    requires Valid(s)
    ensures Valid(Step(s, op))
  {
    match op
    case AddToCart(item) => AddKeepsValid(s, item);
    case RemoveFromCart(item) => RemoveKeepsValid(s, item);
    case ResetCart => EmptyValid();
  }

  lemma {:induction false} RunKeepsValid(s: Ledger, ops: seq<Op>)
    requires Valid(s)
    ensures Valid(Run(s, ops))
    decreases |ops|
  {
    if ops != [] {
      StepKeepsValid(s, ops[0]);
      RunKeepsValid(Step(s, ops[0]), ops[1..]);
    }
  }

  /** Every state reachable from a fresh view model has only positive
      quantities and a total equal to the sum of its lines. */
  lemma ReachableValid(ops: seq<Op>)
    ensures AllPositive(Run(Empty, ops).cart)
    ensures Run(Empty, ops).totalPrice == Total(Run(Empty, ops).cart)
  {
    EmptyValid();
    RunKeepsValid(Empty, ops);
  }

  /** Adding and then removing the same item restores the cart and total
      exactly, provided that item's own entry (if any) is positive. */
  lemma AddThenRemove(s: Ledger, item: BakeryItem)
    requires item in s.cart ==> s.cart[item] >= 1
    ensures Remove(Add(s, item), item) == s
  {
    var r := Remove(Add(s, item), item);
    if item in s.cart {
      assert r.cart == s.cart[item := s.cart[item]];
    } else {
      assert r.cart == s.cart;
    }
  }

  /** Removing one unit of an item present in the cart and adding it back
      restores the cart and total exactly. */
  lemma RemoveThenAdd(s: Ledger, item: BakeryItem)
    requires item in s.cart && s.cart[item] >= 1
    ensures Add(Remove(s, item), item) == s
  {
    var r := Add(Remove(s, item), item);
    assert r.cart == s.cart[item := s.cart[item]];
  }

  /** resetCart empties the ledger, and a second reset changes nothing. */
  lemma ResetIdempotent(s: Ledger)
    ensures Step(s, ResetCart).cart == map[] && Step(s, ResetCart).totalPrice == 0
    ensures Step(Step(s, ResetCart), ResetCart) == Step(s, ResetCart)
  {
  }

  /** Two baguettes and a croissant, then one baguette removed: one of each,
      for 90. */
  lemma BaguetteCroissantScenario(baget: int, kruassan: int, vishnyaPirog: int, syrniki: int, napoleonTort: int)
    ensures var catalog := Catalog(baget, kruassan, vishnyaPirog, syrniki, napoleonTort);
            var b, c := catalog[0], catalog[1];
            Run(Empty, [AddToCart(b), AddToCart(b), AddToCart(c), RemoveFromCart(b)])
              == Ledger(map[b := 1, c := 1], 90)
  {
    var catalog := Catalog(baget, kruassan, vishnyaPirog, syrniki, napoleonTort);
    var b, c := catalog[0], catalog[1];
    assert b != c;
    var ops := [AddToCart(b), AddToCart(b), AddToCart(c), RemoveFromCart(b)];
    var s2 := Ledger(map[b := 2], 80);
    var s3 := Ledger(map[b := 2, c := 1], 130);
    assert Add(Add(Empty, b), b) == s2;
    assert Add(s2, c) == s3;
    assert Remove(s3, b) == Ledger(map[b := 1, c := 1], 90);
    calc {
      Run(Empty, ops);
      Run(Add(Empty, b), ops[1..]);
      Run(s2, ops[2..]);
      Run(s3, ops[3..]);
      Run(Remove(s3, b), []);
    }
  }
}
