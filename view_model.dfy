/**
 BakeryViewModel: the object that owns the cart and the running total and
 updates them in place. Each method is proved to take the object from a
 ledger state to the state the pure transition in CartLedger gives, and to
 keep the ledger invariant.
 */
module ViewModel {
  import opened BakeryItems
  import opened CartLedger

  class BakeryViewModel {
    var cart: map<BakeryItem, int>
    var totalPrice: int

    /** The two fields as one ledger value. */
    function State(): Ledger
      reads this
    {
      Ledger(cart, totalPrice)
    }

    ghost predicate Valid()
      reads this
    {
      CartLedger.Valid(State())
    }

    constructor ()
      ensures State() == Empty && Valid()
    {
      cart := map[];
      totalPrice := 0;
      EmptyValid();
    }

    method AddToCart(item: BakeryItem)
      modifies this
      ensures State() == Add(old(State()), item)
      ensures old(Valid()) ==> Valid()
    {
      ghost var before := State();
      var updatedCart := cart;
      updatedCart := updatedCart[item := (if item in updatedCart then updatedCart[item] else 0) + 1];
      cart := updatedCart;
      totalPrice := totalPrice + item.price;
      if CartLedger.Valid(before) {
        AddKeepsValid(before, item);
      }
    }

    method RemoveFromCart(item: BakeryItem)
      modifies this
      ensures State() == Remove(old(State()), item)
      ensures old(Valid()) ==> Valid()
    {
      ghost var before := State();
      var updatedCart := cart;
      if item in updatedCart {
        var quantity := updatedCart[item];
        if quantity > 1 {
          updatedCart := updatedCart[item := quantity - 1];
          totalPrice := totalPrice - item.price;
        } else {
          updatedCart := updatedCart - {item};
          totalPrice := totalPrice - item.price;
        }
      }
      cart := updatedCart;
      if CartLedger.Valid(before) {
        RemoveKeepsValid(before, item);
      }
    }

    method ResetCart()
      modifies this
      ensures State() == Empty && Valid()
    {
      cart := map[];
      totalPrice := 0;
      EmptyValid();
    }
  }
}
