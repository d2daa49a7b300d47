/** The cart documents: `CartItemSchema`, `CartSchema` and the `Cart`
    collection built from them. */
module CartSchema {
  import opened Wrappers

  /** One line of a cart. `size` is optional: a line may carry no size, and
      an absent size differs from the empty size `Some("")`. */
  datatype LineItem = LineItem(productId: Id, quantity: int, size: Option<string>)

  /** A cart document: the customer it belongs to and its ordered lines. */
  datatype Cart = Cart(customerId: Id, items: seq<LineItem>)

  /** A line the schema accepts: a product reference is present and the
      quantity is at least 1. */
  ghost predicate ValidLineItem(item: LineItem) {
    item.productId != "" && item.quantity >= 1
  }

  /** A cart the schema accepts: a customer reference and valid lines. */
  ghost predicate ValidCart(cart: Cart) {
    && cart.customerId != ""
    && forall i :: 0 <= i < |cart.items| ==> ValidLineItem(cart.items[i])
  }

  /** Two lines share a merge key when they agree on product and on size. */
  predicate SameKey(a: LineItem, b: LineItem) {
    a.productId == b.productId && a.size == b.size
  }

  /** No two lines of a cart share both product and size: the add route
      merges such lines instead of storing them twice. */
  ghost predicate DistinctLines(items: seq<LineItem>) {
    forall i, j :: 0 <= i < j < |items| ==> !SameKey(items[i], items[j])
  }

  /** The whole collection: keyed by customer id (the unique index on
      `customerId`, so at most one cart per customer), every cart valid and
      without duplicate lines. */
  ghost predicate ValidStore(carts: map<Id, Cart>) {
    forall c :: c in carts ==>
      carts[c].customerId == c && ValidCart(carts[c]) && DistinctLines(carts[c].items)
  }

  /** Storing a valid cart under its own customer id keeps the collection valid. */
  lemma StorePut(carts: map<Id, Cart>, cart: Cart)
    requires ValidStore(carts) && ValidCart(cart) && DistinctLines(cart.items)
    ensures ValidStore(carts[cart.customerId := cart])
  {
  }

  /** The `Cart` collection. */
  class CartCollection {
    var carts: map<Id, Cart>

    ghost predicate Valid()
      reads this
    {
      ValidStore(carts)
    }

    constructor ()
      ensures Valid() && carts == map[]
    {
      carts := map[];
    }
  }
}
