/** Sequences of handler calls, proved from the handlers' contracts alone. */
module Scenarios {
  import opened Wrappers
  import opened Js
  import opened CartSchema
  import opened CartRoutes
  import opened UserSchema
  import opened AuthRoutes

  /** Two adds of the same product in the same size give one line holding
      both quantities. */
  method SameSizeMerges(db: CartCollection)
    requires db.Valid() && "c1" !in db.carts
    modifies db
    ensures db.Valid()
    ensures db.carts == old(db.carts)["c1" := Cart("c1", [LineItem("p1", 5, Some("M"))])]
  {
    var r1 := AddItem(db, Some("c1"), Some("p1"), Some(2), Some("M"));
    var r2 := AddItem(db, Some("c1"), Some("p1"), Some(3), Some("M"));
    AddMergesFirstMatch([LineItem("p1", 2, Some("M"))], "p1", 3, Some("M"), 0);
    assert Added([LineItem("p1", 2, Some("M"))], "p1", 3, Some("M")) == [LineItem("p1", 5, Some("M"))];
  }

  /** Adds of one product in two sizes give two lines, in the order added. */
  method OtherSizeSeparates(db: CartCollection)
    requires db.Valid() && "c1" !in db.carts
    modifies db
    ensures db.Valid()
    ensures db.carts == old(db.carts)["c1" := Cart("c1", [LineItem("p1", 2, Some("M")), LineItem("p1", 1, Some("L"))])]
  {
    var r1 := AddItem(db, Some("c1"), Some("p1"), Some(2), Some("M"));
    var r2 := AddItem(db, Some("c1"), Some("p1"), Some(1), Some("L"));
    AddAppendsNewLine([LineItem("p1", 2, Some("M"))], "p1", 1, Some("L"));
    assert [LineItem("p1", 2, Some("M"))] + [LineItem("p1", 1, Some("L"))]
        == [LineItem("p1", 2, Some("M")), LineItem("p1", 1, Some("L"))];
  }

  /** An absent size and the empty size are different lines. */
  method AbsentSizeIsNotEmptySize(db: CartCollection)
    requires db.Valid() && "c1" !in db.carts
    modifies db
    ensures db.Valid()
    ensures "c1" in db.carts && db.carts["c1"].items == [LineItem("p1", 1, None), LineItem("p1", 1, Some(""))]
  {
    var r1 := AddItem(db, Some("c1"), Some("p1"), Some(1), None);
    var r2 := AddItem(db, Some("c1"), Some("p1"), Some(1), Some(""));
    AddAppendsNewLine([LineItem("p1", 1, None)], "p1", 1, Some(""));
  }

  /** Setting the only line's quantity to 0 empties the cart, but the cart
      stays in the collection: a later read finds it, with no lines. */
  method ZeroOnLastLineKeepsEmptyCart(db: CartCollection, c: Id, p: Id, q: int, size: Option<string>)
    requires db.Valid() && c in db.carts && db.carts[c].items == [LineItem(p, q, size)]
    modifies db
    ensures db.Valid()
    ensures c in db.carts && db.carts[c].items == []
  {
    assert ContainsProduct([LineItem(p, q, size)], p) by {
      assert [LineItem(p, q, size)][0].productId == p;
    }
    RemoveFirstDeletesOneLine([LineItem(p, q, size)], p, 0);
    var r := UpdateItemQuantity(db, c, p, Some(0));
    var g := GetCart(db, Some(c));
    assert g == Ok(Cart(c, []));
  }

  /** After clearing a cart, reading it gives NotFound, and so does clearing it again. */
  method ClearThenGet(db: CartCollection, c: Id) returns (g: Result<Cart>, again: Result<()>)
    requires db.Valid()
    modifies db
    ensures db.Valid() && c !in db.carts
    ensures g == Err(NotFound) && again == Err(NotFound)
  {
    var r := ClearCart(db, c);
    g := GetCart(db, Some(c));
    again := ClearCart(db, c);
  }

  /** Registering a fresh email and then logging in with it succeeds, and the
      reply is the new user without its password. */
  method RegisterThenLoginSucceeds(db: UserCollection, email: string, password: string, newId: Id)
    returns (r: Result<UserView>)
    requires db.Valid() && newId !in db.users
    requires email != "" && password != "" && !EmailInUse(db.users, Some(email))
    modifies db
    ensures db.Valid()
    ensures r == Ok(UserView(newId, "n", email, Customer))
  {
    var reg := Register(db, Some("n"), Some(email), Some(password), None, newId);
    r := Login(db, Some(email), Some(password));
    assert db.users[newId].email == email && db.users[newId].password == password;
  }
}
