/** The cart routes: read a cart, add or merge a line, set a line's quantity,
    remove a line and clear a cart. Each handler is one read-modify-write of
    the collection. */
module CartRoutes {
  import opened Wrappers
  import opened Js
  import opened CartSchema

  /** The `findIndex` predicate of the add route: same product and same size,
      sizes compared with `===` (so an absent size is not the empty size). */
  function SameLine(productId: Id, size: Option<string>): LineItem -> bool {
    (item: LineItem) => item.productId == productId && item.size == size
  }

  /** The `findIndex` predicate of the patch and delete routes: same product,
      whatever the size. */
  function SameProduct(productId: Id): LineItem -> bool {
    (item: LineItem) => item.productId == productId
  }

  /** Some line of `items` is for `productId`. */
  predicate ContainsProduct(items: seq<LineItem>, productId: Id) {
    exists j :: 0 <= j < |items| && items[j].productId == productId
  }

  /** The add route's input check: customer and product given (truthy) and a
      quantity that is neither missing, nor 0, nor negative. */
  predicate ValidAddRequest(customerId: Option<Id>, productId: Option<Id>, quantity: Option<int>) {
    Truthy(customerId) && Truthy(productId) && quantity.Some? && quantity.value > 0
  }

  /** The lines of an existing cart after the add route: the first line with
      the same product and size grows by `quantity`, or a new line is pushed. */
  function Added(items: seq<LineItem>, productId: Id, quantity: int, size: Option<string>): seq<LineItem> {
    var i := FindIndex(items, SameLine(productId, size));
    if i > -1 then items[i := items[i].(quantity := items[i].quantity + quantity)]
    else items + [LineItem(productId, quantity, size)]
  }

  /** The lines after `splice(i, 1)` on the first line for `productId`. */
  function RemoveFirst(items: seq<LineItem>, productId: Id): seq<LineItem>
    requires ContainsProduct(items, productId)
  {
    var i := FindIndex(items, SameProduct(productId));
    items[..i] + items[i + 1..]
  }

  /** The lines after the patch route: the first line for `productId` is
      removed when `quantity` is 0 and otherwise gets that quantity. */
  function SetQuantity(items: seq<LineItem>, productId: Id, quantity: int): seq<LineItem>
    requires ContainsProduct(items, productId)
  {
    var i := FindIndex(items, SameProduct(productId));
    if quantity == 0 then RemoveFirst(items, productId)
    else items[i := items[i].(quantity := quantity)]
  }

  /** Reference view of a cart as a bag: the total quantity held on lines
      for product `productId` in size `size`. */
  function QuantityOf(items: seq<LineItem>, productId: Id, size: Option<string>): int {
    if items == [] then 0
    else (if SameLine(productId, size)(items[0]) then items[0].quantity else 0)
         + QuantityOf(items[1..], productId, size)
  }

  function Sum(qs: seq<int>): int {
    if qs == [] then 0 else qs[0] + Sum(qs[1..])
  }

  /** The lines after adding every quantity of `qs`, in order, for the same
      product and size. */
  function AddedAll(items: seq<LineItem>, productId: Id, size: Option<string>, qs: seq<int>): seq<LineItem>
    decreases |qs|
  {
    if qs == [] then items else AddedAll(Added(items, productId, qs[0], size), productId, size, qs[1..])
  }

  // ---------------------------------------------------------------------
  // Properties of the add rule

  /** Adding to a cart unfolds line by line. */
  lemma {:induction false} AddedCons(items: seq<LineItem>, productId: Id, quantity: int, size: Option<string>)
    requires items != []
    ensures Added(items, productId, quantity, size) ==
      if SameLine(productId, size)(items[0])
      then [items[0].(quantity := items[0].quantity + quantity)] + items[1..]
      else [items[0]] + Added(items[1..], productId, quantity, size)
  {
    if SameLine(productId, size)(items[0]) {
      AddedConsMatch(items, productId, quantity, size);
    } else {
      AddedConsSkip(items, productId, quantity, size);
    }
  }

  /** AddedCons when the first line matches: it is the line that grows. */
  lemma AddedConsMatch(items: seq<LineItem>, productId: Id, quantity: int, size: Option<string>)
    requires items != [] && SameLine(productId, size)(items[0])
    ensures Added(items, productId, quantity, size) ==
      [items[0].(quantity := items[0].quantity + quantity)] + items[1..]
  {
    assert FindIndex(items, SameLine(productId, size)) == 0;
    UpdateHead(items, items[0].(quantity := items[0].quantity + quantity));
  }

  /** AddedCons when the first line does not match: it is kept, and the add
      acts on the rest. */
  lemma AddedConsSkip(items: seq<LineItem>, productId: Id, quantity: int, size: Option<string>)
    requires items != [] && !SameLine(productId, size)(items[0])
    ensures Added(items, productId, quantity, size) ==
      [items[0]] + Added(items[1..], productId, quantity, size)
  {
    var p := SameLine(productId, size);
    var k := FindIndex(items[1..], p);
    assert FindIndex(items, p) == if k == -1 then -1 else k + 1;
    if k == -1 {
      AppendAfterHead(items, LineItem(productId, quantity, size));
    } else {
      UpdateAfterHead(items, k, items[k + 1].(quantity := items[k + 1].quantity + quantity));
    }
  }

  /** Updating the head of a non-empty sequence replaces its first element. */
  lemma UpdateHead(items: seq<LineItem>, v: LineItem)
    requires items != []
    ensures items[0 := v] == [v] + items[1..]
  {
  }

  /** Updating position `k + 1` of a sequence updates position `k` of its tail. */
  lemma UpdateAfterHead(items: seq<LineItem>, k: nat, v: LineItem)
    requires k + 1 < |items|
    ensures items[k + 1 := v] == [items[0]] + items[1..][k := v]
  {
  }

  /** Appending to a non-empty sequence appends to its tail. */
  lemma AppendAfterHead(items: seq<LineItem>, v: LineItem)
    requires items != []
    ensures items + [v] == [items[0]] + (items[1..] + [v])
  {
  }

  /** When some line has the same product and size, the first such line grows
      by `quantity`; the length, the order and every other line are kept. */
  lemma AddMergesFirstMatch(items: seq<LineItem>, productId: Id, quantity: int, size: Option<string>, i: nat)
    requires i < |items| && items[i].productId == productId && items[i].size == size
    requires forall j :: 0 <= j < i ==> !(items[j].productId == productId && items[j].size == size)
    ensures |Added(items, productId, quantity, size)| == |items|
    ensures Added(items, productId, quantity, size)[i] == items[i].(quantity := items[i].quantity + quantity)
    ensures forall j :: 0 <= j < |items| && j != i ==> Added(items, productId, quantity, size)[j] == items[j]
  {
    var p := SameLine(productId, size);
    assert p(items[i]);
    var k := FindIndex(items, p);
    assert k == i;
  }

  /** When no line has the same product and size, one line is appended at the
      end and the earlier lines are kept: another size of a product already
      in the cart gets a line of its own. */
  lemma AddAppendsNewLine(items: seq<LineItem>, productId: Id, quantity: int, size: Option<string>)
    requires forall j :: 0 <= j < |items| ==> !(items[j].productId == productId && items[j].size == size)
    ensures Added(items, productId, quantity, size) == items + [LineItem(productId, quantity, size)]
  {
    var p := SameLine(productId, size);
    assert forall j :: 0 <= j < |items| ==> !p(items[j]);
  }

  /** A customer without a cart gets the one-line cart `[(productId, quantity, size)]`,
      which is what the add rule gives on no lines, so the lemmas about `Added`
      and `AddedAll` also cover a cart's first add. */
  lemma AddedToEmpty(productId: Id, quantity: int, size: Option<string>)
    ensures Added([], productId, quantity, size) == [LineItem(productId, quantity, size)]
    ensures AddedAll([], productId, size, [quantity]) == [LineItem(productId, quantity, size)]
  {
  }

  /** The add rule keeps the collection's invariant: valid lines and no two
      lines with the same product and size. */
  lemma AddedKeepsLinesValid(items: seq<LineItem>, productId: Id, quantity: int, size: Option<string>)
    requires DistinctLines(items) && forall j :: 0 <= j < |items| ==> ValidLineItem(items[j])
    requires productId != "" && quantity >= 1
    ensures var r := Added(items, productId, quantity, size);
      DistinctLines(r) && forall j :: 0 <= j < |r| ==> ValidLineItem(r[j])
  {
    var p := SameLine(productId, size);
    var i := FindIndex(items, p);
    var r := Added(items, productId, quantity, size);
    if i > -1 {
      assert forall j :: 0 <= j < |items| ==> SameKey(r[j], items[j]) && r[j].productId == items[j].productId;
    } else {
      var n := LineItem(productId, quantity, size);
      assert r == items + [n];
      forall a, b | 0 <= a < b < |r|
        ensures !SameKey(r[a], r[b])
      {
        if b == |items| { assert !p(items[a]); }
      }
    }
  }

  /** Bag view of the add rule: the total for the added product and size grows by
      `quantity`, and the total of every other product and size is unchanged. */
  lemma {:induction false} AddedQuantity(items: seq<LineItem>, productId: Id, quantity: int, size: Option<string>,
                                         otherId: Id, otherSize: Option<string>)
    ensures QuantityOf(Added(items, productId, quantity, size), otherId, otherSize)
         == QuantityOf(items, otherId, otherSize) + (if otherId == productId && otherSize == size then quantity else 0)
  {
    var r := Added(items, productId, quantity, size);
    if items == [] {
      assert r == [LineItem(productId, quantity, size)];
      assert r[1..] == [];
    } else {
      AddedCons(items, productId, quantity, size);
      if !SameLine(productId, size)(items[0]) {
        assert r[1..] == Added(items[1..], productId, quantity, size);
        AddedQuantity(items[1..], productId, quantity, size, otherId, otherSize);
      } else {
        assert r[1..] == items[1..];
      }
    }
  }

  /** In a cart without duplicate lines, the bag total of a product and size is
      the quantity of its line (0 when it has none). */
  lemma {:induction false} QuantityOfDistinct(items: seq<LineItem>, productId: Id, size: Option<string>)
    requires DistinctLines(items)
    ensures var i := FindIndex(items, SameLine(productId, size));
      QuantityOf(items, productId, size) == if i == -1 then 0 else items[i].quantity
  {
    var p := SameLine(productId, size);
    if items != [] {
      var rest := items[1..];
      assert DistinctLines(rest) by {
        forall a, b | 0 <= a < b < |rest| ensures !SameKey(rest[a], rest[b]) {
          assert rest[a] == items[a + 1] && rest[b] == items[b + 1];
        }
      }
      QuantityOfDistinct(rest, productId, size);
      if p(items[0]) {
        assert FindIndex(rest, p) == -1 by {
          forall j | 0 <= j < |rest| ensures !p(rest[j]) {
            assert rest[j] == items[j + 1];
            assert !SameKey(items[0], items[j + 1]);
          }
        }
      }
    }
  }

  /** After one or more adds of the same product and size, the cart holds
      exactly one line for them, whose quantity is the sum of what it held
      before and of every added quantity; no duplicate line appears. */
  lemma {:induction false} RepeatedAdds(items: seq<LineItem>, productId: Id, size: Option<string>, qs: seq<int>)
    requires DistinctLines(items) && forall j :: 0 <= j < |items| ==> ValidLineItem(items[j])
    requires productId != "" && |qs| > 0 && forall j :: 0 <= j < |qs| ==> qs[j] >= 1
    ensures var r := AddedAll(items, productId, size, qs);
      var i := FindIndex(r, SameLine(productId, size));
      && DistinctLines(r)
      && i >= 0
      && r[i].quantity == QuantityOf(items, productId, size) + Sum(qs)
  {
    var r := AddedAll(items, productId, size, qs);
    RepeatedAddsTotal(items, productId, size, qs);
    QuantityOfDistinct(r, productId, size);
    var p := SameLine(productId, size);
    if FindIndex(r, p) == -1 {
      // the last add left a line for the key
      AddedLeavesLine(AddedAllPrefix(items, productId, size, qs), productId, qs[|qs| - 1], size);
      AddedAllLast(items, productId, size, qs);
    }
  }

  /** Helper of RepeatedAdds: totals add up and the invariant is kept. */
  lemma {:induction false} RepeatedAddsTotal(items: seq<LineItem>, productId: Id, size: Option<string>, qs: seq<int>)
    requires DistinctLines(items) && forall j :: 0 <= j < |items| ==> ValidLineItem(items[j])
    requires productId != "" && forall j :: 0 <= j < |qs| ==> qs[j] >= 1
    decreases |qs|
    ensures var r := AddedAll(items, productId, size, qs);
      && DistinctLines(r) && (forall j :: 0 <= j < |r| ==> ValidLineItem(r[j]))
      && QuantityOf(r, productId, size) == QuantityOf(items, productId, size) + Sum(qs)
  {
    if qs != [] {
      AddedKeepsLinesValid(items, productId, qs[0], size);
      AddedQuantity(items, productId, qs[0], size, productId, size);
      RepeatedAddsTotal(Added(items, productId, qs[0], size), productId, size, qs[1..]);
    }
  }

  /** The cart before the last of the adds in `qs`. */
  function AddedAllPrefix(items: seq<LineItem>, productId: Id, size: Option<string>, qs: seq<int>): seq<LineItem>
    requires |qs| > 0
  {
    AddedAll(items, productId, size, qs[..|qs| - 1])
  }

  lemma {:induction false} AddedAllLast(items: seq<LineItem>, productId: Id, size: Option<string>, qs: seq<int>)
    requires |qs| > 0
    decreases |qs|
    ensures AddedAll(items, productId, size, qs)
         == Added(AddedAllPrefix(items, productId, size, qs), productId, qs[|qs| - 1], size)
  {
    if |qs| > 1 {
      var next := Added(items, productId, qs[0], size);
      AddedAllLast(next, productId, size, qs[1..]);
      assert qs[1..][..|qs[1..]| - 1] == qs[..|qs| - 1][1..];
    } else {
      assert qs[..0] == [];
    }
  }

  /** After an add, the cart has a line for the added product and size. */
  lemma AddedLeavesLine(items: seq<LineItem>, productId: Id, quantity: int, size: Option<string>)
    ensures FindIndex(Added(items, productId, quantity, size), SameLine(productId, size)) >= 0
  {
    var p := SameLine(productId, size);
    var r := Added(items, productId, quantity, size);
    var i := FindIndex(items, p);
    if i > -1 {
      assert p(r[i]);
    } else {
      assert p(r[|items|]);
    }
  }

  // ---------------------------------------------------------------------
  // Properties of set-quantity and remove

  /** Removing the first line for a product deletes exactly that line and keeps
      the others in their order: as a bag, the cart loses just that line. */
  lemma RemoveFirstDeletesOneLine(items: seq<LineItem>, productId: Id, i: nat)
    requires i < |items| && items[i].productId == productId
    requires forall j :: 0 <= j < i ==> items[j].productId != productId
    ensures FindIndex(items, SameProduct(productId)) == i
    ensures |RemoveFirst(items, productId)| == |items| - 1
    ensures forall j :: 0 <= j < i ==> RemoveFirst(items, productId)[j] == items[j]
    ensures forall j :: i <= j < |items| - 1 ==> RemoveFirst(items, productId)[j] == items[j + 1]
    ensures multiset(RemoveFirst(items, productId)) + multiset{items[i]} == multiset(items)
  {
    var p := SameProduct(productId);
    assert p(items[i]);
    var k := FindIndex(items, p);
    assert k == i;
    SpliceMultiset(items, i);
  }

  /** Deleting position `i` removes exactly `s[i]` from the multiset of `s`. */
  lemma SpliceMultiset(s: seq<LineItem>, i: nat)
    requires i < |s|
    ensures multiset(s[..i] + s[i + 1..]) + multiset{s[i]} == multiset(s)
  {
    assert s == s[..i] + [s[i]] + s[i + 1..];
  }

  /** A non-zero quantity overwrites the quantity of the first line for the
      product and nothing else; zero removes that line. */
  lemma SetQuantityTouchesFirstLine(items: seq<LineItem>, productId: Id, quantity: int, i: nat)
    requires i < |items| && items[i].productId == productId
    requires forall j :: 0 <= j < i ==> items[j].productId != productId
    ensures quantity == 0 ==> SetQuantity(items, productId, quantity) == RemoveFirst(items, productId)
    ensures quantity != 0 ==>
      var r := SetQuantity(items, productId, quantity);
      && |r| == |items|
      && r[i] == items[i].(quantity := quantity)
      && forall j :: 0 <= j < |items| && j != i ==> r[j] == items[j]
  {
    RemoveFirstDeletesOneLine(items, productId, i);
  }

  /** Removing a line keeps the collection's invariant. */
  lemma RemoveFirstKeepsLinesValid(items: seq<LineItem>, productId: Id)
    requires ContainsProduct(items, productId)
    requires DistinctLines(items) && forall j :: 0 <= j < |items| ==> ValidLineItem(items[j])
    ensures var r := RemoveFirst(items, productId);
      DistinctLines(r) && forall j :: 0 <= j < |r| ==> ValidLineItem(r[j])
  {
    var i := FindIndex(items, SameProduct(productId));
    var r := RemoveFirst(items, productId);
    assert forall j :: 0 <= j < |r| ==> r[j] == items[if j < i then j else j + 1];
    forall a, b | 0 <= a < b < |r| ensures !SameKey(r[a], r[b]) {
      var a', b' := if a < i then a else a + 1, if b < i then b else b + 1;
      assert a' < b' && r[a] == items[a'] && r[b] == items[b'];
    }
  }

  /** Setting a quantity that the route accepts (0 or more) keeps the
      collection's invariant: a 0 never ends up stored as a quantity. */
  lemma SetQuantityKeepsLinesValid(items: seq<LineItem>, productId: Id, quantity: int)
    requires ContainsProduct(items, productId) && quantity >= 0
    requires DistinctLines(items) && forall j :: 0 <= j < |items| ==> ValidLineItem(items[j])
    ensures var r := SetQuantity(items, productId, quantity);
      DistinctLines(r) && forall j :: 0 <= j < |r| ==> ValidLineItem(r[j])
  {
    if quantity == 0 {
      RemoveFirstKeepsLinesValid(items, productId);
    } else {
      var i := FindIndex(items, SameProduct(productId));
      var r := SetQuantity(items, productId, quantity);
      assert forall j :: 0 <= j < |items| ==> SameKey(r[j], items[j]) && r[j].productId == items[j].productId;
    }
  }

  // ---------------------------------------------------------------------
  // The handlers

  /** GET `/` (no customer id, a 400) and GET `/:customerId`. */
  method GetCart(db: CartCollection, customerId: Option<Id>) returns (r: Result<Cart>)
    ensures customerId.None? ==> r == Err(InvalidInput)
    ensures customerId.Some? && customerId.value in db.carts ==> r == Ok(db.carts[customerId.value])
    ensures customerId.Some? && customerId.value !in db.carts ==> r == Err(NotFound)
  {
    if customerId.None? {
      return Err(InvalidInput);
    }
    var c := customerId.value;
    if c !in db.carts {
      return Err(NotFound);
    }
    r := Ok(db.carts[c]);
  }

  /** POST `/`: add a line or merge it into the line with the same product and size. */
  method AddItem(db: CartCollection, customerId: Option<Id>, productId: Option<Id>,
                 quantity: Option<int>, size: Option<string>) returns (r: Result<Cart>)
    requires db.Valid()
    modifies db
    ensures db.Valid()
    ensures !ValidAddRequest(customerId, productId, quantity) ==>
      r == Err(InvalidInput) && db.carts == old(db.carts)
    ensures ValidAddRequest(customerId, productId, quantity) ==>
      var c, p, q := customerId.value, productId.value, quantity.value;
      && db.carts == old(db.carts)[c := Cart(c,
           if c in old(db.carts) then Added(old(db.carts)[c].items, p, q, size)
           else [LineItem(p, q, size)])]
      && r == Ok(db.carts[c])
  {
    if !Truthy(customerId) || !Truthy(productId) || quantity.None? || quantity.value == 0 || quantity.value <= 0 {
      return Err(InvalidInput);
    }
    var c, p, q := customerId.value, productId.value, quantity.value;
    var items: seq<LineItem>;
    if c !in db.carts {
      items := [LineItem(p, q, size)];
    } else {
      items := db.carts[c].items;
      AddedKeepsLinesValid(items, p, q, size);
      var itemIndex := FindIndex(items, SameLine(p, size));
      if itemIndex > -1 {
        items := items[itemIndex := items[itemIndex].(quantity := items[itemIndex].quantity + q)];
      } else {
        items := items + [LineItem(p, q, size)];
      }
      assert items == Added(db.carts[c].items, p, q, size);
    }
    StorePut(db.carts, Cart(c, items));
    db.carts := db.carts[c := Cart(c, items)];
    r := Ok(db.carts[c]);
  }

  /** PATCH `/:customerId/item/:productId`: set the quantity of the first line
      for the product; 0 removes that line. */
  method UpdateItemQuantity(db: CartCollection, customerId: Id, productId: Id, quantity: Option<int>)
    returns (r: Result<Cart>)
    requires db.Valid()
    modifies db
    ensures db.Valid()
    ensures quantity.None? || quantity.value < 0 ==>
      r == Err(InvalidInput) && db.carts == old(db.carts)
    ensures quantity.Some? && quantity.value >= 0 &&
            (customerId !in old(db.carts) || !ContainsProduct(old(db.carts)[customerId].items, productId)) ==>
      r == Err(NotFound) && db.carts == old(db.carts)
    ensures quantity.Some? && quantity.value >= 0 &&
            customerId in old(db.carts) && ContainsProduct(old(db.carts)[customerId].items, productId) ==>
      && db.carts == old(db.carts)[customerId :=
           Cart(customerId, SetQuantity(old(db.carts)[customerId].items, productId, quantity.value))]
      && r == Ok(db.carts[customerId])
  {
    if quantity.None? || quantity.value < 0 {
      return Err(InvalidInput);
    }
    if customerId !in db.carts {
      return Err(NotFound);
    }
    var items := db.carts[customerId].items;
    var itemIndex := FindIndex(items, SameProduct(productId));
    if itemIndex == -1 {
      return Err(NotFound);
    }
    SetQuantityKeepsLinesValid(items, productId, quantity.value);
    if quantity.value == 0 {
      items := items[..itemIndex] + items[itemIndex + 1..];
    } else {
      items := items[itemIndex := items[itemIndex].(quantity := quantity.value)];
    }
    StorePut(db.carts, Cart(customerId, items));
    db.carts := db.carts[customerId := Cart(customerId, items)];
    r := Ok(db.carts[customerId]);
  }

  /** DELETE `/:customerId/item/:productId`: remove the first line for the product. */
  method RemoveItem(db: CartCollection, customerId: Id, productId: Id) returns (r: Result<Cart>)
    requires db.Valid()
    modifies db
    ensures db.Valid()
    ensures customerId !in old(db.carts) || !ContainsProduct(old(db.carts)[customerId].items, productId) ==>
      r == Err(NotFound) && db.carts == old(db.carts)
    ensures customerId in old(db.carts) && ContainsProduct(old(db.carts)[customerId].items, productId) ==>
      && db.carts == old(db.carts)[customerId :=
           Cart(customerId, RemoveFirst(old(db.carts)[customerId].items, productId))]
      && r == Ok(db.carts[customerId])
  {
    if customerId !in db.carts {
      return Err(NotFound);
    }
    var items := db.carts[customerId].items;
    var itemIndex := FindIndex(items, SameProduct(productId));
    if itemIndex == -1 {
      return Err(NotFound);
    }
    RemoveFirstKeepsLinesValid(items, productId);
    items := items[..itemIndex] + items[itemIndex + 1..];
    StorePut(db.carts, Cart(customerId, items));
    db.carts := db.carts[customerId := Cart(customerId, items)];
    r := Ok(db.carts[customerId]);
  }

  /** DELETE `/:customerId/clear`: delete the customer's cart document. */
  method ClearCart(db: CartCollection, customerId: Id) returns (r: Result<()>)
    requires db.Valid()
    modifies db
    ensures db.Valid()
    ensures customerId !in old(db.carts) ==> r == Err(NotFound) && db.carts == old(db.carts)
    ensures customerId in old(db.carts) ==> r == Ok(()) && db.carts == old(db.carts) - {customerId}
  {
    if customerId !in db.carts {
      return Err(NotFound);
    }
    db.carts := db.carts - {customerId};
    r := Ok(());
  }
}
