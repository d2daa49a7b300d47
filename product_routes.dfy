/** The product routes: create, list (optionally by seller), read one,
    update field by field, delete. */
module ProductRoutes {
  import opened Wrappers
  import opened Js
  import opened ProductSchema

  /** The product fields of a POST or PUT body, each possibly absent. */
  datatype ProductFields = ProductFields(
    name: Option<string>,
    price: Option<int>,
    category: Option<string>,
    description: Option<string>,
    imageData: Option<string>)

  /** POST's check: name, price, category and seller id are all truthy, so a
      price of 0 is refused as well as a missing one. */
  predicate HasRequiredFields(f: ProductFields, sellerId: Option<Id>) {
    Truthy(f.name) && f.price.Some? && f.price.value != 0 && Truthy(f.category) && Truthy(sellerId)
  }

  /** JavaScript's `s || ''` on an optional string. */
  function OrEmpty(s: Option<string>): string {
    if Truthy(s) then s.value else ""
  }

  /** The document POST builds and the schema casts. */
  function NewProduct(f: ProductFields, sellerId: Option<Id>): Product
    requires HasRequiredFields(f, sellerId)
  {
    Cast(f.name.value, f.price.value, f.category.value,
         Some(OrEmpty(f.description)), Some(OrEmpty(f.imageData)), sellerId.value)
  }

  /** A created product keeps the given seller and price, trims its name and
      category, and stores `''` for a description or image not supplied. */
  lemma NewProductFields(f: ProductFields, sellerId: Option<Id>)
    requires HasRequiredFields(f, sellerId)
    ensures var p := NewProduct(f, sellerId);
      && p.sellerId == sellerId.value && p.price == f.price.value
      && p.name == Trim(f.name.value) && p.category == Trim(f.category.value)
      && (!Truthy(f.description) ==> p.description == "")
      && (Truthy(f.description) ==> p.description == Trim(f.description.value))
      && p.imageData == OrEmpty(f.imageData)
  {
  }

  /** GET `/`: with a (truthy) `sellerId`, exactly that seller's products;
      without one, every product. */
  function ListProducts(products: map<Id, Product>, sellerId: Option<Id>): (r: map<Id, Product>)
    ensures forall id :: id in r <==>
      id in products && (Truthy(sellerId) ==> products[id].sellerId == sellerId.value)
    ensures forall id :: id in r ==> r[id] == products[id]
    ensures !Truthy(sellerId) ==> r == products
  {
    if Truthy(sellerId) then
      map id | id in products && products[id].sellerId == sellerId.value :: products[id]
    else products
  }

  /** GET `/:id`. */
  function FindProduct(products: map<Id, Product>, id: Id): (r: Result<Product>)
    ensures r.Ok? <==> id in products
    ensures r.Ok? ==> r.value == products[id]
    ensures r.Err? ==> r.error == NotFound
  {
    if id in products then Ok(products[id]) else Err(NotFound)
  }

  /** PUT's overwrite, as one record update: each of the five fields is
      replaced (through the `trim` setter where the schema has one) exactly
      when the body provides it. */
  function Patched(p: Product, f: ProductFields): Product {
    p.(name := if f.name.Some? then Trim(f.name.value) else p.name,
       price := if f.price.Some? then f.price.value else p.price,
       category := if f.category.Some? then Trim(f.category.value) else p.category,
       description := if f.description.Some? then Trim(f.description.value) else p.description,
       imageData := if f.imageData.Some? then f.imageData.value else p.imageData)
  }

  /** The update never touches the seller, and an update with no fields leaves
      the product as it is. */
  lemma PatchedKeepsSeller(p: Product, f: ProductFields)
    ensures Patched(p, f).sellerId == p.sellerId
    ensures f == ProductFields(None, None, None, None, None) ==> Patched(p, f) == p
  {
  }

  /** Repeating the same update changes nothing more. */
  lemma PatchedIdempotent(p: Product, f: ProductFields)
    ensures Patched(Patched(p, f), f) == Patched(p, f)
  {
  }

  /** An updated product that the validators accept can be stored. */
  lemma PatchedIsStorable(p: Product, f: ProductFields)
    requires ValidProduct(p) && Accepts(Patched(p, f))
    ensures ValidProduct(Patched(p, f))
  {
    if f.name.Some? { TrimIdempotent(f.name.value); }
    if f.category.Some? { TrimIdempotent(f.category.value); }
    if f.description.Some? { TrimIdempotent(f.description.value); }
  }

  /** A product created for a seller joins that seller's list and no other. */
  lemma CreateExtendsList(products: map<Id, Product>, newId: Id, p: Product, sellerId: Option<Id>)
    requires newId !in products
    ensures ListProducts(products[newId := p], sellerId)
         == if !Truthy(sellerId) || p.sellerId == sellerId.value
            then ListProducts(products, sellerId)[newId := p]
            else ListProducts(products, sellerId)
  {
    var before, after := ListProducts(products, sellerId), ListProducts(products[newId := p], sellerId);
    if !Truthy(sellerId) || p.sellerId == sellerId.value {
      assert after.Keys == before.Keys + {newId};
    } else {
      assert after.Keys == before.Keys;
    }
  }

  /** A deleted product leaves every list. */
  lemma DeleteShrinksList(products: map<Id, Product>, id: Id, sellerId: Option<Id>)
    ensures ListProducts(products - {id}, sellerId) == ListProducts(products, sellerId) - {id}
  {
    assert ListProducts(products - {id}, sellerId).Keys == ListProducts(products, sellerId).Keys - {id};
  }

  /** POST `/`. The new document's id, allocated by the database, is `newId`. */
  method CreateProduct(db: ProductCollection, f: ProductFields, sellerId: Option<Id>, newId: Id)
    returns (r: Result<Product>)
    requires db.Valid() && newId !in db.products
    modifies db
    ensures db.Valid()
    ensures !HasRequiredFields(f, sellerId) ==> r == Err(InvalidInput) && db.products == old(db.products)
    ensures HasRequiredFields(f, sellerId) && !Accepts(NewProduct(f, sellerId)) ==>
      r == Err(ValidationFailed) && db.products == old(db.products)
    ensures HasRequiredFields(f, sellerId) && Accepts(NewProduct(f, sellerId)) ==>
      r == Ok(NewProduct(f, sellerId)) && db.products == old(db.products)[newId := NewProduct(f, sellerId)]
  {
    if !Truthy(f.name) || f.price.None? || f.price.value == 0 || !Truthy(f.category) || !Truthy(sellerId) {
      return Err(InvalidInput);
    }
    var product := Cast(f.name.value, f.price.value, f.category.value,
                        Some(OrEmpty(f.description)), Some(OrEmpty(f.imageData)), sellerId.value);
    if !Accepts(product) {
      return Err(ValidationFailed);
    }
    CastIsStorable(f.name.value, f.price.value, f.category.value,
                   Some(OrEmpty(f.description)), Some(OrEmpty(f.imageData)), sellerId.value);
    StorePut(db.products, newId, product);
    db.products := db.products[newId := product];
    r := Ok(product);
  }

  /** PUT `/:id`: overwrite the provided fields one by one, then save. */
  method UpdateProduct(db: ProductCollection, id: Id, f: ProductFields) returns (r: Result<Product>)
    requires db.Valid()
    modifies db
    ensures db.Valid()
    ensures id !in old(db.products) ==> r == Err(NotFound) && db.products == old(db.products)
    ensures id in old(db.products) && !Accepts(Patched(old(db.products)[id], f)) ==>
      r == Err(ValidationFailed) && db.products == old(db.products)
    ensures id in old(db.products) && Accepts(Patched(old(db.products)[id], f)) ==>
      && db.products == old(db.products)[id := Patched(old(db.products)[id], f)]
      && r == Ok(db.products[id])
  {
    if id !in db.products {
      return Err(NotFound);
    }
    var product := db.products[id];
    if f.name.Some? { product := product.(name := Trim(f.name.value)); }
    if f.price.Some? { product := product.(price := f.price.value); }
    if f.category.Some? { product := product.(category := Trim(f.category.value)); }
    if f.description.Some? { product := product.(description := Trim(f.description.value)); }
    if f.imageData.Some? { product := product.(imageData := f.imageData.value); }
    assert product == Patched(db.products[id], f);
    if !Accepts(product) {
      return Err(ValidationFailed);
    }
    PatchedIsStorable(db.products[id], f);
    StorePut(db.products, id, product);
    db.products := db.products[id := product];
    r := Ok(product);
  }

  /** DELETE `/:id`. */
  method DeleteProduct(db: ProductCollection, id: Id) returns (r: Result<()>)
    requires db.Valid()
    modifies db
    ensures db.Valid()
    ensures id !in old(db.products) ==> r == Err(NotFound) && db.products == old(db.products)
    ensures id in old(db.products) ==> r == Ok(()) && db.products == old(db.products) - {id}
  {
    if id !in db.products {
      return Err(NotFound);
    }
    db.products := db.products - {id};
    r := Ok(());
  }
}
