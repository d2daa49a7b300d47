/** The product documents: `productSchema` and the `Product` collection. */
module ProductSchema {
  import opened Wrappers
  import opened Js

  /** A stored product. The price is an integer (whole currency units). */
  datatype Product = Product(
    name: string,
    price: int,
    category: string,
    description: string,
    imageData: string,
    sellerId: Id)

  /** The document the schema casts from given field values: `name`,
      `category` and `description` pass through the `trim` setter, and an
      absent `description` or `imageData` takes its default `''`. */
  function Cast(name: string, price: int, category: string,
                description: Option<string>, imageData: Option<string>, sellerId: Id): Product
  {
    Product(Trim(name), price, Trim(category),
            if description.None? then "" else Trim(description.value),
            if imageData.None? then "" else imageData.value,
            sellerId)
  }

  /** The validators that run on save: the required strings are non-empty,
      `price` is at least 0 and a seller is referenced. */
  predicate Accepts(p: Product) {
    p.name != "" && p.price >= 0 && p.category != "" && p.sellerId != ""
  }

  /** A stored product: accepted by the validators, and its trimmed fields
      carry no leading or trailing whitespace. */
  ghost predicate ValidProduct(p: Product) {
    && Accepts(p)
    && Trim(p.name) == p.name
    && Trim(p.category) == p.category
    && Trim(p.description) == p.description
  }

  /** Every document the schema casts and the validators accept can be stored. */
  lemma CastIsStorable(name: string, price: int, category: string,
                       description: Option<string>, imageData: Option<string>, sellerId: Id)
    ensures Accepts(Cast(name, price, category, description, imageData, sellerId)) ==>
      ValidProduct(Cast(name, price, category, description, imageData, sellerId))
  {
    var n, c := Trim(name), Trim(category);
    var d := if description.None? then "" else Trim(description.value);
    assert Trim(n) == n by { TrimIdempotent(name); }
    assert Trim(c) == c by { TrimIdempotent(category); }
    assert Trim(d) == d by {
      if description.Some? { TrimIdempotent(description.value); } else { TrimmedFixpoint(""); }
    }
    assert Cast(name, price, category, description, imageData, sellerId)
        == Product(n, price, c, d, if imageData.None? then "" else imageData.value, sellerId);
  }

  ghost predicate ValidStore(products: map<Id, Product>) {
    forall id :: id in products ==> ValidProduct(products[id])
  }

  /** Storing a valid product keeps the collection valid. */
  lemma StorePut(products: map<Id, Product>, id: Id, p: Product)
    requires ValidStore(products) && ValidProduct(p)
    ensures ValidStore(products[id := p])
  {
  }

  /** The `Product` collection. */
  class ProductCollection {
    var products: map<Id, Product>

    ghost predicate Valid()
      reads this
    {
      ValidStore(products)
    }

    constructor ()
      ensures Valid() && products == map[]
    {
      products := map[];
    }
  }
}
