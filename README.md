# FitnStyle backend: cart, product, user and admin stores in Dafny

This project models the backend of a small e-commerce site. Its core is the
shopping cart. Each customer has one cart document, holding an ordered list
of line items `(productId, quantity, size?)`. The five cart handlers are:

- read a cart;
- add a line, or merge it into the line with the same product and size;
- set the quantity of the first line for a product (0 removes that line);
- remove the first line for a product;
- clear (delete) the whole cart.

Beside the cart, the model covers three smaller stores:

- the product catalogue: create with validation and defaults, list by
  seller, read, partial update, delete;
- the admin's user management: list customers and sellers without
  passwords, conditional update with a role whitelist, delete;
- registration with unique emails, and login by exact password match.

Each mongoose collection is a class with a single `map` field keyed by
document id:

- `CartCollection`, keyed by customer id;
- `ProductCollection`;
- `UserCollection`.

Each class has a `Valid()` invariant. For users and products it is the
schema's constraints: the `required`, `min` and `trim` options and the unique
`email` index. For carts it adds one property the schema does not state:
no two lines share product and size. The add route maintains that property
by merging.

Each handler that writes is a method that performs one read-modify-write of
that map. It returns `Result<T>` (`Ok` or `Err` of an `Error`), keeps
`Valid()`, and states the whole new map in terms of pure functions.

The read handlers come in two forms:

- `CartRoutes.GetCart` and `AuthRoutes.Login` are methods that change
  nothing and return a `Result`.
- `ProductRoutes.ListProducts`, `ProductRoutes.FindProduct` and
  `AdminRoutes.ListUsers` are functions of the stored map. The two list
  functions return a map from id to document rather than a `Result`.

The lemmas are about these pure functions:

- `Added`: the merge rule;
- `SetQuantity` and `RemoveFirst`;
- `Patched`: the product overwrite;
- `Edited`: the admin overwrite;
- `Trim`: the schema's `trim` option;
- `FindIndex`: `Array.prototype.findIndex`.

Modules follow the source files:

| module | file |
|---|---|
| `Wrappers` | shared `Option`, `Result`, `Error`, `Id` |
| `Js` | the JavaScript built-ins `findIndex` and `trim` |
| `CartSchema`, `CartRoutes` | `backend/models/Cart.js`, `backend/routes/Cart.js` |
| `ProductSchema`, `ProductRoutes` | `backend/model/product.js`, `backend/routes/products.js` |
| `UserSchema`, `AuthRoutes`, `AdminRoutes` | `backend/model/user.js`, `backend/routes/auth.js`, `backend/routes/admin.js` |
| `Scenarios` | sequences of handler calls proved from the handlers' contracts |

Modelling choices:

- A request field that is absent (`undefined`) is `None`. The empty string
  is `Some("")`, a different value. So `item.size === size` tells an absent
  size from `""`.
- `Truthy` models JavaScript's `!x` tests.
- Mongoose's `required` validator refuses an empty string. The `trim`
  setter runs before validation.
- A save that the schema's validators refuse gives `ValidationFailed`. A
  save that the unique `email` index refuses gives `DuplicateKey`. Neither
  changes the store.

Three behaviours of the routes a reader might not expect:

- An emptied cart (quantity 0 on its last line) stays in the collection. Only
  clear deletes it.
- An absent size and the empty size are different merge keys.
- Set-quantity and remove match by product only, on the first line found.

## Model

| member | source | states |
|---|---|---|
| `Wrappers.Truthy` | backend/routes/Cart.js:30 | defines JavaScript truthiness of an optional string field: present and not the empty string |
| `Js.FindIndex` | backend/routes/Cart.js:48-50 | the result is -1 exactly when no element satisfies the predicate, and otherwise the first index that does |
| `Js.IsWhitespace` | backend/model/product.js:7 | defines the characters the `trim` option removes: ECMAScript WhiteSpace and LineTerminator code points |
| `Js.LeadingSpace` | backend/model/product.js:4-8 | the result counts the whitespace at the start of the input: every character before it is whitespace, and the character at it, if any, is not |
| `Js.TrailingSpace` | backend/model/product.js:4-8 | the result counts the whitespace at the end of the input: every character in the last that many is whitespace, and the character before them, if any, is not |
| `Js.Trim` | backend/model/product.js:4-8 | the result is the infix between the leading and the trailing whitespace; it neither starts nor ends with whitespace |
| `Js.TrimmedFixpoint` | backend/model/product.js:4-8 | a string with no whitespace at either end is its own trim |
| `Js.TrimIdempotent` | backend/model/product.js:4-21 | trimming twice equals trimming once |
| `CartSchema.CartCollection.constructor` | backend/models/Cart.js:10-15 | an empty collection satisfies the invariant: carts keyed by their customer id, quantities at least 1, no duplicate lines |
| `CartSchema.ValidLineItem` | backend/models/Cart.js:4-8 | defines a storable line: a product reference and a quantity of at least 1 |
| `CartSchema.ValidCart` | backend/models/Cart.js:10-13 | defines a storable cart: a customer reference and only storable lines |
| `CartSchema.DistinctLines` | backend/routes/Cart.js:48-58 | defines the property the add route maintains: no two lines share product and size |
| `CartSchema.ValidStore` | backend/models/Cart.js:4-13 | defines the collection invariant: each cart is stored under its own customer id (the unique index), is storable and has distinct lines |
| `CartRoutes.ValidAddRequest` | backend/routes/Cart.js:30 | defines the add route's input check: customer and product truthy, quantity present and positive |
| `CartRoutes.Added` | backend/routes/Cart.js:46-58 | defines the add rule: the first line with equal product and size grows by the quantity, or a new line is pushed |
| `CartRoutes.RemoveFirst` | backend/routes/Cart.js:112-115 | defines `splice(i, 1)` at the first line for the product |
| `CartRoutes.SetQuantity` | backend/routes/Cart.js:85-94 | defines the patch rule: quantity 0 removes the first line for the product, any other quantity overwrites that line's quantity |
| `CartRoutes.AddMergesFirstMatch` | backend/routes/Cart.js:48-54 | when some line has equal product and equal size, the first such line's quantity grows by the added quantity; the length and every other line are unchanged |
| `CartRoutes.AddAppendsNewLine` | backend/routes/Cart.js:55-58 | when no line has equal product and size, exactly one new line is appended after the unchanged old lines, so a new size of a product gets its own line |
| `CartRoutes.AddedToEmpty` | backend/routes/Cart.js:41-44 | the one-line cart built for a customer without a cart is what the add rule (once, or as a single repeated add) gives on no lines, so the lemmas about adds also cover a cart's first add |
| `CartRoutes.AddedKeepsLinesValid` | backend/routes/Cart.js:48-58 | adding keeps every quantity at least 1 and keeps "no two lines share product and size" |
| `CartRoutes.AddedQuantity` | backend/routes/Cart.js:48-58 | viewed as a bag, an add raises the total of the added product and size by the quantity and leaves every other product and size unchanged |
| `CartRoutes.QuantityOfDistinct` | backend/models/Cart.js:4-12 | in a cart without duplicate lines, the bag total of a product and size is the quantity of its single line, or 0 if there is none |
| `CartRoutes.RepeatedAdds` | backend/routes/Cart.js:48-58 | after one or more adds of the same product and size, exactly one line has them, and its quantity is the old total plus the sum of the added quantities |
| `CartRoutes.RemoveFirstDeletesOneLine` | backend/routes/Cart.js:112-115 | removal deletes exactly the first line with that product; the lines before it stay in place, the lines after it shift down by one in order, and as multisets the cart loses just that line |
| `CartRoutes.SetQuantityTouchesFirstLine` | backend/routes/Cart.js:85-94 | quantity 0 removes the first line for the product; any other quantity overwrites that line's quantity and changes nothing else |
| `CartRoutes.RemoveFirstKeepsLinesValid` | backend/routes/Cart.js:109-115 | removing a line keeps quantities at least 1 and lines distinct |
| `CartRoutes.SetQuantityKeepsLinesValid` | backend/routes/Cart.js:75-94 | any accepted quantity (0 or more) keeps quantities at least 1 and lines distinct, so no 0 is ever stored |
| `CartRoutes.GetCart` | backend/routes/Cart.js:8-23 | without a customer id the result is InvalidInput; otherwise it is the stored cart, or NotFound when the customer has none |
| `CartRoutes.AddItem` | backend/routes/Cart.js:26-68 | a missing customer or product, or a missing, zero or negative quantity, gives InvalidInput and no change; a customer without a cart gets the cart `[(productId, quantity, size)]`; otherwise the cart becomes the merged lines; the invariant is kept |
| `CartRoutes.UpdateItemQuantity` | backend/routes/Cart.js:73-102 | an undefined or negative quantity gives InvalidInput; a missing cart, or no line for the product, gives NotFound; in each case there is no change; otherwise only that customer's cart changes, to the set-quantity result, and stays in the collection even when it is left empty |
| `CartRoutes.RemoveItem` | backend/routes/Cart.js:107-123 | a missing cart or line gives NotFound and no change; otherwise only that cart changes, losing its first line for the product |
| `CartRoutes.ClearCart` | backend/routes/Cart.js:126-137 | an absent cart gives NotFound and no change; otherwise exactly that customer's cart is deleted |
| `ProductSchema.Cast` | backend/model/product.js:3-27 | defines the cast document: name, category and description trimmed, missing description and image defaulted to `''` |
| `ProductSchema.Accepts` | backend/model/product.js:4-33 | defines the save validators: non-empty name and category, price at least 0, a seller reference |
| `ProductSchema.CastIsStorable` | backend/model/product.js:3-33 | a cast document that passes the validators (non-empty name and category, price at least 0, a seller) has trimmed fields and can be stored |
| `ProductSchema.ProductCollection.constructor` | backend/model/product.js:40 | an empty catalogue satisfies the invariant |
| `ProductRoutes.HasRequiredFields` | backend/routes/products.js:12 | defines the create route's check: name, price, category and seller all truthy, so price 0 is refused |
| `ProductRoutes.NewProduct` | backend/routes/products.js:17-24 | defines the document the create route builds, with a missing or empty description or image replaced by `''`, as the schema casts it |
| `ProductRoutes.Patched` | backend/routes/products.js:79-83 | defines the update: each provided field overwritten (through `trim` where the schema has it), the others kept |
| `ProductRoutes.NewProductFields` | backend/routes/products.js:17-24 | a created product keeps the given seller and price, has trimmed name and category, and stores `''` for a missing (or empty) description or image |
| `ProductRoutes.ListProducts` | backend/routes/products.js:36-49 | with a truthy seller id, exactly the products of that seller; without one, the whole catalogue |
| `ProductRoutes.FindProduct` | backend/routes/products.js:53-64 | the stored product, or NotFound exactly when the id is absent |
| `ProductRoutes.PatchedKeepsSeller` | backend/routes/products.js:69-83 | an update never changes the seller, and an update with no fields changes nothing |
| `ProductRoutes.PatchedIdempotent` | backend/routes/products.js:79-83 | applying the same update twice equals applying it once |
| `ProductRoutes.PatchedIsStorable` | backend/routes/products.js:79-85 | an updated product that passes the validators keeps its strings trimmed |
| `ProductRoutes.CreateExtendsList` | backend/routes/products.js:17-43 | a new product joins the full list and its own seller's list, and no other seller's list |
| `ProductRoutes.DeleteShrinksList` | backend/routes/products.js:38-43 | a deleted product disappears from every list, and nothing else does |
| `ProductRoutes.CreateProduct` | backend/routes/products.js:7-32 | a falsy name, price (so also 0), category or seller gives InvalidInput; a document the validators refuse (such as a negative price or a name of only spaces) gives ValidationFailed; in both cases nothing is stored; otherwise exactly the new product is added |
| `ProductRoutes.UpdateProduct` | backend/routes/products.js:68-91 | an absent id gives NotFound; an update the validators refuse gives ValidationFailed; in both cases there is no change; otherwise only that product changes, its provided fields overwritten and all others, the seller included, kept |
| `ProductRoutes.DeleteProduct` | backend/routes/products.js:95-107 | an absent id gives NotFound and no change; otherwise exactly that product is removed |
| `UserSchema.ParseRole` | backend/model/user.js:21 | defines the enum check: the role a string names, if it is one of the three |
| `UserSchema.CastRole` | backend/model/user.js:18-23 | defines the role of a new document: customer when absent, else the enum check |
| `UserSchema.NewUser` | backend/model/user.js:4-23 | defines the document registration builds, or none when a `required` or `enum` validator refuses it |
| `UserSchema.UniqueEmails` | backend/model/user.js:12 | defines the unique index on `email`: no two users share an email |
| `UserSchema.ParseRoleName` | backend/model/user.js:18-23 | the role enum admits exactly "customer", "seller" and "admin", each naming its own role (the round trip in both directions) |
| `UserSchema.NewUserValid` | backend/model/user.js:4-23 | a new user is accepted exactly when name, email and password are given and non-empty and the role is absent or in the enum; an absent role becomes customer |
| `UserSchema.UserCollection.constructor` | backend/model/user.js:36 | an empty user collection satisfies the invariant (valid users, unique emails) |
| `AuthRoutes.EmailInUse` | backend/routes/auth.js:10-11 | defines `User.findOne({ email })` succeeding: some stored user has that email |
| `AuthRoutes.Register` | backend/routes/auth.js:7-22 | an email already in use gives EmailTaken and no change; a user the validators refuse gives ValidationFailed and no change; otherwise exactly one user is added, with the given name, email, password and role; emails stay unique |
| `AuthRoutes.RegisterKeepsStoreValid` | backend/model/user.js:9-13 | inserting a user with a fresh email keeps emails unique and every user valid |
| `AuthRoutes.Login` | backend/routes/auth.js:25-51 | success exactly when a stored user has that email and exactly that password; both failures give the same BadCredentials; on success the reply is that user's id, name, email and role, and has no password field |
| `AuthRoutes.RegisterThenLogin` | backend/routes/auth.js:10-46 | after a successful registration, the store is still valid and the same email and password authenticate |
| `AdminRoutes.ListUsers` | backend/routes/admin.js:24-33 | exactly the users whose role is customer or seller, never an admin, each as a view without the password |
| `AdminRoutes.Whitelisted` | backend/routes/admin.js:48 | defines the role whitelist: a truthy role that is one of the three names |
| `AdminRoutes.Edited` | backend/routes/admin.js:45-50 | defines the admin overwrite: name and email when provided, role when whitelisted, password kept |
| `AdminRoutes.EditedRole` | backend/routes/admin.js:45-50 | the role changes only when the given role is one of the three names, and then to that role; the password never changes |
| `AdminRoutes.EditedIdempotent` | backend/routes/admin.js:45-50 | repeating an edit changes nothing more; an edit with no fields changes nothing |
| `AdminRoutes.EditKeepsStoreValid` | backend/model/user.js:9-13 | a save that the validators and the unique email index accept keeps the user collection valid |
| `AdminRoutes.UpdateUser` | backend/routes/admin.js:37-60 | an absent user gives NotFound; an empty name or email gives ValidationFailed; another user's email gives DuplicateKey; in each case there is no change; otherwise only that user changes (name and email when provided, role when whitelisted, password kept), and the reply omits the password |
| `AdminRoutes.DeleteUser` | backend/routes/admin.js:64-76 | an absent user gives NotFound and no change; otherwise exactly that user is removed |
| `Scenarios.SameSizeMerges` | backend/routes/Cart.js:48-54 | adding (p1, 2, M) and then (p1, 3, M) to a new cart gives the single line (p1, 5, M) |
| `Scenarios.OtherSizeSeparates` | backend/routes/Cart.js:55-58 | adding (p1, 2, M) and then (p1, 1, L) gives two lines, in that order |
| `Scenarios.AbsentSizeIsNotEmptySize` | backend/routes/Cart.js:49 | an add with no size and an add with size `""` give two lines |
| `Scenarios.ZeroOnLastLineKeepsEmptyCart` | backend/routes/Cart.js:88-95 | setting the only line's quantity to 0 leaves an empty cart that is still stored |
| `Scenarios.ClearThenGet` | backend/routes/Cart.js:126-131 | after clear, a read gives NotFound and a second clear also gives NotFound |
| `Scenarios.RegisterThenLoginSucceeds` | backend/routes/auth.js:10-46 | registering a fresh email and then logging in with it returns the new user, with the default role customer |

## Left out

- Product join on cart reads (`populate('items.productId')`): `GetCart` and the other cart handlers return the stored cart with plain product ids.
- HTTP status codes, JSON message texts and `console.error`: these are collapsed into the `Error` datatype.
- Storage failures (the 500 paths other than schema validation): these are external to the model.
- Malformed ObjectIds: a cast error is a storage failure. Ids are opaque strings compared with `==`, so the model's ids stand for canonical ObjectId spellings. In the source, `ObjectId.equals` (backend/routes/Cart.js:49, 85 and 112) and the query casts of `findOne` and `findById` compare the 24 hex digits without regard to case. There, `"AB…"` and `"ab…"` name the same product or customer, so an add merges them into one line and a read finds the cart. In the model they are two ids, giving two lines or NotFound.
- The lost-update race between `findOne` and `save` across concurrent requests: each handler is one atomic step.
- `timestamps` and `createdAt`: the time fields are dropped, because the clock is external.
- Id allocation: a new document's id is the parameter `newId`, and the caller must pass an id that is not yet in use. The database allocates it in the source.
- Prices use JavaScript numbers in the source. They are `int` here, and floating point is not modelled.
- Quantities are `int`. String-to-number coercion and `+=` string concatenation are not modelled.
- JSON `null` body values: `Option` separates only "absent" from "present".
- Request values whose JSON type differs from the schema path's type: the model takes every id and size as a string and every quantity and price as an integer. On such input the source can break the cart invariant. A numeric `size: 42` is stored as the string `"42"` (backend/models/Cart.js:7, backend/routes/Cart.js:44 and 57). A second add with `size: 42` then compares `"42" === 42` (backend/routes/Cart.js:49), finds no match and pushes a second line with the same product and size. The model's `Option<string>` sizes exclude this case.
- Result order of `Product.find` and `User.find` (backend/routes/products.js:43, backend/routes/admin.js:27): the source returns arrays in the store's order. `ProductRoutes.ListProducts` and `AdminRoutes.ListUsers` return maps keyed by id, so the order is not modelled. The routes do not rely on it.
- A login or registration body without an email: `findOne({ email: undefined })` is modelled as matching no user. Mongoose's handling of undefined filter values is not modelled.
- The `isAdmin` middleware: it always calls `next()`, so it has no behaviour to model.
- The `'../models/user'` and `'../models/product'` require paths: they do not match the `backend/model/` directory, and module resolution is not modelled.
- The admin dashboard script (`admin/script.js`) and the server wiring (`backend/server.js`): these are UI and I/O.
- `ProductRoutes.UpdateProduct`, `AdminRoutes.UpdateUser`: the source assigns fields on a live document object. The model updates an immutable record step by step and then writes it back, so it does not model aliasing of the document object.
- Whitespace for `trim` is the fixed list of ECMAScript WhiteSpace and LineTerminator code points in `Js.IsWhitespace`; there is no Unicode database.
