# Cart and order model of the supplements storefront

This project models the cart and order logic of a small Flask storefront
(`app.py`), with the MongoDB collections held as in-memory state. A shopper
adds products to a per-user cart, changes quantities, removes lines, and
views the priced cart. Confirming an order snapshots the cart into an order
record and empties the cart. The project also models registration (one
account per email), login against a password verifier, the catalogue search
box and the list of recommended products.

Layout:

- `wrappers.dfy`: `Option`.
- `sequences.dfy`: `Filter`, an order-preserving filter. The list
  comprehensions of the source (cart removal, search, recommendations) are
  instances of it.
- `catalog.dfy`: products, lookup by id, the ASCII case-insensitive substring
  search, and recommendations.
- `carts.dfy`: cart lines and the three cart mutations as specification
  functions (`Added`, `Updated`, `Removed`). It also holds the loops of the
  handlers (`AddLine`, `SetQuantity`, `Summarize`, `OrderTotal`), proved
  equal to those functions. Pricing (`Total`, `View`) and the lemmas about all
  of these are here too.
- `shop.dfy`: the `Store` class. Its fields are the users collection (a
  sequence, where a user id is a position), the orders log and the constant
  catalogue. Its methods are the request handlers, and `Valid()` is the store
  invariant. The file ends with a client scenario, `AddTwiceThenConfirm`.

The store invariant `Store.Valid()` has three parts:

- emails are unique;
- every cart has at most one line per product id;
- every order belongs to an existing user.

Every handler that changes the store keeps it.

The code does not validate quantities, and the model does the same:

- Adding to the cart accepts any integer quantity. It does not require at
  least 1.
- Removing a product filters out that product's lines only. It does not
  prune other lines with non-positive quantities.
- An update stores non-positive quantities as given.

## Model

| member | source | states |
|---|---|---|
| `Sequences.Filter` | app.py:175 | a list comprehension keeps exactly the elements that pass the test, and never more elements than it started with |
| `Catalog.Lookup` | app.py:29-36 | product lookup gives a catalogue product with the requested id, and gives None exactly when no product has that id |
| `Catalog.ContainsOccurs` | app.py:45 | the recursive substring test holds exactly when the needle occurs at some position of the hay |
| `Catalog.Search` | app.py:42-45 | the catalogue page lists exactly the products whose lower-cased name contains the lower-cased query; an empty query lists every product |
| `Catalog.SearchFindsSubstrings` | app.py:44-45 | a product is listed exactly when the lower-cased query occurs at some position of its lower-cased name |
| `Catalog.SearchKeepsOrder` | app.py:45 | search keeps catalogue order: searching a concatenation is concatenating the searches |
| `Catalog.Recommendations` | app.py:99 | the recommendations are exactly the catalogue products whose id differs from the one shown |
| `Catalog.RecommendationsKeepOrder` | app.py:99 | recommendations keep catalogue order |
| `Carts.FirstIndex` | app.py:115-118 | the add and update loops stop at the first line for the product; the position found is past the end exactly when no line has the product |
| `Carts.Added` | app.py:114-120 | after adding, a line for p exists. If p had a line, only its first line changes, to quantity old + q, and the length stays the same. Otherwise Line(p, q) is appended at the end. All other lines are unchanged either way |
| `Carts.AddLine` | app.py:114-120 | the add-to-cart loop, with its break and for-else append, computes `Added` |
| `Carts.AddedQuantity` | app.py:114-120 | adding q of p raises the quantity held for p by q and leaves every other product's quantity unchanged |
| `Carts.AddedMerges` | app.py:114-120 | adding a then b of the same product gives the same cart as adding a + b once (two adds of 2 and 3 give one line of 5) |
| `Carts.AddedUnique` | app.py:114-122 | adding keeps the cart at one line per product id |
| `Carts.Updated` | app.py:157-162 | updating keeps the length. Only the first line for p changes, and it gets quantity n exactly as given, with no positivity check. If no line has p, the cart is unchanged |
| `Carts.SetQuantity` | app.py:157-162 | the update loop, which overwrites and breaks, computes `Updated` |
| `Carts.UpdatedSetsQuantity` | app.py:159-161 | in a cart with one line per product that has a line for p, updating p to n makes p's quantity exactly n |
| `Carts.UpdatedOthers` | app.py:159-162 | updating p leaves the quantity of every other product unchanged |
| `Carts.UpdatedTwice` | app.py:159-162 | of two updates of the same product, the last one wins |
| `Carts.UpdatedUnique` | app.py:157-164 | updating keeps the cart at one line per product id |
| `Carts.Removed` | app.py:175 | after removal no line has product p, and the remaining lines are exactly the original lines for other products |
| `Carts.RemovedAppend` | app.py:175 | removal keeps the relative order of the remaining lines: removing from a concatenation is concatenating the removals |
| `Carts.RemovedIdempotent` | app.py:175 | removing a product twice is the same as removing it once |
| `Carts.RemovedAbsent` | app.py:175 | removing a product that has no line leaves the cart unchanged |
| `Carts.RemovedQuantity` | app.py:175 | after removal p's quantity is 0 and every other product's quantity is unchanged |
| `Carts.RemovedUnique` | app.py:175-176 | removal keeps the cart at one line per product id |
| `Carts.AddedThenRemoved` | app.py:114-175 | removing p after adding p gives the same cart as removing p alone |
| `Carts.UpdatedThenRemoved` | app.py:157-175 | removing p after updating p gives the same cart as removing p alone |
| `Carts.View` | app.py:137-144 | the cart page has at most one item per line; each item's product is in the catalogue and its subtotal is price times quantity |
| `Carts.ViewIsResolvedLines` | app.py:137-144 | the cart page shows exactly the lines whose product resolves, in cart order, each with its product and quantity; lines that do not resolve are left out |
| `Carts.TotalIsViewSum` | app.py:137-144 | the total is the sum of the subtotals on the cart page |
| `Carts.TotalIgnoresUnresolved` | app.py:137-141 | lines whose product does not resolve add nothing to the total |
| `Carts.AddedTotal` | app.py:114-141 | adding q of p raises the total by p's current price times q, or by 0 when p does not resolve |
| `Carts.RemovedTotal` | app.py:137-175 | removing p lowers the total by p's price times the quantity the cart held of p |
| `Carts.Summarize` | app.py:134-144 | the cart page loop produces exactly `View` and `Total` of the stored cart |
| `Carts.OrderTotal` | app.py:217-221 | the confirmation loop's total equals `Total` of the cart, the same total the cart page shows |
| `Shop.FindEmail` | app.py:57 | the email lookup gives the first user with that email, and gives None exactly when no user has that email |
| `Shop.Store.constructor` | app.py:10-14 | the store starts with no users and no orders, and the given catalogue; the invariant holds |
| `Shop.Store.Register` | app.py:52-67 | a taken email gives DuplicateEmail and leaves the users unchanged. Otherwise exactly one user is appended, with that email and an empty cart, and its id is returned. Orders are untouched |
| `Shop.Store.Login` | app.py:75-83 | login succeeds exactly when some user has the email and the password verifies against that user's stored hash; the session is that user |
| `Shop.Store.AddToCart` | app.py:104-123 | when signed in, only the user's cart changes, to `Added`. When signed out nothing changes. Orders are untouched and the invariant is kept |
| `Shop.Store.UpdateCart` | app.py:150-165 | when signed in, only the user's cart changes, to `Updated`. When signed out nothing changes. The invariant is kept |
| `Shop.Store.RemoveFromCart` | app.py:169-177 | when signed in, only the user's cart changes, to `Removed`. When signed out nothing changes. The invariant is kept |
| `Shop.Store.ViewCart` | app.py:128-146 | when signed in, gives the view and total of the stored cart; it changes nothing, so unresolved lines stay in storage |
| `Shop.Store.Checkout` | app.py:181-199 | the checkout page gives the same priced view as the cart page |
| `Shop.Store.ConfirmOrder` | app.py:203-235 | signed out or with an empty cart, nothing changes. Otherwise exactly one order is appended, holding the pre-confirmation cart lines and their `Total`, and that user's cart is set to empty |

## Left out

- Flask routing, redirects, templates and the session cookie. The session is an explicit `Option<UserId>` argument. Logout is clearing that value, so it has no member.
- The MongoDB driver. Each collection is a field of `Store`, and a user id is a position in the users sequence.
- `ObjectId` parsing and the try/except fallback in `buscar_producto`. `Lookup` compares ids as plain strings, as the add loop and the recommendations filter do. It does not model the other spellings `ObjectId` accepts, such as an upper-case hex id that finds the product stored in lower case. It also does not model that a product whose `_id` is stored as a 24-hex string is never found by the source, because parsing succeeds and the fallback loop never runs.
- A session whose id names no stored user. The source then fails with an unhandled error. The model treats it as signed out and changes nothing.
- Password hashing with `generate_password_hash` and `check_password_hash`. It is a foreign primitive. `Register` receives the finished hash, and `Login` receives the check as a function argument.
- `datetime.now()`: the order timestamp and the current year on the catalogue page.
- Floating-point prices. A price is a whole number of cents (`nat`), so totals are exact.
- Parsing of `int(request.form.get('quantity', 1))`, including the default of 1 and the error on text that is not a number. The quantity is an `int` argument.
- Concurrent requests, lost updates, and the non-atomic insert of the order followed by clearing the cart. Each handler is one atomic step.
- Unicode case folding in the search. `Lower` lower-cases ASCII letters only.
- Form fields that may be missing. Name, email, recipient, address and payment method are always strings here.
- Rendering of the product detail page. Its lookup is `Lookup` and its list is `Recommendations`.
- A user document without a `cart` field. Registration always creates one, so the `get('cart', [])` default never applies.
