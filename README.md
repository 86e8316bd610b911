# PBEshop storefront: session cart, categories, orders and checkout

A Dafny model of the PBEshop web shop (Django). The core is the session-backed
shopping cart: a map from product id to a line item `{quantity, price}` kept in
the browser session under the cart key, with `add` (additive, or replacing the
quantity with `update_quantity`), `remove`, `clear`, the total price, the unit
count (`len`) and iteration. Around it the model covers the `cart_add` /
`cart_remove` request handlers, the category table (required name and slug,
unique slug, listing by name), the order record (six required contact fields,
`paid` false by default, `"Order <id>"`, total cost, newest-first listing) and
the `order_create` checkout, which turns the cart into one order with one item
per cart entry.

The cart, the session, the category table and the order tables are classes whose
methods update their fields in place; validation, request decisions, sums and
orderings are functions with lemmas about them.

Files:

- `options.dfy`: `Option`.
- `numerals.dfy`: Python's `str()` of a non-negative id, and reading it back.
- `ledger.dfy`: the cart contents as a value (`AddEntry`, `RemoveEntry`, the sums
  `TotalPrice` and `ItemCount`), with the lemmas about them.
- `carts.dfy`: `Session` and `Cart` classes.
- `cart_views.dfy`: `cart_add` and `cart_remove`.
- `categories.dfy`: categories and their table.
- `orders.dfy`: orders, order items and their tables.
- `checkout.dfy`: `order_create`.

Modelling decisions:

- `cart/cart.py`, the views, the models and the forms are not part of this
  model; their behaviour is taken from their tests. Every contract follows
  what those tests fix.
  Where the tests are silent, the model takes the plainest reading of the
  operations they call. Those readings are listed below.
- Product ids are integers. The source keys the cart by `str(product.id)`, and
  that is one-to-one on ids.
- Prices are whole numbers. The product fixtures only create integral prices
  (`shop/factories.py:23`), so integer arithmetic gives exact decimal sums.
- The catalogue is a map from product id to price. A lookup builds the product
  with that id.
- `add` does not validate its quantity, and it never deletes an entry. An entry
  can reach 0 or less only through an add whose quantity is 0 or less, with or
  without `update_quantity`, and the add form never posts one.
  `AddKeepsPositive` shows that adds of at least one unit keep every entry
  positive, and `RequestsKeepPositive` that no add or remove request leaves an
  entry below one unit.
- On an entry that already exists, `add` keeps the price recorded when the entry
  was created. No test fixes this, so no contract claims it.
- The cart constructor keeps a non-empty cart payload it finds. Otherwise it
  stores an empty map under the cart key. The tests fix only the case with no
  payload at all (`cart/tests/test_cart.py:24-26`); the model also treats an
  empty payload as missing, which gives the same `{}`.
- `clear` deletes the cart key from the session. The `Cart` object is not used
  afterwards; a later request builds a new one (`ClearScenario`).
- Validation is separate from saving. A category or order with blank required
  fields is stored by `save`, and `full_clean` then rejects it (`MissingFields`).
  Only the unique slug index refuses a save.
- The form field `quantity` is modelled after type coercion (`AddForm`). The form
  accepts any quantity of at least 1.
- Order creation takes the clock's time `now` as a parameter. The clock must not
  run backwards.
- `get_cost` of an order item is a parameter of `TotalCost`, because its formula
  lives in `orders/models.py`, which is not part of this model. `TotalCost` is
  `Order.get_total_cost()`; `TotalCostAfterItem` and `TwoItemTotal` state what
  it gives.
- `Carts.Cart.Save` is `Cart.save()`, the write-back of the cart under the cart
  key that `Add` and `Remove` use; their contracts state its effect.
- The checkout leaves the session cart as it is after creating the order. The
  tests do not say whether it is cleared, so `Checkout.OrderCreate` promises
  only that the other session keys are unchanged when an order is created.
- Order ids are 1, 2, 3, ... in creation order. The database assigns the real
  ids; the tests only compare the display string with the id assigned.

## Model

| member | source | states |
|---|---|---|
| `CartLedger.Lookup` | PBEshop/cart/tests/test_views.py:45-47 | a product is found exactly when its id is in the catalogue, and it has that id and the catalogue's price |
| `CartLedger.AddEntry` | PBEshop/cart/tests/test_cart.py:28-43 | add: the product gets an entry; its quantity becomes the given value with update_quantity, or old quantity plus the given value without it (0 for a new entry); a new entry takes the product's price; every other entry is unchanged |
| `CartLedger.RemoveEntry` | PBEshop/cart/tests/test_cart.py:45-58 | remove: exactly the product's key is gone and every other entry is kept as it was |
| `CartLedger.SumOfRemove` | PBEshop/cart/tests/test_cart.py:68-74 | the sum over the cart equals any one entry's share plus the sum over the rest, whichever entry is taken out |
| `CartLedger.SumOfUpdate` | PBEshop/cart/tests/test_cart.py:68-74 | writing one entry changes the sum by the new entry's share minus the old entry's share |
| `CartLedger.EmptyCart` | PBEshop/cart/tests/test_cart.py:24-26 | an empty cart has total price 0 and unit count 0 |
| `CartLedger.AddAbsent` | PBEshop/cart/tests/test_cart.py:68-74 | adding a product the cart lacks adds one entry, and its price times quantity to the total and its quantity to the count |
| `CartLedger.AddCounts` | PBEshop/cart/tests/test_cart.py:95-100 | len grows by the added quantity without update_quantity; with it, the product's old units are replaced by the new quantity |
| `CartLedger.RemoveSums` | PBEshop/cart/tests/test_cart.py:45-58 | remove takes away exactly the removed entry's units and cost, and nothing when the product is absent |
| `CartLedger.AddAccumulates` | PBEshop/cart/tests/test_cart.py:39-43 | two additive adds of a and b equal one add of a + b (1 + 2 = 3) |
| `CartLedger.UpdateOverrides` | PBEshop/cart/tests/test_cart.py:33-37 | an add with update_quantity sets the quantity whatever any earlier add did |
| `CartLedger.AddThenRemove` | PBEshop/cart/tests/test_cart.py:45-49 | add of an absent product followed by its remove gives back the original cart ({} from {}) |
| `CartLedger.RemoveAbsent` | PBEshop/cart/tests/test_cart.py:51-58 | removing an absent product leaves the cart unchanged, so the other entries stay and the key stays absent |
| `CartLedger.AddKeepsPositive` | PBEshop/cart/tests/test_cart.py:28-43 | adds of at least one unit keep every entry's quantity at least 1 |
| `CartLedger.CountBounds` | PBEshop/cart/tests/test_cart.py:95-100 | with positive quantities, len is at least the number of distinct products and the total price is never negative |
| `CartLedger.TwoProducts` | PBEshop/cart/tests/test_cart.py:68-100 | one unit of a and two of b give 2 entries, len 3 and total a.price + 2 * b.price |
| `CartLedger.ThreeProducts` | PBEshop/orders/tests/test_views.py:14-20 | three adds of distinct products at one unit give exactly three entries, one per product |
| `Carts.Cart.constructor` | PBEshop/cart/tests/test_cart.py:24-26 | a cart over a session without a cart payload is {} and is stored under the cart key; an existing payload is loaded |
| `Carts.Cart.Add` | PBEshop/cart/tests/test_cart.py:28-43 | the cart becomes AddEntry of the old cart, the session holds the new map under the cart key and is marked modified |
| `Carts.Cart.Remove` | PBEshop/cart/tests/test_cart.py:45-58 | the cart becomes RemoveEntry of the old cart, written back to the session; nothing is written when the product is absent |
| `Carts.Cart.Clear` | PBEshop/cart/tests/test_cart.py:61-66 | the cart key is deleted from the session itself and every other session key is kept |
| `Carts.Cart.GetTotalPrice` | PBEshop/cart/tests/test_cart.py:68-74 | the result is the sum of price times quantity over all entries |
| `Carts.Cart.Len` | PBEshop/cart/tests/test_cart.py:95-100 | the result is the sum of the quantities over all entries |
| `Carts.Cart.Iterate` | PBEshop/cart/tests/test_cart.py:76-93 | one record per entry and each entry exactly once; each record carries the entry's quantity and price, its line total and the catalogue product of that id |
| `Carts.IterationScenario` | PBEshop/cart/tests/test_cart.py:76-93 | after add(a) and add(b, 2), iteration yields exactly 2 records, each with its own product and that product's price |
| `Carts.ClearScenario` | PBEshop/cart/tests/test_cart.py:61-66 | after clear, loading the session again gives an empty cart |
| `CartViews.HandleAdd` | PBEshop/cart/tests/test_views.py:37-60 | GET gives 405 and an unknown product 404, both with the cart unchanged; a POST on a known product redirects to /cart/; a valid form puts the product in the cart through add; an invalid form leaves the cart unchanged |
| `CartViews.HandleRemove` | PBEshop/cart/tests/test_views.py:69-82 | an unknown product gives 404 with the cart unchanged; otherwise the product's entry is gone and the response redirects to /cart/ |
| `CartViews.RequestsKeepPositive` | PBEshop/cart/tests/test_views.py:37-82 | with every entry at one unit or more, no add or remove request, valid or not, leaves an entry below one unit |
| `CartViews.AddThenRemoveRequests` | PBEshop/cart/tests/test_views.py:63-82 | an add request followed by a remove request for the same product leaves a cart that lacked it as it was |
| `CartViews.CartAdd` | PBEshop/cart/tests/test_views.py:37-60 | the response and the session's new cart are those HandleAdd gives for the old cart; no other session key changes |
| `CartViews.CartRemove` | PBEshop/cart/tests/test_views.py:69-82 | the response and the session's new cart are those HandleRemove gives; no other session key changes |
| `Categories.MissingFields` | PBEshop/shop/tests/test_models.py:13-28 | validation reports name exactly when it is blank and slug exactly when it is blank; with both filled it reports nothing |
| `Categories.NameLeTotal` | PBEshop/shop/tests/test_models.py:36-39 | any two names are comparable in the listing order |
| `Categories.NameLeTransitive` | PBEshop/shop/tests/test_models.py:36-39 | the listing order on names is transitive |
| `Categories.NameLeReflexive` | PBEshop/shop/tests/test_models.py:36-39 | the listing order on names is reflexive |
| `Categories.InsertByName` | PBEshop/shop/tests/test_models.py:36-39 | inserting into a name-ordered list keeps it ordered and adds exactly that category |
| `Categories.OrderByName` | PBEshop/shop/tests/test_models.py:36-39 | the listing is ordered by name and is a permutation of the rows |
| `Categories.FirstIsLeast` | PBEshop/shop/tests/test_models.py:36-39 | the first category listed has a name no later than any row's |
| `Categories.CategoryTable.Save` | PBEshop/shop/tests/test_models.py:30-34 | a save fails with an integrity error exactly when the slug is already used, and then the table is unchanged; otherwise the row is appended; slugs stay unique |
| `Categories.CategoryTable.Listing` | PBEshop/shop/tests/test_models.py:36-39 | the table lists its rows ordered by name, as a permutation of the rows |
| `Categories.CategoryTable.First` | PBEshop/shop/tests/test_models.py:36-39 | first() is None only for an empty table; otherwise it is a row whose name is no later than any other row's |
| `Categories.OrderingScenario` | PBEshop/shop/tests/test_models.py:36-39 | after creating "b" and then "a", first() is "a" and displays as "a" |
| `Categories.DuplicateSlugScenario` | PBEshop/shop/tests/test_models.py:30-34 | a second category with slug "slug" is refused and the table keeps only the first |
| `Numerals.Show` | PBEshop/orders/tests/test_models.py:11-13 | str() of an id is a non-empty string of decimal digits without a leading zero |
| `Numerals.ReadShow` | PBEshop/orders/tests/test_models.py:11-13 | reading the decimal string of an id gives the id back |
| `Numerals.ShowInjective` | PBEshop/orders/tests/test_models.py:11-13 | distinct ids have distinct decimal strings |
| `Orders.LabelNamesOrder` | PBEshop/orders/tests/test_models.py:11-13 | an order displays as "Order " followed by the digits of its id, and the id can be read back from them |
| `Orders.LabelInjective` | PBEshop/orders/tests/test_models.py:11-13 | two orders with the same display string have the same id |
| `Orders.MissingFields` | PBEshop/orders/tests/test_models.py:19-53 | each of first name, last name, email, address, postal code and city is reported exactly when it is blank |
| `Orders.OrderBook.Create` | PBEshop/orders/tests/test_models.py:15-17 | a new order gets the next id and paid == false, is stamped with the current time, is appended to the orders table and has no items |
| `Orders.OrderBook.AddItem` | PBEshop/orders/tests/test_models.py:60-67 | an item for an existing order is appended to the items table, and the orders are unchanged |
| `Orders.OrderBook.NewestFirst` | PBEshop/orders/tests/test_models.py:55-58 | orders are listed in reverse creation order, so creation times never increase down the list |
| `Orders.OrderBook.First` | PBEshop/orders/tests/test_models.py:55-58 | first() is the most recently created order, which no order's creation time exceeds |
| `Orders.OrderingScenario` | PBEshop/orders/tests/test_models.py:55-58 | of two orders, first() is the second one created; under the model's id allocation its id is 2 and it displays as "Order 2" |
| `Orders.ItemsOf` | PBEshop/orders/tests/test_models.py:60-67 | an order's items are exactly the items rows that belong to it |
| `Orders.ItemsOfAppend` | PBEshop/orders/tests/test_models.py:60-67 | the items of an order in two concatenated tables are its items in each, concatenated |
| `Orders.SumCostsAppend` | PBEshop/orders/tests/test_models.py:60-67 | the cost sum over a concatenation is the sum of the two cost sums |
| `Orders.TotalCostAfterItem` | PBEshop/orders/tests/test_models.py:60-67 | a new item adds its cost to its own order's total and leaves other orders' totals unchanged |
| `Orders.TwoItemTotal` | PBEshop/orders/tests/test_models.py:60-67 | an order given two items has total cost equal to the sum of their costs |
| `Checkout.Rejection` | PBEshop/orders/tests/test_views.py:31-43 | a GET shows the form; a POST is accepted exactly when no contact field is blank; a rejected POST reports exactly the blank fields |
| `Checkout.MirrorCart` | PBEshop/orders/tests/test_views.py:45-48 | items made from a complete iteration of the cart match the cart one to one, at its prices and quantities |
| `Checkout.WriteItems` | PBEshop/orders/tests/test_views.py:45-48 | the items table gains exactly ItemsFor of the records, in order |
| `Checkout.OnlyOwnItems` | PBEshop/orders/tests/test_views.py:45-48 | items that all belong to one order are exactly that order's items |
| `Checkout.NewOrderItems` | PBEshop/orders/tests/test_views.py:45-48 | items written after a new order (which had none) are exactly that order's items and match the cart one to one |
| `Checkout.PlaceOrder` | PBEshop/orders/tests/test_views.py:45-48 | one unpaid order is appended, and the items table gains exactly that order's items, one per cart entry at its price and quantity |
| `Checkout.OrderCreate` | PBEshop/orders/tests/test_views.py:31-48 | a rejected request writes no rows and leaves the session as the cart constructor left it; an accepted POST creates one unpaid order whose items match the cart entries one to one and keeps every other session key |
| `Checkout.CheckoutScenario` | PBEshop/orders/tests/test_views.py:14-58 | after three add requests for distinct products, a valid checkout creates an order with exactly 3 items |

## Left out

- Persistence of the session and the tables: the session store is an in-memory map and each table is a sequence. There are no transactions, migrations or request rollback.
- The cart detail page (`cart_detail`): template choice and the update form attached to each item (`cart/tests/test_views.py:84-111`) are rendering concerns.
- Template choice in `order_create`: it is modelled only as the `Outcome` shown or created.
- The Celery wiring (`PBEshop/celery.py`) and the Selenium browser setup (`functional_tests/base.py`): neither holds logic to model.
- The product listing views: their tests assert nothing.
- Iteration order: `Carts.Cart.Iterate` promises each entry exactly once, in no particular order.
- Decimal prices with fractional parts: prices are whole numbers.
- The range of quantities the add form offers and the parsing of posted strings: `CartViews.ValidAddForm` only asks for a quantity of at least 1.
- Email address format checks of the order form: `Orders.MissingFields` checks only that the fields are not blank.
- `full_clean`'s uniqueness check: duplicate slugs are caught by `Categories.CategoryTable.Save`.
- Collation of the database's ORDER BY: names are compared by character code.
- Ties in listings: names are ordered without a tie-break, and orders with equal creation times are listed in reverse creation order.
- Concurrent requests on one session: each request runs alone.
- `Checkout.OrderCreate`: whether the cart is emptied after an order is created is not modelled; the contract says nothing about the cart key in that case.
- `Orders.OrderBook.Create`: ids are allocated as 1, 2, 3, ... in creation order, where the database may allocate any fresh ids.
- `Checkout.OrderCreate`: a cart entry whose product has left the catalogue is recorded by id. In the source, reading that record's product fails with a missing-key error.
