/** The order_create request: a GET shows the form; a POST with every contact
    field filled creates one order with one item per cart entry; a POST with
    a blank field shows the form again. */
module Checkout {
  import opened Options
  import opened CartLedger
  import opened Carts
  import opened CartViews
  import opened Orders

  /** What the request renders: the form (with the blank fields reported on
      a rejected POST), or the created order. */
  datatype Outcome = ShowForm(missing: set<ContactField>) | Created(order: Order)

  /** The form order_create shows instead of creating an order: None when a
      POST is accepted; otherwise the blank fields to report (none on a GET). */
  function Rejection(requestMethod: HttpMethod, form: Contact): (r: Option<set<ContactField>>)
    ensures r.None? <==> requestMethod == Post && MissingFields(form) == {}
    ensures requestMethod == Get ==> r == Some({})
    ensures requestMethod == Post && r.Some? ==> r.value != {} && forall f :: f in r.value <==> FieldValue(form, f) == ""
  {
    if requestMethod.Get? then Some({})
    else if MissingFields(form) == {} then None
    else Some(MissingFields(form))
  }

  /** The items written for order `orderId`, one per iterated cart record. */
  function ItemsFor(orderId: nat, records: seq<CartRecord>): seq<OrderItem>
  {
    seq(|records|, k requires 0 <= k < |records| =>
          OrderItem(orderId, records[k].productId, records[k].price, records[k].quantity))
  }

  /** The items written for the created order: one per cart entry, each at
      the entry's recorded price and quantity. */
  predicate ItemsMirrorCart(added: seq<OrderItem>, orderId: nat, cart: Entries) {
    && |added| == |cart|
    && (forall i :: 0 <= i < |added| ==>
          added[i].orderId == orderId && added[i].productId in cart
          && added[i].price == cart[added[i].productId].price
          && added[i].quantity == cart[added[i].productId].quantity)
    && (forall i, j :: 0 <= i < j < |added| ==> added[i].productId != added[j].productId)
    && (forall id :: id in cart ==> exists i :: 0 <= i < |added| && added[i].productId == id)
  }

  /** Items made from a complete iteration of the cart mirror the cart. */
  lemma MirrorCart(orderId: nat, records: seq<CartRecord>, cart: Entries, catalog: Catalog)
    requires |records| == |cart|
    requires forall i :: 0 <= i < |records| ==> Describes(records[i], cart, catalog)
    requires forall i, j :: 0 <= i < j < |records| ==> records[i].productId != records[j].productId
    requires forall id :: id in cart ==> exists i :: 0 <= i < |records| && records[i].productId == id
    ensures ItemsMirrorCart(ItemsFor(orderId, records), orderId, cart)
  {
    var added := ItemsFor(orderId, records);
    forall id | id in cart
      ensures exists i :: 0 <= i < |added| && added[i].productId == id
    {
      var i :| 0 <= i < |records| && records[i].productId == id;
      assert added[i].productId == id;
    }
  }

  /** Writes one order item per record, in record order. */
  method WriteItems(book: OrderBook, orderId: nat, records: seq<CartRecord>)
    requires book.Valid() && 1 <= orderId <= |book.orders|
    modifies book
    ensures book.Valid() && book.orders == old(book.orders)
    ensures book.items == old(book.items) + ItemsFor(orderId, records)
  {
    for i := 0 to |records|
      invariant book.Valid() && book.orders == old(book.orders)
      invariant book.items == old(book.items) + ItemsFor(orderId, records[..i])
    {
      var item := book.AddItem(orderId, records[i].productId, records[i].price, records[i].quantity);
      assert ItemsFor(orderId, records[..i + 1]) == ItemsFor(orderId, records[..i]) + [item];
    }
    assert records[..|records|] == records;
  }

  /** order_create on a session and the order tables. */
  method OrderCreate(session: Session, book: OrderBook, requestMethod: HttpMethod, form: Contact,
                     catalog: Catalog, now: int) returns (outcome: Outcome)
    requires book.Valid()
    requires book.LastCreated().Some? ==> book.LastCreated().value <= now
    modifies session, book
    ensures book.Valid()
    ensures outcome.ShowForm? ==>
              session.data == old(session.data)[CartSessionKey := CartPayload(Payload(old(session.data)))]
    ensures outcome.Created? ==> session.data - {CartSessionKey} == old(session.data) - {CartSessionKey}
    ensures outcome.ShowForm? <==> Rejection(requestMethod, form).Some?
    ensures outcome.ShowForm? ==> outcome.missing == Rejection(requestMethod, form).value
    ensures outcome.ShowForm? ==> book.orders == old(book.orders) && book.items == old(book.items)
    ensures outcome.Created? ==>
              && outcome.order == Order(|old(book.orders)| + 1, form, false, now)
              && book.orders == old(book.orders) + [outcome.order]
              && |old(book.items)| <= |book.items|
              && book.items[..|old(book.items)|] == old(book.items)
              && ItemsMirrorCart(book.items[|old(book.items)|..], outcome.order.id, Payload(old(session.data)))
              && ItemsOf(book.items, outcome.order.id) == book.items[|old(book.items)|..]
  {
    var cart := new Cart(session);
    var rejection := Rejection(requestMethod, form);
    if rejection.Some? {
      return ShowForm(rejection.value);
    }
    var order := PlaceOrder(book, cart, form, catalog, now);
    outcome := Created(order);
  }

  /** The accepted branch of order_create: the order is created, then one item
      is written per iterated cart record. */
  method PlaceOrder(book: OrderBook, cart: Cart, form: Contact, catalog: Catalog, now: int) returns (order: Order)
    requires book.Valid()
    requires book.LastCreated().Some? ==> book.LastCreated().value <= now
    modifies book
    ensures book.Valid()
    ensures order == Order(|old(book.orders)| + 1, form, false, now)
    ensures book.orders == old(book.orders) + [order]
    ensures |old(book.items)| <= |book.items|
    ensures book.items[..|old(book.items)|] == old(book.items)
    ensures ItemsMirrorCart(book.items[|old(book.items)|..], order.id, cart.items)
    ensures ItemsOf(book.items, order.id) == book.items[|old(book.items)|..]
  {
    order := book.Create(form, now);
    var records := cart.Iterate(catalog);
    ghost var before := book.items;
    WriteItems(book, order.id, records);
    NewOrderItems(before, order.id, records, cart.items, catalog);
  }

  /** The items written after a new order's creation are that order's items,
      and they mirror the cart. */
  lemma NewOrderItems(before: seq<OrderItem>, orderId: nat, records: seq<CartRecord>, cart: Entries, catalog: Catalog)
    requires ItemsOf(before, orderId) == []
    requires |records| == |cart|
    requires forall i :: 0 <= i < |records| ==> Describes(records[i], cart, catalog)
    requires forall i, j :: 0 <= i < j < |records| ==> records[i].productId != records[j].productId
    requires forall id :: id in cart ==> exists i :: 0 <= i < |records| && records[i].productId == id
    ensures |before| <= |before + ItemsFor(orderId, records)|
    ensures (before + ItemsFor(orderId, records))[..|before|] == before
    ensures ItemsMirrorCart((before + ItemsFor(orderId, records))[|before|..], orderId, cart)
    ensures ItemsOf(before + ItemsFor(orderId, records), orderId) == (before + ItemsFor(orderId, records))[|before|..]
  {
    var added := ItemsFor(orderId, records);
    MirrorCart(orderId, records, cart, catalog);
    assert (before + added)[|before|..] == added;
    assert (before + added)[..|before|] == before;
    ItemsOfAppend(before, added, orderId);
    OnlyOwnItems(added, orderId);
  }

  /** A sequence of items that all belong to one order is that order's items. */
  lemma {:induction false} OnlyOwnItems(items: seq<OrderItem>, orderId: nat)
    requires forall k :: 0 <= k < |items| ==> items[k].orderId == orderId
    ensures ItemsOf(items, orderId) == items
  {
    if items != [] {
      OnlyOwnItems(items[1..], orderId);
    }
  }

  /** The checkout tests: three products added at one unit each, then a valid
      POST; the created order has three items. */
  method CheckoutScenario(a: Product, b: Product, c: Product, contact: Contact) returns (outcome: Outcome, count: nat)
    requires a.id != b.id && a.id != c.id && b.id != c.id
    requires MissingFields(contact) == {}
    ensures outcome.Created? && count == 3
  {
    var catalog: Catalog := map[a.id := a.price, b.id := b.price, c.id := c.price];
    var session := new Session();
    var r1 := CartAdd(session, Post, catalog, a.id, AddForm(Some(1), false));
    var r2 := CartAdd(session, Post, catalog, b.id, AddForm(Some(1), false));
    var r3 := CartAdd(session, Post, catalog, c.id, AddForm(Some(1), false));
    assert Payload(session.data) == AddEntry(AddEntry(AddEntry(map[], a, 1, false), b, 1, false), c, 1, false);
    ThreeProducts(a, b, c);
    var book := new OrderBook();
    outcome := OrderCreate(session, book, Post, contact, catalog, 0);
    count := |ItemsOf(book.items, outcome.order.id)|;
  }
}
