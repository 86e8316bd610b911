/** Orders: the contact fields a customer must fill in, the display string,
    the orders and order-items tables, the newest-first listing and the
    total cost of an order. */
module Orders {
  import opened Options
  import Numerals

  datatype ContactField = FirstName | LastName | Email | Address | PostalCode | City

  datatype Contact = Contact(firstName: string, lastName: string, email: string,
                             address: string, postalCode: string, city: string)

  function FieldValue(c: Contact, f: ContactField): string {
    match f
    case FirstName => c.firstName
    case LastName => c.lastName
    case Email => c.email
    case Address => c.address
    case PostalCode => c.postalCode
    case City => c.city
  }

  /** The six contact fields, all required. */
  const ContactFields: set<ContactField> := {FirstName, LastName, Email, Address, PostalCode, City}

  lemma EveryFieldRequired()
    ensures forall f: ContactField :: f in ContactFields
  {
    forall f: ContactField ensures f in ContactFields {
      match f
      case FirstName =>
      case LastName =>
      case Email =>
      case Address =>
      case PostalCode =>
      case City =>
    }
  }

  /** The required fields left blank: full_clean (and the order form) reject
      the contact exactly when this is non-empty. */
  function MissingFields(c: Contact): (r: set<ContactField>)
    ensures forall f :: f in r <==> FieldValue(c, f) == ""
  {
    EveryFieldRequired();
    set f | f in ContactFields && FieldValue(c, f) == ""
  }

  /** An order row: its primary key, contact details, payment flag and
      creation time. */
  datatype Order = Order(id: nat, contact: Contact, paid: bool, created: int)

  /** Order.__str__: "Order " followed by the primary key. */
  function Label(o: Order): string {
    "Order " + Numerals.Show(o.id)
  }

  /** The display string gives back the order's id, so distinct orders
      display differently. */
  lemma LabelNamesOrder(o: Order)
    ensures |Label(o)| > 6 && Label(o)[..6] == "Order "
    ensures Numerals.AllDigits(Label(o)[6..]) && Numerals.Read(Label(o)[6..]) == o.id
  {
    assert Label(o)[6..] == Numerals.Show(o.id);
    Numerals.ReadShow(o.id);
  }

  lemma LabelInjective(a: Order, b: Order)
    requires Label(a) == Label(b)
    ensures a.id == b.id
  {
    LabelNamesOrder(a);
    LabelNamesOrder(b);
  }

  /** An order-items row: the order it belongs to, the product, and the
      price and quantity it was sold at. */
  datatype OrderItem = OrderItem(orderId: nat, productId: int, price: nat, quantity: int)

  /** The items of one order, in insertion order (order.items.all()). */
  function ItemsOf(items: seq<OrderItem>, orderId: nat): (r: seq<OrderItem>)
    ensures |r| <= |items|
    ensures forall i :: 0 <= i < |r| ==> r[i].orderId == orderId && r[i] in items
    ensures forall i :: 0 <= i < |items| && items[i].orderId == orderId ==> items[i] in r
  {
    if items == [] then []
    else
      var rest := ItemsOf(items[1..], orderId);
      assert forall i :: 1 <= i < |items| ==> items[i] == items[1..][i - 1];
      if items[0].orderId == orderId then [items[0]] + rest else rest
  }

  lemma {:induction false} ItemsOfAppend(a: seq<OrderItem>, b: seq<OrderItem>, orderId: nat)
    ensures ItemsOf(a + b, orderId) == ItemsOf(a, orderId) + ItemsOf(b, orderId)
  {
    if a != [] {
      assert (a + b)[1..] == a[1..] + b;
      ItemsOfAppend(a[1..], b, orderId);
    } else {
      assert a + b == b;
    }
  }

  /** The sum of the items' costs, for a given cost of one item. */
  function SumCosts(items: seq<OrderItem>, cost: OrderItem -> int): int {
    if items == [] then 0 else cost(items[0]) + SumCosts(items[1..], cost)
  }

  lemma {:induction false} SumCostsAppend(a: seq<OrderItem>, b: seq<OrderItem>, cost: OrderItem -> int)
    ensures SumCosts(a + b, cost) == SumCosts(a, cost) + SumCosts(b, cost)
  {
    if a != [] {
      assert (a + b)[1..] == a[1..] + b;
      SumCostsAppend(a[1..], b, cost);
    } else {
      assert a + b == b;
    }
  }

  /** Order.get_total_cost: the sum of get_cost over the order's items. The
      cost of one item is a parameter. */
  function TotalCost(items: seq<OrderItem>, orderId: nat, cost: OrderItem -> int): int {
    SumCosts(ItemsOf(items, orderId), cost)
  }

  /** Creating an item adds its cost to its own order's total and leaves
      every other order's total alone. */
  lemma TotalCostAfterItem(items: seq<OrderItem>, item: OrderItem, orderId: nat, cost: OrderItem -> int)
    ensures TotalCost(items + [item], orderId, cost)
         == TotalCost(items, orderId, cost) + (if item.orderId == orderId then cost(item) else 0)
  {
    ItemsOfAppend(items, [item], orderId);
    SumCostsAppend(ItemsOf(items, orderId), ItemsOf([item], orderId), cost);
    assert ItemsOf([item], orderId) == if item.orderId == orderId then [item] else [];
  }

  /** The total-cost test: an order with no items gets two; its total is the
      sum of their costs. */
  lemma TwoItemTotal(items: seq<OrderItem>, first: OrderItem, second: OrderItem, cost: OrderItem -> int)
    requires first.orderId == second.orderId
    requires ItemsOf(items, first.orderId) == []
    ensures TotalCost(items + [first, second], first.orderId, cost) == cost(first) + cost(second)
  {
    TotalCostAfterItem(items, first, first.orderId, cost);
    assert items + [first, second] == (items + [first]) + [second];
    TotalCostAfterItem(items + [first], second, first.orderId, cost);
  }

  /** The orders and order-items tables. Ids are handed out 1, 2, 3, ... in
      creation order, creation times never decrease, and every item belongs
      to an existing order. */
  class OrderBook {
    var orders: seq<Order>
    var items: seq<OrderItem>

    ghost predicate Valid()
      reads this
    {
      && (forall i :: 0 <= i < |orders| ==> orders[i].id == i + 1)
      && (forall i, j :: 0 <= i < j < |orders| ==> orders[i].created <= orders[j].created)
      && (forall k :: 0 <= k < |items| ==> 1 <= items[k].orderId <= |orders|)
    }

    constructor ()
      ensures Valid() && orders == [] && items == []
    {
      orders := [];
      items := [];
    }

    /** The time of the latest order, the least a new creation time may be. */
    function LastCreated(): Option<int>
      reads this
    {
      if orders == [] then None else Some(orders[|orders| - 1].created)
    }

    /** Order creation (OrderFactory, form.save()): the row gets the next id,
        is not paid, and is stamped with the clock's time `now`. Blank fields
        are not refused here; full_clean refuses them. */
    method Create(contact: Contact, now: int) returns (order: Order)
      requires Valid()
      requires LastCreated().Some? ==> LastCreated().value <= now
      modifies this
      ensures Valid()
      ensures order == Order(|old(orders)| + 1, contact, false, now)
      ensures !order.paid && order.contact == contact
      ensures orders == old(orders) + [order] && items == old(items)
      ensures ItemsOf(items, order.id) == []
    {
      order := Order(|orders| + 1, contact, false, now);
      orders := orders + [order];
      NoItemsYet(items, order.id);
    }

    /** No stored item can belong to an order id beyond the last one. */
    static lemma NoItemsYet(items: seq<OrderItem>, orderId: nat)
      requires forall k :: 0 <= k < |items| ==> items[k].orderId < orderId
      ensures ItemsOf(items, orderId) == []
    {
    }

    /** OrderItem creation for an existing order. */
    method AddItem(orderId: nat, productId: int, price: nat, quantity: int) returns (item: OrderItem)
      requires Valid() && 1 <= orderId <= |orders|
      modifies this
      ensures Valid()
      ensures item == OrderItem(orderId, productId, price, quantity)
      ensures items == old(items) + [item] && orders == old(orders)
    {
      item := OrderItem(orderId, productId, price, quantity);
      items := items + [item];
    }

    /** Order.objects.all(): newest first, the reverse of creation order. */
    method NewestFirst() returns (listing: seq<Order>)
      requires Valid()
      ensures |listing| == |orders|
      ensures forall i :: 0 <= i < |listing| ==> listing[i] == orders[|orders| - 1 - i]
      ensures forall i, j :: 0 <= i < j < |listing| ==> listing[i].created >= listing[j].created
    {
      listing := [];
      var n := |orders|;
      while n > 0
        invariant 0 <= n <= |orders|
        invariant |listing| == |orders| - n
        invariant forall i :: 0 <= i < |listing| ==> listing[i] == orders[|orders| - 1 - i]
      {
        n := n - 1;
        listing := listing + [orders[n]];
      }
    }

    /** Order.objects.first(): the most recently created order. */
    method First() returns (first: Option<Order>)
      requires Valid()
      ensures first.None? <==> orders == []
      ensures first.Some? ==> first.value == orders[|orders| - 1]
      ensures first.Some? ==> forall i :: 0 <= i < |orders| ==> orders[i].created <= first.value.created
    {
      var listing := NewestFirst();
      first := if listing == [] then None else Some(listing[0]);
    }
  }

  /** The ordering test: of two orders, the second one is listed first. */
  method OrderingScenario(contact: Contact, t1: int, t2: int) returns (first: Option<Order>)
    requires t1 <= t2
    ensures first.Some? && first.value.id == 2 && first.value.contact.firstName == "second_name"
    ensures Label(first.value) == "Order 2"
  {
    var book := new OrderBook();
    var one := book.Create(contact, t1);
    var two := book.Create(contact.(firstName := "second_name"), t2);
    first := book.First();
    assert Numerals.Show(2) == "2";
  }
}
