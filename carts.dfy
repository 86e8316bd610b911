/** The session-backed cart: a session store and a Cart object whose entry
    map is the one the session holds under the cart key. */
module Carts {
  import opened Options
  import opened CartLedger

  /** The session key under which the cart is stored (the project setting
      CART_SESSION_ID). */
  const CartSessionKey: string := "cart"

  /** A value kept in the session: a cart payload, or anything else the site
      stores there. */
  datatype SessionValue = CartPayload(entries: Entries) | OtherValue(text: string)

  /** A per-browser key-value store and its "modified" flag, which tells the
      framework to write it back at the end of the request. */
  class Session {
    var data: map<string, SessionValue>
    var modified: bool

    constructor ()
      ensures data == map[] && !modified
    {
      data := map[];
      modified := false;
    }
  }

  /** True when the session holds a non-empty cart payload, the case in which
      the constructor keeps what it finds. */
  predicate HoldsCart(data: map<string, SessionValue>) {
    CartSessionKey in data && data[CartSessionKey].CartPayload? && data[CartSessionKey].entries != map[]
  }

  /** The cart contents a session holds; none when it has no cart payload. */
  function Payload(data: map<string, SessionValue>): (entries: Entries)
    ensures CartSessionKey !in data ==> entries == map[]
  {
    if CartSessionKey in data && data[CartSessionKey].CartPayload? then data[CartSessionKey].entries else map[]
  }

  /** One record yielded by iterating the cart: the entry's product id, the
      catalogue product of that id if it still exists, the quantity, the
      recorded unit price and the line total. */
  datatype CartRecord = CartRecord(productId: int, product: Option<Product>, quantity: int, price: nat, totalPrice: int)

  /** The record iteration yields for entry `id`, resolving the product
      against the catalogue. */
  predicate Describes(record: CartRecord, entries: Entries, catalog: Catalog) {
    var id := record.productId;
    && id in entries
    && record.quantity == entries[id].quantity
    && record.price == entries[id].price
    && record.totalPrice == record.price * record.quantity
    && record.product == Lookup(catalog, id)
  }

  class Cart {
    const session: Session
    var items: Entries

    /** The cart's map is the one stored in the session under the cart key. */
    ghost predicate Valid()
      reads this, session
    {
      CartSessionKey in session.data && session.data[CartSessionKey] == CartPayload(items)
    }

    /** Loads the session's cart, or stores a new empty one when the session
        has none (or only an empty one). */
    constructor (session: Session)
      modifies session
      ensures this.session == session && Valid()
      ensures items == Payload(old(session.data))
      ensures session.data == old(session.data)[CartSessionKey := CartPayload(items)]
      ensures session.modified == (old(session.modified) || !HoldsCart(old(session.data)))
    {
      this.session := session;
      var data := session.data;
      if HoldsCart(data) {
        items := data[CartSessionKey].entries;
      } else {
        items := map[];
      }
      new;
      if !HoldsCart(data) {
        session.data := data[CartSessionKey := CartPayload(map[])];
        session.modified := true;
      }
    }

    /** Cart.add(product, quantity=1, update_quantity=False). */
    method Add(product: Product, quantity: int := 1, updateQuantity: bool := false)
      requires Valid()
      modifies this, session
      ensures Valid()
      ensures items == AddEntry(old(items), product, quantity, updateQuantity)
      ensures session.data == old(session.data)[CartSessionKey := CartPayload(items)]
      ensures session.modified
    {
      items := AddEntry(items, product, quantity, updateQuantity);
      Save();
    }

    /** Cart.remove(product): deletes the entry if there is one. */
    method Remove(product: Product)
      requires Valid()
      modifies this, session
      ensures Valid()
      ensures items == RemoveEntry(old(items), product.id)
      ensures session.data == old(session.data)[CartSessionKey := CartPayload(items)]
      ensures session.modified == (old(session.modified) || product.id in old(items))
    {
      if product.id in items {
        items := items - {product.id};
        Save();
      }
    }

    /** Writes the cart map back under the cart key and marks the session. */
    method Save()
      modifies session
      ensures session.data == old(session.data)[CartSessionKey := CartPayload(items)]
      ensures session.modified
    {
      session.data := session.data[CartSessionKey := CartPayload(items)];
      session.modified := true;
    }

    /** Cart.clear(): deletes the cart key from the session itself. */
    method Clear()
      requires Valid()
      modifies session
      ensures session.data == old(session.data) - {CartSessionKey}
      ensures CartSessionKey !in session.data && Payload(session.data) == map[]
      ensures session.modified
    {
      session.data := session.data - {CartSessionKey};
      session.modified := true;
    }

    /** Cart.get_total_price(): the sum of price times quantity. */
    method GetTotalPrice() returns (total: int)
      ensures total == TotalPrice(items)
    {
      total := 0;
      var rest := items;
      while rest != map[]
        invariant total + SumOf(Cost, rest) == SumOf(Cost, items)
        decreases |rest|
      {
        var id :| id in rest;
        SumOfRemove(Cost, rest, id);
        total := total + rest[id].price * rest[id].quantity;
        assert (rest - {id}).Keys == rest.Keys - {id};
        rest := rest - {id};
      }
    }

    /** Cart.__len__(): the number of units in the cart. */
    method Len() returns (count: int)
      ensures count == ItemCount(items)
    {
      count := 0;
      var rest := items;
      while rest != map[]
        invariant count + SumOf(Units, rest) == SumOf(Units, items)
        decreases |rest|
      {
        var id :| id in rest;
        SumOfRemove(Units, rest, id);
        count := count + rest[id].quantity;
        assert (rest - {id}).Keys == rest.Keys - {id};
        rest := rest - {id};
      }
    }

    /** Cart.__iter__(): one record per entry, each entry exactly once. */
    method Iterate(catalog: Catalog) returns (records: seq<CartRecord>)
      ensures |records| == |items|
      ensures forall i :: 0 <= i < |records| ==> Describes(records[i], items, catalog)
      ensures forall i, j :: 0 <= i < j < |records| ==> records[i].productId != records[j].productId
      ensures forall id :: id in items ==> exists i :: 0 <= i < |records| && records[i].productId == id
    {
      records := [];
      var rest := items;
      while rest != map[]
        invariant rest.Keys <= items.Keys
        invariant forall id :: id in rest ==> rest[id] == items[id]
        invariant |records| + |rest| == |items|
        invariant forall i :: 0 <= i < |records| ==> Describes(records[i], items, catalog)
        invariant forall i :: 0 <= i < |records| ==> records[i].productId !in rest
        invariant forall i, j :: 0 <= i < j < |records| ==> records[i].productId != records[j].productId
        invariant forall id :: id in items && id !in rest ==> exists i :: 0 <= i < |records| && records[i].productId == id
        decreases |rest|
      {
        assert (forall k :: k !in rest) ==> rest == map[];
        var id :| id in rest;
        var item := rest[id];
        var product := Lookup(catalog, id);
        ghost var before := records;
        records := records + [CartRecord(id, product, item.quantity, item.price, item.price * item.quantity)];
        assert records[|before|].productId == id;
        assert forall i :: 0 <= i < |before| ==> records[i] == before[i];
        assert (rest - {id}).Keys == rest.Keys - {id};
        rest := rest - {id};
      }
    }
  }

  /** The iteration test: with one unit of a and two of b in the cart, the
      iteration yields exactly two records, each carrying its own product and
      that product's price. */
  method IterationScenario(a: Product, b: Product) returns (records: seq<CartRecord>)
    requires a.id != b.id
    ensures |records| == 2
    ensures forall i :: 0 <= i < 2 ==>
      (records[i].product == Some(a) && records[i].price == a.price) ||
      (records[i].product == Some(b) && records[i].price == b.price)
  {
    var session := new Session();
    var cart := new Cart(session);
    cart.Add(a);
    cart.Add(b, 2);
    records := cart.Iterate(map[a.id := a.price, b.id := b.price]);
  }

  /** A session emptied by clear loads as an empty cart again. */
  method ClearScenario(a: Product) returns (reloaded: Entries)
    ensures reloaded == map[]
  {
    var session := new Session();
    var cart := new Cart(session);
    cart.Add(a);
    cart.Clear();
    var again := new Cart(session);
    reloaded := again.items;
  }
}
