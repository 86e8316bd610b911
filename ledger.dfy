/** The cart's contents as a value: a map from product id to line item, the
    two edits the cart makes to it, and the two sums it reports. */
module CartLedger {
  import opened Options

  /** The two product attributes the cart reads: its primary key and its
      price, in whole currency units. */
  datatype Product = Product(id: int, price: nat)

  /** The product catalogue as the cart sees it: the price of every product
      that exists, by id. */
  type Catalog = map<int, nat>

  /** The catalogue's product with this id (get_object_or_404 / the batch
      query of the iteration). */
  function Lookup(catalog: Catalog, id: int): (r: Option<Product>)
    ensures r.Some? <==> id in catalog
    ensures r.Some? ==> r.value.id == id && r.value.price == catalog[id]
  {
    if id in catalog then Some(Product(id, catalog[id])) else None
  }

  /** One cart entry: the number of units and the unit price recorded when
      the entry was created. */
  datatype LineItem = LineItem(quantity: int, price: nat)

  /** Cart contents keyed by product id (the source keys by str(id), which
      is one-to-one on ids). */
  type Entries = map<int, LineItem>

  /** The quantity the cart holds for a product, 0 when it has no entry. */
  function QuantityOf(entries: Entries, id: int): int {
    if id in entries then entries[id].quantity else 0
  }

  /** Cart.add: an absent product first gets an entry of quantity 0 at the
      product's price; then the quantity is replaced (updateQuantity) or
      increased by the given amount. */
  function AddEntry(entries: Entries, product: Product, quantity: int, updateQuantity: bool): (r: Entries)
    ensures r.Keys == entries.Keys + {product.id}
    ensures r[product.id].quantity
         == if updateQuantity then quantity else QuantityOf(entries, product.id) + quantity
    ensures product.id !in entries ==> r[product.id].price == product.price
    ensures forall id :: id in entries && id != product.id ==> r[id] == entries[id]
  {
    var item := if product.id in entries then entries[product.id] else LineItem(0, product.price);
    var quantity' := if updateQuantity then quantity else item.quantity + quantity;
    entries[product.id := item.(quantity := quantity')]
  }

  /** Cart.remove: the product's entry is gone, every other entry is kept. */
  function RemoveEntry(entries: Entries, id: int): (r: Entries)
    ensures r.Keys == entries.Keys - {id}
    ensures forall k :: k in r ==> r[k] == entries[k]
  {
    entries - {id}
  }

  /** Every entry holds at least one unit. */
  predicate Positive(entries: Entries) {
    forall id :: id in entries ==> entries[id].quantity >= 1
  }

  /** What is summed over the entries: price times quantity, or quantity. */
  datatype Measure = Cost | Units

  function Weigh(m: Measure, item: LineItem): int {
    match m
    case Cost => item.price * item.quantity
    case Units => item.quantity
  }

  /** Some product id of a non-empty cart. */
  ghost function Pick(entries: Entries): (id: int)
    requires entries != map[]
    ensures id in entries
  {
    assert (forall k :: k !in entries) ==> entries == map[];
    var id :| id in entries; id
  }

  /** The sum of the measure over all entries, in no particular order. */
  ghost function SumOf(m: Measure, entries: Entries): int
    decreases |entries|
  {
    if entries == map[] then 0
    else
      var id := Pick(entries);
      assert |entries - {id}| < |entries| by {
        assert (entries - {id}).Keys == entries.Keys - {id};
      }
      Weigh(m, entries[id]) + SumOf(m, entries - {id})
  }

  /** Cart.get_total_price: the sum of price times quantity. */
  ghost function TotalPrice(entries: Entries): int {
    SumOf(Cost, entries)
  }

  /** Cart.__len__: the number of units, not of distinct products. */
  ghost function ItemCount(entries: Entries): int {
    SumOf(Units, entries)
  }

  /** The sum does not depend on which entry is taken out first. */
  lemma {:induction false} SumOfRemove(m: Measure, entries: Entries, id: int)
    requires id in entries
    ensures SumOf(m, entries) == Weigh(m, entries[id]) + SumOf(m, entries - {id})
    decreases |entries|
  {
    var first := Pick(entries);
    if first != id {
      assert (entries - {first}).Keys == entries.Keys - {first};
      assert (entries - {id}).Keys == entries.Keys - {id};
      SumOfRemove(m, entries - {first}, id);
      SumOfRemove(m, entries - {id}, first);
      assert entries - {first} - {id} == entries - {id} - {first};
    }
  }

  /** Writing one entry changes the sum by that entry alone. */
  lemma SumOfUpdate(m: Measure, entries: Entries, id: int, item: LineItem)
    ensures SumOf(m, entries[id := item])
         == SumOf(m, entries) - (if id in entries then Weigh(m, entries[id]) else 0) + Weigh(m, item)
  {
    SumOfRemove(m, entries[id := item], id);
    if id in entries {
      SumOfRemove(m, entries, id);
      assert entries[id := item] - {id} == entries - {id};
    } else {
      assert entries[id := item] - {id} == entries;
    }
  }

  /** A fresh cart holds nothing and costs nothing. */
  lemma EmptyCart()
    ensures TotalPrice(map[]) == 0 && ItemCount(map[]) == 0
  {
  }

  /** Adding a product the cart lacks adds one entry, its units and its cost,
      whether or not updateQuantity is set. */
  lemma AddAbsent(m: Measure, entries: Entries, product: Product, quantity: int, updateQuantity: bool)
    requires product.id !in entries
    ensures |AddEntry(entries, product, quantity, updateQuantity)| == |entries| + 1
    ensures SumOf(m, AddEntry(entries, product, quantity, updateQuantity))
         == SumOf(m, entries) + Weigh(m, LineItem(quantity, product.price))
  {
    var r := AddEntry(entries, product, quantity, updateQuantity);
    assert r == entries[product.id := LineItem(quantity, product.price)];
    SumOfUpdate(m, entries, product.id, LineItem(quantity, product.price));
  }

  /** Without updateQuantity the unit count grows by exactly the quantity
      added; with it, the product's old units are replaced by the new ones. */
  lemma AddCounts(entries: Entries, product: Product, quantity: int, updateQuantity: bool)
    ensures ItemCount(AddEntry(entries, product, quantity, updateQuantity))
         == if updateQuantity then ItemCount(entries) - QuantityOf(entries, product.id) + quantity
            else ItemCount(entries) + quantity
  {
    var r := AddEntry(entries, product, quantity, updateQuantity);
    SumOfUpdate(Units, entries, product.id, r[product.id]);
    assert r == entries[product.id := r[product.id]];
  }

  /** Removing a product takes away exactly its units and its cost. */
  lemma RemoveSums(m: Measure, entries: Entries, id: int)
    ensures SumOf(m, RemoveEntry(entries, id))
         == SumOf(m, entries) - (if id in entries then Weigh(m, entries[id]) else 0)
  {
    if id in entries {
      SumOfRemove(m, entries, id);
    } else {
      assert RemoveEntry(entries, id) == entries;
    }
  }

  /** Two additive adds accumulate: add(p, a) then add(p, b) is add(p, a + b). */
  lemma AddAccumulates(entries: Entries, product: Product, a: int, b: int)
    ensures AddEntry(AddEntry(entries, product, a, false), product, b, false)
         == AddEntry(entries, product, a + b, false)
  {
  }

  /** An update-add sets the quantity whatever came before. */
  lemma UpdateOverrides(entries: Entries, product: Product, a: int, updateFirst: bool, b: int)
    ensures AddEntry(AddEntry(entries, product, a, updateFirst), product, b, true)
         == AddEntry(entries, product, b, true)
  {
  }

  /** add followed by remove of a product the cart lacked restores the cart. */
  lemma AddThenRemove(entries: Entries, product: Product, quantity: int, updateQuantity: bool)
    requires product.id !in entries
    ensures RemoveEntry(AddEntry(entries, product, quantity, updateQuantity), product.id) == entries
  {
  }

  /** Removing an absent product changes nothing. */
  lemma RemoveAbsent(entries: Entries, id: int)
    requires id !in entries
    ensures RemoveEntry(entries, id) == entries
  {
  }

  /** Adds of at least one unit keep every entry positive. */
  lemma AddKeepsPositive(entries: Entries, product: Product, quantity: int, updateQuantity: bool)
    requires Positive(entries) && quantity >= 1
    ensures Positive(AddEntry(entries, product, quantity, updateQuantity))
  {
  }

  /** With positive entries, the unit count is at least the number of
      distinct products, and the total price is never negative. */
  lemma {:induction false} CountBounds(entries: Entries)
    requires Positive(entries)
    ensures |entries| <= ItemCount(entries)
    ensures TotalPrice(entries) >= 0
    decreases |entries|
  {
    if entries != map[] {
      var id := Pick(entries);
      SumOfRemove(Units, entries, id);
      SumOfRemove(Cost, entries, id);
      assert (entries - {id}).Keys == entries.Keys - {id};
      CountBounds(entries - {id});
    } else {
      assert entries == map[];
    }
  }

  /** The scenario of the cart tests: one unit of a, two of b. */
  lemma TwoProducts(a: Product, b: Product)
    requires a.id != b.id
    ensures var cart := AddEntry(AddEntry(map[], a, 1, false), b, 2, false);
            |cart| == 2 && ItemCount(cart) == 3 && TotalPrice(cart) == a.price + 2 * b.price
  {
    var one := AddEntry(map[], a, 1, false);
    AddAbsent(Units, map[], a, 1, false);
    AddAbsent(Cost, map[], a, 1, false);
    AddAbsent(Units, one, b, 2, false);
    AddAbsent(Cost, one, b, 2, false);
  }

  /** Three adds of distinct products at one unit give three entries. */
  lemma ThreeProducts(a: Product, b: Product, c: Product)
    requires a.id != b.id && a.id != c.id && b.id != c.id
    ensures var cart := AddEntry(AddEntry(AddEntry(map[], a, 1, false), b, 1, false), c, 1, false);
            |cart| == 3 && cart.Keys == {a.id, b.id, c.id}
  {
  }
}
