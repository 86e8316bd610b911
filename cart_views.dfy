/** The cart's request handlers: cart_add (POST only) and cart_remove. Each
    decision is a function of the request and the cart contents; the methods
    carry it out on a session. */
module CartViews {
  import opened Options
  import opened CartLedger
  import opened Carts

  datatype HttpMethod = Get | Post

  /** The responses the handlers give. */
  datatype Response = Redirect(location: string) | NotFound | MethodNotAllowed

  /** The cart detail page both handlers redirect to. */
  const CartDetailUrl: string := "/cart/"

  /** The add form's fields after type coercion: `quantity` if it was posted,
      and the `update` flag. */
  datatype AddForm = AddForm(quantity: Option<int>, update: bool)

  /** CartAddProductForm.is_valid(): a quantity of at least one was posted. */
  predicate ValidAddForm(form: AddForm) {
    form.quantity.Some? && form.quantity.value >= 1
  }

  /** A response and the session's cart contents after the request. */
  datatype Handled = Handled(response: Response, entries: Entries)

  /** cart_add: non-POST is refused, an unknown product is not found, a valid
      form adds to the cart, and every POST on a known product redirects to the
      cart page, whether or not the form was valid. */
  function HandleAdd(requestMethod: HttpMethod, catalog: Catalog, productId: int,
                     form: AddForm, entries: Entries): (r: Handled)
    ensures requestMethod == Get ==> r == Handled(MethodNotAllowed, entries)
    ensures requestMethod == Post && productId !in catalog ==> r == Handled(NotFound, entries)
    ensures requestMethod == Post && productId in catalog ==> r.response == Redirect(CartDetailUrl)
    ensures requestMethod == Post && productId in catalog && ValidAddForm(form) ==>
              productId in r.entries &&
              r.entries == AddEntry(entries, Lookup(catalog, productId).value, form.quantity.value, form.update)
    ensures !ValidAddForm(form) ==> r.entries == entries
    ensures r.entries.Keys <= entries.Keys + {productId}
  {
    if requestMethod != Post then Handled(MethodNotAllowed, entries)
    else if productId !in catalog then Handled(NotFound, entries)
    else if !ValidAddForm(form) then Handled(Redirect(CartDetailUrl), entries)
    else Handled(Redirect(CartDetailUrl), AddEntry(entries, Lookup(catalog, productId).value, form.quantity.value, form.update))
  }

  /** cart_remove: an unknown product is not found; otherwise the product's
      entry is removed and the request redirects to the cart page. */
  function HandleRemove(catalog: Catalog, productId: int, entries: Entries): (r: Handled)
    ensures productId !in catalog ==> r == Handled(NotFound, entries)
    ensures productId in catalog ==> r.response == Redirect(CartDetailUrl)
    ensures productId in catalog ==> productId !in r.entries && r.entries == RemoveEntry(entries, productId)
  {
    if productId !in catalog then Handled(NotFound, entries)
    else Handled(Redirect(CartDetailUrl), RemoveEntry(entries, productId))
  }

  /** No add or remove request leaves an entry with fewer than one unit. */
  lemma RequestsKeepPositive(requestMethod: HttpMethod, catalog: Catalog, productId: int,
                             form: AddForm, entries: Entries)
    requires Positive(entries)
    ensures Positive(HandleAdd(requestMethod, catalog, productId, form, entries).entries)
    ensures Positive(HandleRemove(catalog, productId, entries).entries)
  {
  }

  /** A valid add request followed by a remove request for the same product
      leaves a cart that lacked it as it was. */
  lemma AddThenRemoveRequests(catalog: Catalog, productId: int, form: AddForm, entries: Entries)
    requires productId in catalog && productId !in entries
    ensures HandleRemove(catalog, productId, HandleAdd(Post, catalog, productId, form, entries).entries).entries == entries
  {
  }

  /** The cart_add view on a session: the session's cart becomes the one
      HandleAdd decides, and no other session key changes. */
  method CartAdd(session: Session, requestMethod: HttpMethod, catalog: Catalog,
                 productId: int, form: AddForm) returns (response: Response)
    modifies session
    ensures Handled(response, Payload(session.data))
         == HandleAdd(requestMethod, catalog, productId, form, Payload(old(session.data)))
    ensures session.data - {CartSessionKey} == old(session.data) - {CartSessionKey}
  {
    if requestMethod != Post {
      return MethodNotAllowed;
    }
    var cart := new Cart(session);
    if productId !in catalog {
      return NotFound;
    }
    if ValidAddForm(form) {
      cart.Add(Lookup(catalog, productId).value, form.quantity.value, form.update);
    }
    return Redirect(CartDetailUrl);
  }

  /** The cart_remove view on a session. */
  method CartRemove(session: Session, catalog: Catalog, productId: int) returns (response: Response)
    modifies session
    ensures Handled(response, Payload(session.data)) == HandleRemove(catalog, productId, Payload(old(session.data)))
    ensures session.data - {CartSessionKey} == old(session.data) - {CartSessionKey}
  {
    var cart := new Cart(session);
    if productId !in catalog {
      return NotFound;
    }
    cart.Remove(Lookup(catalog, productId).value);
    return Redirect(CartDetailUrl);
  }
}
