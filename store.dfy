/**
 The application state: the active category and the cart, updated in place by
 the category buttons and the cart buttons.
 */
module Store {
  import opened Cart
  import opened Catalog
  import opened Markup

  class Store {
    /** The id of the selected category. */
    var activeCat: string
    /** The cart, keyed by item id. */
    var cart: Items

    /** Every cart entry sits under its own id with a positive quantity. */
    ghost predicate Valid()
      reads this
    {
      WellFormed(cart)
    }

    /** The state before any stored cart is loaded. */
    constructor ()
      ensures activeCat == "all" && cart == map[]
      ensures Valid()
    {
      activeCat := "all";
      cart := map[];
    }

    /** `onAddToCart`: create the entry with quantity 0 if it is missing, then
        add one. */
    method AddToCart(req: AddRequest)
      modifies this
      ensures cart == AddItem(old(cart), req.id, req.name, req.price)
      ensures activeCat == old(activeCat)
      ensures old(Valid()) ==> Valid()
    {
      var id := req.id;
      if id !in cart {
        cart := cart[id := Entry(id, req.name, req.price, 0)];
      }
      cart := cart[id := cart[id].(qty := cart[id].qty + 1)];
    }

    /** `removeFromCart`. */
    method RemoveFromCart(id: string)
      modifies this
      ensures cart == RemoveItem(old(cart), id)
      ensures activeCat == old(activeCat)
      ensures old(Valid()) ==> Valid()
    {
      cart := cart - {id};
    }

    /** `increaseQty`. */
    method IncreaseQty(id: string)
      modifies this
      ensures cart == IncreaseItem(old(cart), id)
      ensures activeCat == old(activeCat)
      ensures old(Valid()) ==> Valid()
    {
      if id !in cart {
        return;
      }
      cart := cart[id := cart[id].(qty := cart[id].qty + 1)];
    }

    /** `decreaseQty`: take one off, then delete the entry if its quantity is no
        longer positive. */
    method DecreaseQty(id: string)
      modifies this
      ensures cart == DecreaseItem(old(cart), id)
      ensures activeCat == old(activeCat)
      ensures old(Valid()) ==> Valid()
    {
      if id !in cart {
        return;
      }
      var it := cart[id];
      it := it.(qty := it.qty - 1);
      cart := cart[id := it];
      if it.qty <= 0 {
        cart := cart - {id};
      }
    }

    /** `setActiveCat`: record the selection and name the list to load. */
    method SetActiveCat(id: string) returns (q: PlantQuery)
      modifies this
      ensures activeCat == id && cart == old(cart)
      ensures q == QueryFor(id)
    {
      activeCat := id;
      q := QueryFor(id);
    }

    /** The total `renderCart` shows: the entries' lines summed one entry at
        a time. */
    method CartTotal() returns (t: int)
      ensures t == Total(cart)
    {
      t := 0;
      var rest := cart;
      while rest != map[]
        invariant t + Total(rest) == Total(cart)
        decreases |rest|
      {
        var k :| k in rest;
        TotalSplit(rest, k);
        t := t + rest[k].price * rest[k].qty;
        rest := rest - {k};
      }
    }
  }
}
