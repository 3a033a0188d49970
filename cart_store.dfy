/** The storefront's cart store: the cart last received from the server (or none), a loading
    flag, and the two derived values shown in the header and the cart page, the item count and the
    total. Each server call is represented by its response: `Some(cart)` when the request
    resolved with that cart, `None` when it failed (the action then rejects and the state it had
    not yet written stays as it was). */
module CartStore {
  import opened Wrappers

  /** A cart line as the server sends it, with the variant's unit price already read as a number. */
  datatype ClientItem = ClientItem(id: string, variantId: string, quantity: int, price: nat)

  datatype ClientCart = ClientCart(id: string, userId: string, items: seq<ClientItem>)

  /** Σ quantity, the reference definition of the item count. */
  function QuantitySum(items: seq<ClientItem>): int
  {
    if items == [] then 0 else items[0].quantity + QuantitySum(items[1..])
  }

  /** Σ price·quantity, the reference definition of the total. */
  function PriceSum(items: seq<ClientItem>): int
  {
    if items == [] then 0 else items[0].price * items[0].quantity + PriceSum(items[1..])
  }

  /** `items.reduce((sum, item) => sum + item.quantity, acc)`: a left fold. */
  function CountFold(acc: int, items: seq<ClientItem>): int
    decreases |items|
  {
    if items == [] then acc else CountFold(acc + items[0].quantity, items[1..])
  }

  /** `items.reduce((sum, item) => sum + price * item.quantity, acc)`: a left fold. */
  function TotalFold(acc: int, items: seq<ClientItem>): int
    decreases |items|
  {
    if items == [] then acc else TotalFold(acc + items[0].price * items[0].quantity, items[1..])
  }

  /** The left fold adds the line quantities to its starting value. */
  lemma {:induction false} CountFoldIsSum(acc: int, items: seq<ClientItem>)
    ensures CountFold(acc, items) == acc + QuantitySum(items)
    decreases |items|
  {
    if items != [] {
      CountFoldIsSum(acc + items[0].quantity, items[1..]);
    }
  }

  /** The left fold adds the line amounts to its starting value. */
  lemma {:induction false} TotalFoldIsSum(acc: int, items: seq<ClientItem>)
    ensures TotalFold(acc, items) == acc + PriceSum(items)
    decreases |items|
  {
    if items != [] {
      TotalFoldIsSum(acc + items[0].price * items[0].quantity, items[1..]);
    }
  }

  /** With positive quantities, the count is at least the number of lines and the total is not negative. */
  lemma {:induction false} LinesAtMostItems(items: seq<ClientItem>)
    requires forall k :: 0 <= k < |items| ==> items[k].quantity > 0
    ensures |items| <= QuantitySum(items)
    ensures 0 <= PriceSum(items)
  {
    if items != [] {
      LinesAtMostItems(items[1..]);
    }
  }

  class Store {
    var cart: Option<ClientCart>
    var loading: bool

    constructor ()
      ensures cart.None? && !loading
    {
      cart, loading := None, false;
    }

    /** The item count: the sum of the line quantities, 0 without a cart. */
    function ItemCount(): (n: int)
      reads this
      ensures n == if cart.Some? then QuantitySum(cart.value.items) else 0
    {
      if cart.None? then 0
      else
        CountFoldIsSum(0, cart.value.items);
        CountFold(0, cart.value.items)
    }

    /** The total: Σ price·quantity over the lines, 0 without a cart. */
    function Total(): (t: int)
      reads this
      ensures t == if cart.Some? then PriceSum(cart.value.items) else 0
    {
      if cart.None? then 0
      else
        TotalFoldIsSum(0, cart.value.items);
        TotalFold(0, cart.value.items)
    }

    /** fetchCart: nothing happens for a signed-out user; otherwise the fetched cart replaces the
        current one, and `loading` is false afterwards whether the request resolved or failed. */
    method FetchCart(isAuthenticated: bool, response: Option<ClientCart>) returns (resolved: bool)
      modifies this
      ensures !isAuthenticated ==> cart == old(cart) && loading == old(loading) && resolved
      ensures isAuthenticated ==>
                && !loading
                && cart == (if response.Some? then response else old(cart))
                && resolved == response.Some?
    {
      if !isAuthenticated {
        return true;
      }
      loading := true;
      if response.Some? {
        cart := response;
      }
      loading := false;
      resolved := response.Some?;
    }

    /** addItem: a signed-out user's cart is left as it is and no request is sent; otherwise the
        cart becomes the server's answer. The quantity defaults to 1 at the call site. */
    method AddItem(isAuthenticated: bool, variantId: string, quantity: int, response: Option<ClientCart>)
      returns (resolved: bool)
      modifies this
      ensures loading == old(loading)
      ensures !isAuthenticated ==> cart == old(cart) && resolved
      ensures isAuthenticated ==>
                cart == (if response.Some? then response else old(cart)) && resolved == response.Some?
    {
      if !isAuthenticated {
        return true;
      }
      if response.Some? {
        cart := response;
      }
      resolved := response.Some?;
    }

    /** updateItem: the cart becomes the server's answer. */
    method UpdateItem(itemId: string, quantity: int, response: Option<ClientCart>) returns (resolved: bool)
      modifies this
      ensures loading == old(loading)
      ensures cart == (if response.Some? then response else old(cart)) && resolved == response.Some?
    {
      if response.Some? {
        cart := response;
      }
      resolved := response.Some?;
    }

    /** removeItem: the cart becomes the server's answer. */
    method RemoveItem(itemId: string, response: Option<ClientCart>) returns (resolved: bool)
      modifies this
      ensures loading == old(loading)
      ensures cart == (if response.Some? then response else old(cart)) && resolved == response.Some?
    {
      if response.Some? {
        cart := response;
      }
      resolved := response.Some?;
    }

    /** clearCart: the cart is dropped, so the count and the total are both 0. */
    method ClearCart()
      modifies this
      ensures cart.None? && loading == old(loading)
      ensures ItemCount() == 0 && Total() == 0
    {
      cart := None;
    }
  }
}
