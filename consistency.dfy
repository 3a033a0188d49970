/** Agreements between the layers: the total the storefront shows for a cart is the subtotal of
    the order placed from it, and the amount sent to the payment gateway is the sum of the item
    details sent with it. */
module Consistency {
  import opened Wrappers
  import opened Store
  import CartStore
  import OrdersService
  import PaymentsService

  /** The storefront's copy of a cart shows the server's lines, in order, with each variant's
      current price. */
  predicate Mirrors(client: seq<CartStore.ClientItem>, lines: seq<CartItem>, variants: map<Id, Variant>)
  {
    && |client| == |lines|
    && forall k :: 0 <= k < |lines| ==>
         && client[k].variantId == lines[k].variantId
         && client[k].quantity == lines[k].quantity
         && lines[k].variantId in variants
         && client[k].price == variants[lines[k].variantId].price
  }

  /** Σ price·quantity agrees between the storefront lines and the order items they became. */
  lemma {:induction false} PriceSumIsSubtotal(client: seq<CartStore.ClientItem>, items: seq<OrderItem>)
    requires |client| == |items|
    requires forall k :: 0 <= k < |items| ==> client[k].price == items[k].price && client[k].quantity == items[k].quantity
    ensures CartStore.PriceSum(client) == OrdersService.Subtotal(items)
    decreases |items|
  {
    if items != [] {
      PriceSumIsSubtotal(client[1..], items[1..]);
    }
  }

  /** When prices have not changed since the storefront loaded the cart, the order placed from it
      has as its subtotal and total exactly the total the storefront showed. */
  lemma StorefrontTotalIsOrderTotal(client: seq<CartStore.ClientItem>, variants: map<Id, Variant>, lines: seq<CartItem>,
                                    userId: Id, orderId: Id, address: ShippingAddress, notes: Option<string>)
    requires Mirrors(client, lines, variants)
    requires OrdersService.PlaceOrder(variants, lines, userId, orderId, address, notes).Success?
    ensures var order := OrdersService.PlaceOrder(variants, lines, userId, orderId, address, notes).value.1;
            order.subtotal == CartStore.PriceSum(client) && order.total == CartStore.PriceSum(client)
  {
    var order := OrdersService.PlaceOrder(variants, lines, userId, orderId, address, notes).value.1;
    PriceSumIsSubtotal(client, order.items);
  }

  /** For an order the service placed, the gross amount sent to the gateway equals the sum of the
      item details sent with it. */
  lemma GrossAmountMatchesItems(variants: map<Id, Variant>, lines: seq<CartItem>, userId: Id, orderId: Id,
                                address: ShippingAddress, notes: Option<string>, products: map<Id, Product>)
    requires OrdersService.PlaceOrder(variants, lines, userId, orderId, address, notes).Success?
    ensures var (after, order) := OrdersService.PlaceOrder(variants, lines, userId, orderId, address, notes).value;
            var req := PaymentsService.ChargeParameters(order, after, products);
            req.grossAmount == PaymentsService.ChargeSum(req.items)
  {
  }
}
