/** The payment service: building the gateway's charge request from an order, and reconciling
    the gateway's asynchronous notifications onto the order's payment and fulfilment status.

    The gateway itself is a function parameter: given the charge request it either returns a
    session (token and redirect URL) or rejects the request. */
module PaymentsService {
  import opened Wrappers
  import opened Store
  import OrdersService

  datatype PaymentError = OrderNotFound | GatewayRejected

  /** The notification fields the service reads. A payload key that is missing is `None`. */
  datatype Notification = Notification(
    orderId: Id,
    transactionStatus: Option<string>,
    fraudStatus: Option<string>,
    transactionId: Option<string>)

  /** The new payment status and, for a settlement only, the new order status. */
  datatype StatusChange = StatusChange(paymentStatus: PaymentStatus, orderStatus: Option<OrderStatus>)

  /** The transaction statuses the mapping recognises; anything else counts as still pending. */
  predicate KnownStatus(transactionStatus: Option<string>)
  {
    transactionStatus.Some? &&
    transactionStatus.value in {"capture", "settlement", "cancel", "deny", "expire"}
  }

  /** handleWebhook's mapping from (transaction_status, fraud_status). It is total; each payment
      status is characterised by exactly the inputs that produce it. */
  function MapStatus(transactionStatus: Option<string>, fraudStatus: Option<string>): (r: StatusChange)
    ensures r.paymentStatus == PaymentPaid <==>
              (transactionStatus == Some("capture") && fraudStatus == Some("accept"))
              || transactionStatus == Some("settlement")
    ensures r.paymentStatus == PaymentFailed <==>
              (transactionStatus == Some("capture") && fraudStatus != Some("accept"))
              || transactionStatus == Some("cancel") || transactionStatus == Some("deny")
    ensures r.paymentStatus == PaymentExpired <==> transactionStatus == Some("expire")
    ensures r.paymentStatus == PaymentPending <==> !KnownStatus(transactionStatus)
    ensures r.orderStatus == (if transactionStatus == Some("settlement") then Some(PAID) else None)
  {
    if transactionStatus == Some("capture") then
      StatusChange(if fraudStatus == Some("accept") then PaymentPaid else PaymentFailed, None)
    else if transactionStatus == Some("settlement") then
      StatusChange(PaymentPaid, Some(PAID))
    else if transactionStatus.Some? && transactionStatus.value in ["cancel", "deny", "expire"] then
      StatusChange(if transactionStatus == Some("expire") then PaymentExpired else PaymentFailed, None)
    else
      StatusChange(PaymentPending, None)
  }

  /** The order row after a notification: updatePayment with the mapped status and the
      transaction id, then updateStatus when the mapping gives an order status. */
  function ApplyNotification(o: Order, n: Notification): (r: Order)
    ensures r.paymentStatus == MapStatus(n.transactionStatus, n.fraudStatus).paymentStatus
    ensures r.paymentId == if n.transactionId.Some? then n.transactionId else o.paymentId
    ensures r.status == if n.transactionStatus == Some("settlement") then PAID else o.status
    ensures r.(paymentStatus := o.paymentStatus, paymentId := o.paymentId, status := o.status) == o
  {
    var change := MapStatus(n.transactionStatus, n.fraudStatus);
    var paid := OrdersService.WithPayment(o, OrdersService.PaymentUpdate(change.paymentStatus, n.transactionId, None));
    if change.orderStatus.Some? then paid.(status := change.orderStatus.value) else paid
  }

  /** Replaying a notification leaves the order as a single delivery did. */
  lemma ApplyNotificationIdempotent(o: Order, n: Notification)
    ensures ApplyNotification(ApplyNotification(o, n), n) == ApplyNotification(o, n)
  {
  }

  /** The order after a stream of notifications, in delivery order. */
  function ApplyAll(o: Order, ns: seq<Notification>): Order
    decreases |ns|
  {
    if ns == [] then o else ApplyAll(ApplyNotification(o, ns[0]), ns[1..])
  }

  /** Every write is an overwrite, so after a non-empty stream the payment status is the one the
      last notification maps to: a terminal status is not protected from a later pending one. */
  lemma {:induction false} LastNotificationWins(o: Order, ns: seq<Notification>)
    requires ns != []
    ensures ApplyAll(o, ns).paymentStatus
         == MapStatus(ns[|ns| - 1].transactionStatus, ns[|ns| - 1].fraudStatus).paymentStatus
    ensures ApplyAll(o, ns).items == o.items && ApplyAll(o, ns).total == o.total
    decreases |ns|
  {
    if |ns| > 1 {
      LastNotificationWins(ApplyNotification(o, ns[0]), ns[1..]);
      assert ns[1..][|ns[1..]| - 1] == ns[|ns| - 1];
    }
  }

  /** A "pending" notification delivered after a settlement moves a paid order's payment status
      back to pending (its order status stays PAID). */
  lemma PendingAfterSettlementRegresses(o: Order, id: string)
    ensures var settled := Notification(o.id, Some("settlement"), None, Some(id));
            var pending := Notification(o.id, Some("pending"), None, Some(id));
            && ApplyNotification(o, settled).paymentStatus == PaymentPaid
            && ApplyAll(o, [settled, pending]).paymentStatus == PaymentPending
            && ApplyAll(o, [settled, pending]).status == PAID
  {
    var settled := Notification(o.id, Some("settlement"), None, Some(id));
    var pending := Notification(o.id, Some("pending"), None, Some(id));
    assert [settled, pending][1..] == [pending];
    assert [pending][1..] == [];
    var once := ApplyNotification(o, settled);
    assert ApplyAll(o, [settled, pending]) == ApplyAll(once, [pending]);
    assert ApplyAll(once, [pending]) == ApplyNotification(once, pending);
    assert !KnownStatus(Some("pending"));
  }

  /** handleWebhook. The payment update of an unknown order fails and nothing is written;
      otherwise the order becomes ApplyNotification of itself. */
  method HandleWebhook(db: Database, n: Notification) returns (r: Result<bool, PaymentError>)
    modifies db`orders
    ensures n.orderId !in old(db.orders) ==> r == Failure(OrderNotFound) && db.orders == old(db.orders)
    ensures n.orderId in old(db.orders) ==>
              && db.orders == old(db.orders)[n.orderId := ApplyNotification(old(db.orders)[n.orderId], n)]
              && r == Success(true)
  {
    var change := MapStatus(n.transactionStatus, n.fraudStatus);
    var updated := OrdersService.UpdatePayment(db, n.orderId,
                     OrdersService.PaymentUpdate(change.paymentStatus, n.transactionId, None));
    if updated.Failure? {
      return Failure(OrderNotFound);
    }
    if change.orderStatus.Some? {
      var _ := OrdersService.UpdateStatus(db, n.orderId, change.orderStatus.value);
    }
    r := Success(true);
  }

  datatype ChargeShipping = ChargeShipping(firstName: string, phone: string, address: string, city: string, postalCode: string)

  datatype ChargeItem = ChargeItem(id: Id, price: nat, quantity: int, name: string)

  /** The gateway's charge parameters: transaction, customer and item details. */
  datatype ChargeRequest = ChargeRequest(
    orderId: Id,
    grossAmount: int,
    firstName: string,
    phone: string,
    shipping: ChargeShipping,
    items: seq<ChargeItem>)

  datatype SnapSession = SnapSession(token: string, redirectUrl: string)

  /** An item's display name: its variant's product name, or the variant id when either row is missing. */
  function ItemName(variants: map<Id, Variant>, products: map<Id, Product>, variantId: Id): string
  {
    if variantId in variants && variants[variantId].productId in products
    then products[variants[variantId].productId].name
    else variantId
  }

  /** Σ price·quantity over the item details. */
  function ChargeSum(items: seq<ChargeItem>): int
  {
    if items == [] then 0 else items[0].price * items[0].quantity + ChargeSum(items[1..])
  }

  /** createSnapToken's parameters: the gross amount is the order total, the customer and the
      shipping address come from the order's address, and there is one item detail per order
      item, in order, with that item's variant id, price and quantity. */
  function ChargeParameters(o: Order, variants: map<Id, Variant>, products: map<Id, Product>): (req: ChargeRequest)
    ensures req.orderId == o.id && req.grossAmount == o.total
    ensures req.firstName == o.shippingAddress.fullName && req.phone == o.shippingAddress.phone
    ensures req.shipping == ChargeShipping(o.shippingAddress.fullName, o.shippingAddress.phone,
                                           o.shippingAddress.fullAddress, o.shippingAddress.city,
                                           o.shippingAddress.postalCode)
    ensures |req.items| == |o.items|
    ensures forall k :: 0 <= k < |o.items| ==>
              && req.items[k].id == o.items[k].variantId
              && req.items[k].price == o.items[k].price
              && req.items[k].quantity == o.items[k].quantity
    ensures req.items == ChargeItems(o.items, variants, products)
    ensures ChargeSum(req.items) == OrdersService.Subtotal(o.items)
  {
    var a := o.shippingAddress;
    var items := ChargeItems(o.items, variants, products);
    ChargeItemsSum(o.items, variants, products);
    ChargeRequest(o.id, o.total, a.fullName, a.phone,
                  ChargeShipping(a.fullName, a.phone, a.fullAddress, a.city, a.postalCode),
                  items)
  }

  function ChargeItems(items: seq<OrderItem>, variants: map<Id, Variant>, products: map<Id, Product>): (r: seq<ChargeItem>)
    ensures |r| == |items|
    ensures forall k :: 0 <= k < |items| ==>
              r[k] == ChargeItem(items[k].variantId, items[k].price, items[k].quantity,
                                 ItemName(variants, products, items[k].variantId))
  {
    seq(|items|, k requires 0 <= k < |items| =>
      ChargeItem(items[k].variantId, items[k].price, items[k].quantity, ItemName(variants, products, items[k].variantId)))
  }

  lemma {:induction false} ChargeItemsSum(items: seq<OrderItem>, variants: map<Id, Variant>, products: map<Id, Product>)
    ensures ChargeSum(ChargeItems(items, variants, products)) == OrdersService.Subtotal(items)
    decreases |items|
  {
    if items != [] {
      ChargeItemsSum(items[1..], variants, products);
      assert ChargeItems(items, variants, products)[1..] == ChargeItems(items[1..], variants, products);
    }
  }

  /** createSnapToken: an unknown order fails; a rejected charge writes nothing; otherwise the
      order gets payment status PENDING and the session's token, and the session is returned. */
  method CreateSnapToken(db: Database, orderId: Id, gateway: ChargeRequest -> Option<SnapSession>)
    returns (r: Result<SnapSession, PaymentError>)
    modifies db`orders
    ensures orderId !in old(db.orders) ==> r == Failure(OrderNotFound) && db.orders == old(db.orders)
    ensures orderId in old(db.orders) ==>
              var o := old(db.orders)[orderId];
              match gateway(ChargeParameters(o, db.variants, db.products))
              case None => r == Failure(GatewayRejected) && db.orders == old(db.orders)
              case Some(session) =>
                && r == Success(session)
                && db.orders == old(db.orders)[orderId := o.(paymentStatus := PaymentPending, snapToken := Some(session.token))]
  {
    if orderId !in db.orders {
      return Failure(OrderNotFound);
    }
    var parameter := ChargeParameters(db.orders[orderId], db.variants, db.products);
    var result := gateway(parameter);
    if result.None? {
      return Failure(GatewayRejected);
    }
    var _ := OrdersService.UpdatePayment(db, orderId,
               OrdersService.PaymentUpdate(PaymentPending, None, Some(result.value.token)));
    r := Success(result.value);
  }
}
