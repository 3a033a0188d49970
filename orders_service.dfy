/** The order service: placing an order from the user's cart as one all-or-nothing transaction,
    and the two row overwrites used by the admin and by payment reconciliation.

    The transaction is modelled sequentially: the cart lines are processed in cart order, each one
    re-reading its variant from the transaction's own view, so a later line sees the decrements of
    earlier ones. It commits to the database only when every line succeeds. */
module OrdersService {
  import opened Wrappers
  import opened Store
  import CartService

  datatype OrderError =
    | EmptyCart
    | VariantNotFound(variantId: Id)
    | InsufficientStock(sku: string)
    | OrderNotFound

  /** Shipping is a fixed policy value. */
  const SHIPPING_COST: int := 0

  /** The transaction's state after some lines: its view of the variants table, the order items
      built so far and the running subtotal. */
  datatype Reservation = Reservation(variants: map<Id, Variant>, items: seq<OrderItem>, subtotal: int)

  /** Σ price·quantity over order items: the reference definition of an order's subtotal. */
  function Subtotal(items: seq<OrderItem>): int
  {
    if items == [] then 0 else items[0].price * items[0].quantity + Subtotal(items[1..])
  }

  lemma {:induction false} SubtotalAppend(items: seq<OrderItem>, item: OrderItem)
    ensures Subtotal(items + [item]) == Subtotal(items) + item.price * item.quantity
    decreases |items|
  {
    if items != [] {
      assert (items + [item])[1..] == items[1..] + [item];
      SubtotalAppend(items[1..], item);
    }
  }

  /** The line is acceptable against a view of the variants: the variant exists and has enough stock. */
  predicate LineOk(variants: map<Id, Variant>, line: CartItem)
  {
    line.variantId in variants && variants[line.variantId].stock >= line.quantity
  }

  /** The error a rejected line raises. */
  function LineError(variants: map<Id, Variant>, line: CartItem): OrderError
  {
    if line.variantId !in variants then VariantNotFound(line.variantId)
    else InsufficientStock(variants[line.variantId].sku)
  }

  /** The work the transaction does for one line: check it, decrement the stock, snapshot the
      price into an order item and add price·quantity to the subtotal. */
  function ReserveLine(r: Reservation, line: CartItem): Result<Reservation, OrderError>
  {
    if !LineOk(r.variants, line) then Failure(LineError(r.variants, line))
    else
      var v := r.variants[line.variantId];
      Success(Reservation(
        r.variants[line.variantId := v.(stock := v.stock - line.quantity)],
        r.items + [OrderItem(line.variantId, line.quantity, v.price)],
        r.subtotal + v.price * line.quantity))
  }

  /** The transaction's effect on `lines`, processed in order; the first failing line aborts it. */
  function Reserve(variants: map<Id, Variant>, lines: seq<CartItem>): Result<Reservation, OrderError>
    decreases |lines|
  {
    if lines == [] then Success(Reservation(variants, [], 0))
    else match Reserve(variants, lines[..|lines| - 1])
      case Failure(e) => Failure(e)
      case Success(r) => ReserveLine(r, lines[|lines| - 1])
  }

  /** Once a prefix of the lines has failed, the whole placement fails with that error. */
  lemma {:induction false} ReserveFailurePersists(variants: map<Id, Variant>, lines: seq<CartItem>, n: nat)
    requires n <= |lines|
    requires Reserve(variants, lines[..n]).Failure?
    ensures Reserve(variants, lines) == Reserve(variants, lines[..n])
    decreases |lines| - n
  {
    if n < |lines| {
      assert lines[..n + 1][..n] == lines[..n];
      ReserveFailurePersists(variants, lines, n + 1);
    } else {
      assert lines[..n] == lines;
    }
  }

  /** A successful reservation keeps the table's keys, and every variant loses exactly the quantity
      the lines ask of it, nothing else about it changing. */
  lemma {:induction false} ReserveStock(variants: map<Id, Variant>, lines: seq<CartItem>)
    requires Reserve(variants, lines).Success?
    ensures var r := Reserve(variants, lines).value;
      && r.variants.Keys == variants.Keys
      && forall v :: v in variants ==>
           r.variants[v] == variants[v].(stock := variants[v].stock - CartService.QuantityOf(lines, v))
    decreases |lines|
  {
    if lines != [] {
      var n := |lines| - 1;
      var init := lines[..n];
      var line := lines[n];
      assert lines == init + [line];
      ReserveStock(variants, init);
      var p := Reserve(variants, init).value;
      var r := Reserve(variants, lines).value;
      assert Reserve(variants, lines) == ReserveLine(p, line);
      forall v | v in variants
        ensures r.variants[v] == variants[v].(stock := variants[v].stock - CartService.QuantityOf(lines, v))
      {
        CartService.QuantityOfAppend(init, line, v);
      }
    }
  }

  /** A successful reservation builds one order item per line, in line order, with the variant's
      price at the time, and its subtotal is Σ price·quantity over them. */
  lemma {:induction false} ReserveItems(variants: map<Id, Variant>, lines: seq<CartItem>)
    requires Reserve(variants, lines).Success?
    ensures var r := Reserve(variants, lines).value;
      && |r.items| == |lines|
      && (forall k :: 0 <= k < |lines| ==>
            && lines[k].variantId in variants
            && r.items[k] == OrderItem(lines[k].variantId, lines[k].quantity, variants[lines[k].variantId].price))
      && r.subtotal == Subtotal(r.items)
    decreases |lines|
  {
    if lines != [] {
      var n := |lines| - 1;
      var init := lines[..n];
      var line := lines[n];
      assert lines == init + [line];
      ReserveItems(variants, init);
      ReserveStock(variants, init);
      var p := Reserve(variants, init).value;
      var r := Reserve(variants, lines).value;
      assert Reserve(variants, lines) == ReserveLine(p, line);
      var item := OrderItem(line.variantId, line.quantity, variants[line.variantId].price);
      assert r.items == p.items + [item];
      SubtotalAppend(p.items, item);
      forall k | 0 <= k < |lines|
        ensures r.items[k] == OrderItem(lines[k].variantId, lines[k].quantity, variants[lines[k].variantId].price)
      {
        if k < n {
          assert lines[k] == init[k];
        }
      }
    }
  }

  /** What a successful reservation did: the table keeps its keys, every variant loses exactly the
      quantity the lines ask of it and nothing else about it changes, there is one order item per
      line in line order with the variant's price at the time, and the subtotal is Σ price·quantity. */
  lemma ReserveFacts(variants: map<Id, Variant>, lines: seq<CartItem>)
    requires Reserve(variants, lines).Success?
    ensures var r := Reserve(variants, lines).value;
      && r.variants.Keys == variants.Keys
      && (forall v :: v in variants ==>
            r.variants[v] == variants[v].(stock := variants[v].stock - CartService.QuantityOf(lines, v)))
      && |r.items| == |lines|
      && (forall k :: 0 <= k < |lines| ==>
            && lines[k].variantId in variants
            && r.items[k] == OrderItem(lines[k].variantId, lines[k].quantity, variants[lines[k].variantId].price))
      && r.subtotal == Subtotal(r.items)
  {
    ReserveStock(variants, lines);
    ReserveItems(variants, lines);
  }

  /** In the sequential model no decrement can drive a stock below zero: each one is guarded by
      the stock the transaction currently sees. */
  lemma {:induction false} ReserveKeepsStockNonNegative(variants: map<Id, Variant>, lines: seq<CartItem>)
    requires forall v :: v in variants ==> variants[v].stock >= 0
    requires Reserve(variants, lines).Success?
    ensures var r := Reserve(variants, lines).value;
      forall v :: v in r.variants ==> r.variants[v].stock >= 0
    decreases |lines|
  {
    if lines != [] {
      ReserveKeepsStockNonNegative(variants, lines[..|lines| - 1]);
    }
  }

  lemma {:induction false} QuantityOfAbsent(items: seq<CartItem>, variantId: Id)
    requires forall k :: 0 <= k < |items| ==> items[k].variantId != variantId
    ensures CartService.QuantityOf(items, variantId) == 0
    decreases |items|
  {
    if items != [] {
      QuantityOfAbsent(items[1..], variantId);
    }
  }

  /** A variant no line mentions is, after a successful reservation, exactly as it was. */
  lemma ReserveUntouched(variants: map<Id, Variant>, lines: seq<CartItem>, variantId: Id)
    requires Reserve(variants, lines).Success?
    requires forall k :: 0 <= k < |lines| ==> lines[k].variantId != variantId
    ensures var r := Reserve(variants, lines).value;
      && (variantId in r.variants <==> variantId in variants)
      && (variantId in variants ==> r.variants[variantId] == variants[variantId])
  {
    ReserveFacts(variants, lines);
    QuantityOfAbsent(lines, variantId);
  }

  /** With one line per variant, the last line meets the same check after the earlier lines as it
      would against the original table. */
  lemma ReserveLastLine(variants: map<Id, Variant>, lines: seq<CartItem>)
    requires CartService.LinesValid(lines)
    requires lines != []
    requires Reserve(variants, lines[..|lines| - 1]).Success?
    ensures var p := Reserve(variants, lines[..|lines| - 1]).value;
      && (LineOk(p.variants, lines[|lines| - 1]) <==> LineOk(variants, lines[|lines| - 1]))
      && LineError(p.variants, lines[|lines| - 1]) == LineError(variants, lines[|lines| - 1])
  {
    var n := |lines| - 1;
    assert forall j :: 0 <= j < n ==> lines[..n][j].variantId != lines[n].variantId;
    ReserveUntouched(variants, lines[..n], lines[n].variantId);
  }

  /** With one line per variant (as carts guarantee), the placement succeeds exactly when every
      line's variant exists with at least the requested stock. */
  lemma {:induction false} ReserveSucceedsIff(variants: map<Id, Variant>, lines: seq<CartItem>)
    requires CartService.LinesValid(lines)
    ensures Reserve(variants, lines).Success? <==> forall k :: 0 <= k < |lines| ==> LineOk(variants, lines[k])
    decreases |lines|
  {
    if lines != [] {
      var n := |lines| - 1;
      var init := lines[..n];
      assert CartService.LinesValid(init);
      ReserveSucceedsIff(variants, init);
      assert forall j :: 0 <= j < n ==> lines[j] == init[j];
      if Reserve(variants, init).Success? {
        ReserveLastLine(variants, lines);
      }
    }
  }

  /** With one line per variant, a failed placement reports the error of the first line whose
      variant is missing or short of stock. */
  lemma {:induction false} ReserveFailsAtFirstBadLine(variants: map<Id, Variant>, lines: seq<CartItem>)
    requires CartService.LinesValid(lines)
    requires Reserve(variants, lines).Failure?
    ensures exists k :: 0 <= k < |lines| && !LineOk(variants, lines[k])
              && (forall j :: 0 <= j < k ==> LineOk(variants, lines[j]))
              && Reserve(variants, lines).error == LineError(variants, lines[k])
    decreases |lines|
  {
    var n := |lines| - 1;
    var init := lines[..n];
    assert CartService.LinesValid(init);
    assert forall j :: 0 <= j < n ==> lines[j] == init[j];
    if Reserve(variants, init).Failure? {
      ReserveFailsAtFirstBadLine(variants, init);
      var k :| 0 <= k < |init| && !LineOk(variants, init[k])
               && (forall j :: 0 <= j < k ==> LineOk(variants, init[j]))
               && Reserve(variants, init).error == LineError(variants, init[k]);
      assert lines[k] == init[k];
    } else {
      ReserveSucceedsIff(variants, init);
      ReserveLastLine(variants, lines);
      assert !LineOk(variants, lines[n]);
    }
  }

  /** The order row a successful placement inserts. */
  function NewOrder(id: Id, userId: Id, r: Reservation, shippingAddress: ShippingAddress, notes: Option<string>): Order
  {
    Order(id, userId, r.items, r.subtotal, SHIPPING_COST, r.subtotal + SHIPPING_COST,
          shippingAddress, notes, PENDING, PaymentPending, None, None)
  }

  /** The outcome of createFromCart for the cart's lines: the new variants table and the order, or
      the error. An empty cart is rejected before the transaction starts. */
  function PlaceOrder(variants: map<Id, Variant>, lines: seq<CartItem>, userId: Id, orderId: Id,
                      shippingAddress: ShippingAddress, notes: Option<string>)
    : (r: Result<(map<Id, Variant>, Order), OrderError>)
    ensures lines == [] ==> r == Failure(EmptyCart)
    ensures r.Success? ==>
      var (after, order) := r.value;
      && order.id == orderId && order.userId == userId
      && order.status == PENDING && order.paymentStatus == PaymentPending
      && order.shippingCost == 0
      && order.shippingAddress == shippingAddress && order.notes == notes
      && order.paymentId.None? && order.snapToken.None?
      && order.total == order.subtotal + order.shippingCost
      && order.subtotal == Subtotal(order.items)
      && |order.items| == |lines|
      && (forall k :: 0 <= k < |lines| ==>
            && lines[k].variantId in variants
            && order.items[k] == OrderItem(lines[k].variantId, lines[k].quantity, variants[lines[k].variantId].price))
      && after.Keys == variants.Keys
      && (forall v :: v in variants ==>
            after[v] == variants[v].(stock := variants[v].stock - CartService.QuantityOf(lines, v)))
  {
    if lines == [] then Failure(EmptyCart)
    else match Reserve(variants, lines)
      case Failure(e) => Failure(e)
      case Success(res) =>
        ReserveFacts(variants, lines);
        Success((res.variants, NewOrder(orderId, userId, res, shippingAddress, notes)))
  }

  /** With one line per variant: each line's variant loses exactly that line's quantity and every
      variant the cart does not mention is unchanged. */
  lemma PlaceOrderStock(variants: map<Id, Variant>, lines: seq<CartItem>, userId: Id, orderId: Id,
                        shippingAddress: ShippingAddress, notes: Option<string>)
    requires CartService.LinesValid(lines)
    requires PlaceOrder(variants, lines, userId, orderId, shippingAddress, notes).Success?
    ensures var after := PlaceOrder(variants, lines, userId, orderId, shippingAddress, notes).value.0;
      && (forall k :: 0 <= k < |lines| ==>
            after[lines[k].variantId].stock == variants[lines[k].variantId].stock - lines[k].quantity)
      && (forall v :: v in variants && (forall k :: 0 <= k < |lines| ==> lines[k].variantId != v) ==>
            after[v] == variants[v])
  {
    forall k | 0 <= k < |lines|
      ensures CartService.QuantityOf(lines, lines[k].variantId) == lines[k].quantity
    {
      QuantityOfSingle(lines, k);
    }
    forall v | v in variants && (forall k :: 0 <= k < |lines| ==> lines[k].variantId != v)
      ensures CartService.QuantityOf(lines, v) == 0
    {
      QuantityOfAbsent(lines, v);
    }
  }

  /** With one line per variant, a variant's total quantity is that of its single line. */
  lemma {:induction false} QuantityOfSingle(lines: seq<CartItem>, k: nat)
    requires CartService.LinesValid(lines)
    requires k < |lines|
    ensures CartService.QuantityOf(lines, lines[k].variantId) == lines[k].quantity
    decreases |lines|
  {
    assert CartService.LinesValid(lines[1..]);
    if k == 0 {
      QuantityOfAbsent(lines[1..], lines[0].variantId);
    } else {
      QuantityOfSingle(lines[1..], k - 1);
      assert lines[1..][k - 1] == lines[k];
    }
  }

  /** A placement from an all-non-negative variants table leaves every stock non-negative. */
  lemma PlaceOrderNoOversell(variants: map<Id, Variant>, lines: seq<CartItem>, userId: Id, orderId: Id,
                             shippingAddress: ShippingAddress, notes: Option<string>)
    requires forall v :: v in variants ==> variants[v].stock >= 0
    requires PlaceOrder(variants, lines, userId, orderId, shippingAddress, notes).Success?
    ensures var after := PlaceOrder(variants, lines, userId, orderId, shippingAddress, notes).value.0;
      forall v :: v in after ==> after[v].stock >= 0
  {
    ReserveKeepsStockNonNegative(variants, lines);
  }

  /** The body of createFromCart's transaction: each line in cart order re-reads its variant,
      rejects a missing one or one with too little stock, decrements the stock, snapshots the price
      into an order item and adds price·quantity to the running subtotal. */
  method Transact(variants: map<Id, Variant>, lines: seq<CartItem>) returns (res: Result<Reservation, OrderError>)
    ensures res == Reserve(variants, lines)
  {
    var view := variants;
    var items: seq<OrderItem> := [];
    var subtotal := 0;
    var i := 0;
    while i < |lines|
      invariant 0 <= i <= |lines|
      invariant Reserve(variants, lines[..i]) == Success(Reservation(view, items, subtotal))
    {
      var line := lines[i];
      assert lines[..i + 1][..i] == lines[..i];
      if line.variantId !in view {
        ReserveFailurePersists(variants, lines, i + 1);
        return Failure(VariantNotFound(line.variantId));
      }
      var variant := view[line.variantId];
      if variant.stock < line.quantity {
        ReserveFailurePersists(variants, lines, i + 1);
        return Failure(InsufficientStock(variant.sku));
      }
      var price := variant.price;
      subtotal := subtotal + price * line.quantity;
      view := view[line.variantId := variant.(stock := variant.stock - line.quantity)];
      items := items + [OrderItem(line.variantId, line.quantity, price)];
      i := i + 1;
    }
    assert lines[..|lines|] == lines;
    res := Success(Reservation(view, items, subtotal));
  }

  /** createFromCart. Loads (or lazily creates) the cart and rejects it when empty; then runs the
      transaction, which either commits the new stock levels together with the new order (shipping
      0, total = subtotal + shipping) or, on a rejected line, leaves variants and orders as they
      were; after a commit the cart is emptied. */
  method CreateFromCart(db: Database, userId: Id, shippingAddress: ShippingAddress, notes: Option<string>,
                        newCartId: Id, newOrderId: Id)
    returns (r: Result<Order, OrderError>)
    requires CartService.CartsValid(db.carts)
    requires newOrderId !in db.orders
    modifies db`carts, db`variants, db`orders
    ensures CartService.CartsValid(db.carts)
    ensures var cart := CartService.CartOrNew(old(db.carts), userId, newCartId);
      match PlaceOrder(old(db.variants), cart.items, userId, newOrderId, shippingAddress, notes)
      case Failure(e) =>
        && r == Failure(e)
        && db.variants == old(db.variants) && db.orders == old(db.orders)
        && db.carts == old(db.carts)[userId := cart]
      case Success(placed) =>
        && r == Success(placed.1)
        && db.variants == placed.0
        && db.orders == old(db.orders)[newOrderId := placed.1]
        && db.carts == old(db.carts)[userId := cart.(items := [])]
  {
    var cart := CartService.GetOrCreateCart(db, userId, newCartId);
    ghost var placed := PlaceOrder(db.variants, cart.items, userId, newOrderId, shippingAddress, notes);
    if |cart.items| == 0 {
      assert placed == Failure(EmptyCart);
      return Failure(EmptyCart);
    }
    var res := Transact(db.variants, cart.items);
    if res.Failure? {
      assert placed == Failure(res.error);
      return Failure(res.error);
    }
    var tx := res.value;
    var order := NewOrder(newOrderId, userId, tx, shippingAddress, notes);
    assert placed == Success((tx.variants, order));
    db.variants := tx.variants;
    db.orders := db.orders[newOrderId := order];
    CartService.ClearCart(db, userId);
    r := Success(order);
  }

  /** updateStatus: an unknown id fails; otherwise only that order's status changes. */
  method UpdateStatus(db: Database, id: Id, status: OrderStatus) returns (r: Result<Order, OrderError>)
    modifies db`orders
    ensures id !in old(db.orders) ==> r == Failure(OrderNotFound) && db.orders == old(db.orders)
    ensures id in old(db.orders) ==>
              && db.orders == old(db.orders)[id := old(db.orders)[id].(status := status)]
              && r == Success(db.orders[id])
  {
    if id !in db.orders {
      return Failure(OrderNotFound);
    }
    db.orders := db.orders[id := db.orders[id].(status := status)];
    r := Success(db.orders[id]);
  }

  /** The data of updatePayment. An absent field is `undefined` in the update, which the database
      leaves untouched. */
  datatype PaymentUpdate = PaymentUpdate(paymentStatus: PaymentStatus, paymentId: Option<string>, snapToken: Option<string>)

  /** The order row after updatePayment: the payment status is overwritten, paymentId and
      snapToken are overwritten when given, and nothing else about the order changes. */
  function WithPayment(o: Order, u: PaymentUpdate): (r: Order)
    ensures r.paymentStatus == u.paymentStatus
    ensures r.paymentId == (if u.paymentId.Some? then u.paymentId else o.paymentId)
    ensures r.snapToken == (if u.snapToken.Some? then u.snapToken else o.snapToken)
    ensures r.(paymentStatus := o.paymentStatus, paymentId := o.paymentId, snapToken := o.snapToken) == o
  {
    o.(paymentStatus := u.paymentStatus,
       paymentId := if u.paymentId.Some? then u.paymentId else o.paymentId,
       snapToken := if u.snapToken.Some? then u.snapToken else o.snapToken)
  }

  /** Applying the same payment update twice is applying it once. */
  lemma WithPaymentIdempotent(o: Order, u: PaymentUpdate)
    ensures WithPayment(WithPayment(o, u), u) == WithPayment(o, u)
  {
  }

  /** updatePayment: an update of a missing row fails (the database raises "record not found");
      otherwise the order becomes WithPayment of itself. */
  method UpdatePayment(db: Database, id: Id, u: PaymentUpdate) returns (r: Result<Order, OrderError>)
    modifies db`orders
    ensures id !in old(db.orders) ==> r == Failure(OrderNotFound) && db.orders == old(db.orders)
    ensures id in old(db.orders) ==>
              && db.orders == old(db.orders)[id := WithPayment(old(db.orders)[id], u)]
              && r == Success(db.orders[id])
  {
    if id !in db.orders {
      return Failure(OrderNotFound);
    }
    db.orders := db.orders[id := WithPayment(db.orders[id], u)];
    r := Success(db.orders[id]);
  }
}
