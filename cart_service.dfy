/** The backend cart service: lazy creation of a user's cart, add-or-merge of a line, setting a
    line's quantity (deleting it at zero or below), removing a line and emptying the cart. Every
    operation edits only the calling user's cart in the `carts` table. */
module CartService {
  import opened Wrappers
  import opened Store

  datatype CartError = VariantNotFound | InsufficientStock | CartNotFound | ItemNotFound

  /** The lines of one cart carry distinct item ids and distinct variants: the database's primary
      key and its unique (cartId, variantId) index. */
  predicate LinesValid(items: seq<CartItem>)
  {
    forall i, j :: 0 <= i < j < |items| ==>
      items[i].id != items[j].id && items[i].variantId != items[j].variantId
  }

  predicate CartsValid(carts: map<Id, Cart>)
  {
    forall u :: u in carts ==> LinesValid(carts[u].items)
  }

  /** No line of any cart uses `id` (what the database's id generator guarantees for a new line). */
  predicate ItemIdUnused(carts: map<Id, Cart>, id: Id)
  {
    forall u, k :: u in carts && 0 <= k < |carts[u].items| ==> carts[u].items[k].id != id
  }

  /** The variant may be put in a cart: it exists, is not soft-deleted and is active. */
  predicate Purchasable(variants: map<Id, Variant>, variantId: Id)
  {
    variantId in variants && variants[variantId].deletedAt.None? && variants[variantId].isActive
  }

  /** The user's cart, or the empty cart that would be created for them under `newCartId`.
      Storing it is a no-op for a user who has a cart, only an existing cart can hold lines, and
      storing it keeps every cart valid. */
  function CartOrNew(carts: map<Id, Cart>, userId: Id, newCartId: Id): (c: Cart)
    ensures userId in carts ==> carts[userId := c] == carts
    ensures c.items != [] ==> userId in carts
    ensures CartsValid(carts) ==> CartsValid(carts[userId := c])
  {
    if userId in carts then carts[userId] else Cart(newCartId, [])
  }

  /** The position of the line for `variantId`, if the cart has one. */
  function IndexOfVariant(items: seq<CartItem>, variantId: Id): (r: Option<nat>)
    ensures r.Some? ==> r.value < |items| && items[r.value].variantId == variantId
    ensures r.None? <==> forall k :: 0 <= k < |items| ==> items[k].variantId != variantId
  {
    if items == [] then None
    else if items[0].variantId == variantId then Some(0)
    else match IndexOfVariant(items[1..], variantId)
      case None => None
      case Some(k) => Some(k + 1)
  }

  /** The position of the line whose id is `itemId`, if it is in this cart. */
  function IndexOfItem(items: seq<CartItem>, itemId: Id): (r: Option<nat>)
    ensures r.Some? ==> r.value < |items| && items[r.value].id == itemId
    ensures r.None? <==> forall k :: 0 <= k < |items| ==> items[k].id != itemId
  {
    if items == [] then None
    else if items[0].id == itemId then Some(0)
    else match IndexOfItem(items[1..], itemId)
      case None => None
      case Some(k) => Some(k + 1)
  }

  /** Total quantity of `variantId` over the lines of a cart. */
  function QuantityOf(items: seq<CartItem>, variantId: Id): int
  {
    if items == [] then 0
    else (if items[0].variantId == variantId then items[0].quantity else 0)
         + QuantityOf(items[1..], variantId)
  }

  lemma {:induction false} QuantityOfAppend(items: seq<CartItem>, line: CartItem, variantId: Id)
    ensures QuantityOf(items + [line], variantId)
         == QuantityOf(items, variantId) + (if line.variantId == variantId then line.quantity else 0)
    decreases |items|
  {
    if items != [] {
      assert (items + [line])[1..] == items[1..] + [line];
      QuantityOfAppend(items[1..], line, variantId);
    }
  }

  lemma {:induction false} QuantityOfUpdate(items: seq<CartItem>, k: nat, line: CartItem, variantId: Id)
    requires k < |items|
    ensures QuantityOf(items[k := line], variantId)
         == QuantityOf(items, variantId)
            - (if items[k].variantId == variantId then items[k].quantity else 0)
            + (if line.variantId == variantId then line.quantity else 0)
    decreases |items|
  {
    if k > 0 {
      assert items[k := line][1..] == items[1..][k - 1 := line];
      QuantityOfUpdate(items[1..], k - 1, line, variantId);
    }
  }

  lemma {:induction false} QuantityOfRemove(items: seq<CartItem>, k: nat, variantId: Id)
    requires k < |items|
    ensures QuantityOf(items[..k] + items[k + 1..], variantId)
         == QuantityOf(items, variantId) - (if items[k].variantId == variantId then items[k].quantity else 0)
    decreases |items|
  {
    if k == 0 {
      assert items[..0] + items[1..] == items[1..];
    } else {
      var rest := items[1..];
      assert (items[..k] + items[k + 1..])[1..] == rest[..k - 1] + rest[k..];
      QuantityOfRemove(rest, k - 1, variantId);
    }
  }

  /** Add-or-merge (cart.service.ts addItem): the existing line for the variant keeps its id and
      grows by `quantity`, the other lines staying as they are; otherwise a new line
      (newItemId, variantId, quantity) is appended. */
  function AddLine(items: seq<CartItem>, variantId: Id, quantity: int, newItemId: Id): (r: seq<CartItem>)
    ensures |r| == if IndexOfVariant(items, variantId).Some? then |items| else |items| + 1
    ensures LinesValid(items) && (forall k :: 0 <= k < |items| ==> items[k].id != newItemId)
            ==> LinesValid(r)
    ensures QuantityOf(r, variantId) == QuantityOf(items, variantId) + quantity
    ensures forall w :: w != variantId ==> QuantityOf(r, w) == QuantityOf(items, w)
    ensures IndexOfVariant(items, variantId).Some? ==>
              var k := IndexOfVariant(items, variantId).value;
              && r[k] == items[k].(quantity := items[k].quantity + quantity)
              && forall j :: 0 <= j < |items| && j != k ==> r[j] == items[j]
    ensures IndexOfVariant(items, variantId).None? ==>
              r[..|items|] == items && r[|items|] == CartItem(newItemId, variantId, quantity)
  {
    match IndexOfVariant(items, variantId)
    case Some(k) =>
      var r := items[k := items[k].(quantity := items[k].quantity + quantity)];
      QuantityOfUpdate(items, k, r[k], variantId);
      forall w | w != variantId ensures QuantityOf(r, w) == QuantityOf(items, w) {
        QuantityOfUpdate(items, k, r[k], w);
      }
      r
    case None =>
      var line := CartItem(newItemId, variantId, quantity);
      QuantityOfAppend(items, line, variantId);
      forall w | w != variantId ensures QuantityOf(items + [line], w) == QuantityOf(items, w) {
        QuantityOfAppend(items, line, w);
      }
      items + [line]
  }

  /** Deleting the line at `k` keeps every other line, in order. */
  function RemoveAt(items: seq<CartItem>, k: nat): (r: seq<CartItem>)
    requires k < |items|
    ensures |r| == |items| - 1
    ensures multiset(r) + multiset{items[k]} == multiset(items)
    ensures LinesValid(items) ==> LinesValid(r) && items[k] !in r
    ensures QuantityOf(r, items[k].variantId) == QuantityOf(items, items[k].variantId) - items[k].quantity
    ensures forall w :: w != items[k].variantId ==> QuantityOf(r, w) == QuantityOf(items, w)
  {
    var r := items[..k] + items[k + 1..];
    assert items == items[..k] + [items[k]] + items[k + 1..];
    QuantityOfRemove(items, k, items[k].variantId);
    forall w | w != items[k].variantId ensures QuantityOf(r, w) == QuantityOf(items, w) {
      QuantityOfRemove(items, k, w);
    }
    RemoveAtKeepsLinesValid(items, k);
    r
  }

  /** Deleting a line from a valid cart leaves a valid cart without that line. */
  lemma RemoveAtKeepsLinesValid(items: seq<CartItem>, k: nat)
    requires k < |items|
    ensures LinesValid(items) ==> LinesValid(items[..k] + items[k + 1..]) && items[k] !in items[..k] + items[k + 1..]
  {
    var r := items[..k] + items[k + 1..];
    if LinesValid(items) {
      forall j | 0 <= j < |r| ensures r[j] != items[k] {
        if j < k { assert r[j] == items[j]; } else { assert r[j] == items[j + 1]; }
      }
    }
  }

  /** updateItem's rule: a quantity of zero or below deletes the line, any other sets it exactly. */
  function SetQuantity(items: seq<CartItem>, k: nat, quantity: int): (r: seq<CartItem>)
    requires k < |items|
    ensures LinesValid(items) ==> LinesValid(r)
    ensures quantity <= 0 ==> r == RemoveAt(items, k)
    ensures quantity > 0 ==> |r| == |items| && r[k].id == items[k].id && r[k].quantity == quantity
    ensures quantity > 0 ==> forall j :: 0 <= j < |items| && j != k ==> r[j] == items[j]
    ensures QuantityOf(r, items[k].variantId)
         == QuantityOf(items, items[k].variantId) - items[k].quantity + (if quantity <= 0 then 0 else quantity)
    ensures forall w :: w != items[k].variantId ==> QuantityOf(r, w) == QuantityOf(items, w)
  {
    if quantity <= 0 then RemoveAt(items, k)
    else
      var r := items[k := items[k].(quantity := quantity)];
      QuantityOfUpdate(items, k, r[k], items[k].variantId);
      forall w | w != items[k].variantId ensures QuantityOf(r, w) == QuantityOf(items, w) {
        QuantityOfUpdate(items, k, r[k], w);
      }
      r
  }

  /** clearCart on the table: the user's cart, if any, loses all its lines; nothing else changes. */
  function Cleared(carts: map<Id, Cart>, userId: Id): (r: map<Id, Cart>)
    ensures r.Keys == carts.Keys
    ensures userId in r ==> r[userId].items == [] && r[userId].id == carts[userId].id
    ensures forall u :: u in carts && u != userId ==> r[u] == carts[u]
  {
    if userId in carts then carts[userId := carts[userId].(items := [])] else carts
  }

  /** Clearing is idempotent. */
  lemma ClearedIdempotent(carts: map<Id, Cart>, userId: Id)
    ensures Cleared(Cleared(carts, userId), userId) == Cleared(carts, userId)
  {
  }

  /** getOrCreateCart: the existing cart unchanged, or exactly one new, empty cart for the user. */
  method GetOrCreateCart(db: Database, userId: Id, newCartId: Id) returns (cart: Cart)
    modifies db`carts
    ensures cart == CartOrNew(old(db.carts), userId, newCartId)
    ensures db.carts == old(db.carts)[userId := cart]
    ensures userId in old(db.carts) ==> db.carts == old(db.carts)
    ensures CartsValid(old(db.carts)) ==> CartsValid(db.carts)
  {
    if userId in db.carts {
      cart := db.carts[userId];
    } else {
      cart := Cart(newCartId, []);
      db.carts := db.carts[userId := cart];
    }
  }

  /** addItem: rejects a missing, soft-deleted or inactive variant, and a variant whose stock is
      below the requested quantity (the merged total is not checked); then merges into the user's
      cart, creating the cart first if needed. */
  method AddItem(db: Database, userId: Id, variantId: Id, quantity: int, newCartId: Id, newItemId: Id)
    returns (r: Result<Cart, CartError>)
    requires CartsValid(db.carts)
    requires ItemIdUnused(db.carts, newItemId)
    modifies db`carts
    ensures CartsValid(db.carts)
    ensures !Purchasable(db.variants, variantId) ==>
              r == Failure(VariantNotFound) && db.carts == old(db.carts)
    ensures Purchasable(db.variants, variantId) && db.variants[variantId].stock < quantity ==>
              r == Failure(InsufficientStock) && db.carts == old(db.carts)
    ensures Purchasable(db.variants, variantId) && db.variants[variantId].stock >= quantity ==>
              var before := CartOrNew(old(db.carts), userId, newCartId);
              && db.carts == old(db.carts)[userId := before.(items := AddLine(before.items, variantId, quantity, newItemId))]
              && r == Success(db.carts[userId])
  {
    if !Purchasable(db.variants, variantId) {
      return Failure(VariantNotFound);
    }
    if db.variants[variantId].stock < quantity {
      return Failure(InsufficientStock);
    }
    var cart := GetOrCreateCart(db, userId, newCartId);
    var items := AddLine(cart.items, variantId, quantity, newItemId);
    db.carts := db.carts[userId := cart.(items := items)];
    r := Success(db.carts[userId]);
  }

  /** updateItem: fails without a cart or when the item is not in this user's cart; otherwise
      applies SetQuantity to that line. */
  method UpdateItem(db: Database, userId: Id, itemId: Id, quantity: int) returns (r: Result<Cart, CartError>)
    requires CartsValid(db.carts)
    modifies db`carts
    ensures CartsValid(db.carts)
    ensures userId !in old(db.carts) ==> r == Failure(CartNotFound) && db.carts == old(db.carts)
    ensures userId in old(db.carts) && IndexOfItem(old(db.carts)[userId].items, itemId).None? ==>
              r == Failure(ItemNotFound) && db.carts == old(db.carts)
    ensures userId in old(db.carts) && IndexOfItem(old(db.carts)[userId].items, itemId).Some? ==>
              var before := old(db.carts)[userId];
              var k := IndexOfItem(before.items, itemId).value;
              && db.carts == old(db.carts)[userId := before.(items := SetQuantity(before.items, k, quantity))]
              && r == Success(db.carts[userId])
  {
    if userId !in db.carts {
      return Failure(CartNotFound);
    }
    var cart := db.carts[userId];
    var found := IndexOfItem(cart.items, itemId);
    if found.None? {
      return Failure(ItemNotFound);
    }
    db.carts := db.carts[userId := cart.(items := SetQuantity(cart.items, found.value, quantity))];
    r := Success(db.carts[userId]);
  }

  /** removeItem: the same lookups as updateItem, then only the named line is deleted. */
  method RemoveItem(db: Database, userId: Id, itemId: Id) returns (r: Result<Cart, CartError>)
    requires CartsValid(db.carts)
    modifies db`carts
    ensures CartsValid(db.carts)
    ensures userId !in old(db.carts) ==> r == Failure(CartNotFound) && db.carts == old(db.carts)
    ensures userId in old(db.carts) && IndexOfItem(old(db.carts)[userId].items, itemId).None? ==>
              r == Failure(ItemNotFound) && db.carts == old(db.carts)
    ensures userId in old(db.carts) && IndexOfItem(old(db.carts)[userId].items, itemId).Some? ==>
              var before := old(db.carts)[userId];
              var k := IndexOfItem(before.items, itemId).value;
              && db.carts == old(db.carts)[userId := before.(items := RemoveAt(before.items, k))]
              && r == Success(db.carts[userId])
  {
    if userId !in db.carts {
      return Failure(CartNotFound);
    }
    var cart := db.carts[userId];
    var found := IndexOfItem(cart.items, itemId);
    if found.None? {
      return Failure(ItemNotFound);
    }
    db.carts := db.carts[userId := cart.(items := RemoveAt(cart.items, found.value))];
    r := Success(db.carts[userId]);
  }

  /** clearCart: deletes every line of the user's cart; a no-op when the user has no cart. */
  method ClearCart(db: Database, userId: Id)
    modifies db`carts
    ensures db.carts == Cleared(old(db.carts), userId)
    ensures CartsValid(old(db.carts)) ==> CartsValid(db.carts)
  {
    if userId in db.carts {
      db.carts := db.carts[userId := db.carts[userId].(items := [])];
    }
  }
}
