# luxe-beauty storefront core, modelled in Dafny

This project models the rules at the heart of the luxe-beauty e-commerce system: its backend services and two pieces of its single-page storefront.

- **Order placement** (`OrdersService`). Placing an order from the user's cart is one all-or-nothing transaction. It re-reads each variant, rejects a missing variant or one short of stock, decrements stock, snapshots prices, computes subtotal, shipping and total, inserts the order and empties the cart. The service also overwrites an order's status and its payment fields.
- **Payments** (`PaymentsService`):
  - the gateway's transaction and fraud statuses map onto payment and order statuses;
  - a webhook notification is applied to its order;
  - the charge request is built from an order, and the token the gateway returns is stored.
- **Cart** (`CartService`). The cart is created lazily, one per user. A line is added or merged (one line per variant), its quantity is set (zero or below deletes it), a line is removed, and the cart is emptied.
- **Products** (`ProductsService`):
  - the pagination offset;
  - update and soft delete;
  - images are appended at the current count, reordered by index and removed;
  - a stored object's key is recovered from its public URL.
- **Accounts** (`AuthService`):
  - registration under a unique email;
  - password login;
  - finding, creating or linking a Google account;
  - issuing tokens, which stores the refresh token;
  - refreshing against that stored token.
- **Uploads** (`UploadService`):
  - a MIME allowlist;
  - a 5 MiB size cap;
  - the `products/<uuid><ext>` key and its public URL.
- **Storefront cart store** (`CartStore.Store`). A class whose `cart` and `loading` fields the actions update. Its item count and total are left folds, proved equal to the reference sums.
- **Storefront router** (`Router`). The route table with vue-router's meta merging, and the `beforeEach` guard.

The database is the class `Store.Database`, with one map per table. Each service method names in its `modifies` clause only the tables it writes, for example ``db`carts`` or ``db`variants``. Its `ensures` state the whole new state and the result, in terms of pure specification functions. Those functions are in turn related by lemmas:

- `Reserve` and the `Transact` loop;
- `AddLine`, `SetQuantity` and `RemoveAt`;
- `Reordered` and the `ReorderImages` loop;
- `ApplyNotification`;
- `ExtractKeyFromUrl`.

`Consistency` connects the layers:

- the storefront total equals the subtotal of the order placed from that cart;
- the gateway's gross amount equals the sum of its item details.

`UploadService.UploadedUrlGivesKey` connects the upload and the product services: an uploaded object's URL gives back its key when an image is removed.

Files:

- wrappers.dfy: `Wrappers` (Option, Result)
- strings.dfy: `Strings` (startsWith, indexOf, replace, split, join, slice(-2), toLowerCase)
- store.dfy: `Store` (rows, `Database`)
- cart_service.dfy: `CartService`
- orders_service.dfy: `OrdersService`
- payments_service.dfy: `PaymentsService`
- products_service.dfy: `ProductsService`
- auth_service.dfy: `AuthService`
- upload_service.dfy: `UploadService`
- cart_store.dfy: `CartStore`
- router.dfy: `Router`
- consistency.dfy: `Consistency`

### Behaviour of the code worth knowing

The model follows the code as written in each of these cases.

- **An empty cart still causes a write.** `createFromCart` calls `getOrCreateCart` before checking for an empty cart (backend/src/modules/orders/orders.service.ts:23-24). So a user without a cart gets an empty one created, and only then is the order rejected with `EmptyCart`. `CreateFromCart` states this (`carts == old(carts)[userId := cart]`).
- **Settled payments can go back to pending.** `handleWebhook` overwrites the payment status on every notification (backend/src/modules/payments/payments.service.ts:87-90). It has no rule that PAID, FAILED or EXPIRED are final. So a late or replayed "pending" notification turns a PAID payment back into PENDING while the order stays PAID. `LastNotificationWins` and `PendingAfterSettlementRegresses` prove this.
- **Webhook errors are not caught.** `handleWebhook` lets `updatePayment`'s "record not found" error propagate, so an unknown order id fails the request rather than being acknowledged. `HandleWebhook` returns `Failure(OrderNotFound)` and writes nothing.
- **A refresh without a token is accepted.** The refresh endpoint does not validate its body (backend/src/modules/auth/auth.controller.ts:61-62). When `refreshToken` is absent, the `findFirst` in `refresh` has no refresh-token filter (backend/src/modules/auth/auth.service.ts:101-103). So any live user id gets a new access token. `Refresh` models the token as optional, and `MissingTokenAccepted` shows the consequence.

## Model

| member | source | states |
|---|---|---|
| CartService.CartOrNew | backend/src/modules/cart/cart.service.ts:8-46 | storing the result is a no-op for a user who already has a cart; only an existing cart can have lines; storing it keeps every cart valid |
| CartService.IndexOfVariant | backend/src/modules/cart/cart.service.ts:57-59 | finds the line for the variant, or reports (iff) that no line has it |
| CartService.IndexOfItem | backend/src/modules/cart/cart.service.ts:79-80 | finds the line with that item id in this cart, or reports (iff) that none has it |
| CartService.AddLine | backend/src/modules/cart/cart.service.ts:57-70 | a merge updates the variant's existing line in place, keeping its id and adding `quantity`, and leaves every other line as it was; otherwise the lines are kept and (newItemId, variantId, quantity) is appended; one-line-per-variant and distinct ids are preserved; the variant's quantity grows by exactly `quantity`, other variants' are unchanged |
| CartService.RemoveAt | backend/src/modules/cart/cart.service.ts:98 | exactly the named line is gone (multiset); validity is kept; only that variant's quantity drops |
| CartService.SetQuantity | backend/src/modules/cart/cart.service.ts:82-86 | quantity ≤ 0 deletes the line; otherwise only that line's quantity becomes exactly `quantity`; validity and other variants are kept |
| CartService.Cleared | backend/src/modules/cart/cart.service.ts:102-107 | the user's cart loses all lines; a no-op without a cart; other carts unchanged |
| CartService.ClearedIdempotent | backend/src/modules/cart/cart.service.ts:102-107 | clearing twice is clearing once |
| CartService.GetOrCreateCart | backend/src/modules/cart/cart.service.ts:8-46 | returns the existing cart with the table unchanged, or inserts exactly one empty cart for the user |
| CartService.Purchasable | backend/src/modules/cart/cart.service.ts:49-51 | definition: the variant exists, is not deleted and is active; characterised by AddItem |
| CartService.AddItem | backend/src/modules/cart/cart.service.ts:48-73 | rejects a missing, deleted or inactive variant, then stock < requested quantity (not the merged total), with no write; otherwise the user's (possibly new) cart becomes AddLine of it and it is returned; carts stay valid |
| CartService.UpdateItem | backend/src/modules/cart/cart.service.ts:75-89 | no cart → CartNotFound; item not in this user's cart → ItemNotFound, no write; otherwise only that cart changes, by SetQuantity |
| CartService.RemoveItem | backend/src/modules/cart/cart.service.ts:91-100 | the same failures; otherwise only the named line of that cart is deleted |
| CartService.ClearCart | backend/src/modules/cart/cart.service.ts:102-107 | the table becomes Cleared of itself; validity is kept |
| OrdersService.LineOk | backend/src/modules/orders/orders.service.ts:31-35 | definition: the line's variant exists with stock ≥ quantity; characterised by ReserveSucceedsIff |
| OrdersService.LineError | backend/src/modules/orders/orders.service.ts:32-34 | definition: VariantNotFound for a missing variant, else InsufficientStock with its SKU; characterised by ReserveFailsAtFirstBadLine |
| OrdersService.ReserveLine | backend/src/modules/orders/orders.service.ts:31-44 | definition: one line's check, decrement, price snapshot and subtotal step; characterised by ReserveStock and ReserveItems |
| OrdersService.Reserve | backend/src/modules/orders/orders.service.ts:26-46 | definition: the lines in cart order, aborting at the first failure; characterised by ReserveFacts, ReserveSucceedsIff, ReserveFailsAtFirstBadLine and Transact |
| OrdersService.NewOrder | backend/src/modules/orders/orders.service.ts:48-62 | definition: the inserted order row; characterised by PlaceOrder |
| OrdersService.ReserveFailurePersists | backend/src/modules/orders/orders.service.ts:26-35 | once a line fails the whole transaction fails with that error (rollback) |
| OrdersService.ReserveFacts | backend/src/modules/orders/orders.service.ts:29-44 | a successful transaction keeps the variant keys; each variant's stock drops by exactly its total quantity in the lines and nothing else changes; one item per line in cart order with variantId, quantity and the current price; subtotal = Σ price·quantity |
| OrdersService.ReserveStock | backend/src/modules/orders/orders.service.ts:31-42 | a successful transaction keeps the variant keys, and each variant's stock drops by exactly its total quantity in the lines, nothing else about it changing |
| OrdersService.ReserveItems | backend/src/modules/orders/orders.service.ts:36-44 | a successful transaction builds one item per line in cart order with variantId, quantity and the current price, and its running subtotal is Σ price·quantity |
| OrdersService.ReserveKeepsStockNonNegative | backend/src/modules/orders/orders.service.ts:33-42 | from non-negative stock, every guarded decrement leaves stock non-negative |
| OrdersService.ReserveUntouched | backend/src/modules/orders/orders.service.ts:39-42 | a variant no line mentions is left exactly as it was |
| OrdersService.ReserveSucceedsIff | backend/src/modules/orders/orders.service.ts:31-35 | with one line per variant: success iff every line's variant exists with stock ≥ quantity |
| OrdersService.ReserveFailsAtFirstBadLine | backend/src/modules/orders/orders.service.ts:31-35 | with one line per variant: a failure carries the VariantNotFound/InsufficientStock(sku) error of the first bad line in cart order |
| OrdersService.PlaceOrder | backend/src/modules/orders/orders.service.ts:22-67 | empty cart → EmptyCart; on success the order is PENDING/PENDING with shipping 0, the given shipping address and notes, no payment id or snap token, total = subtotal + shipping, subtotal = Σ price·quantity, items copied from the lines with current prices, and stock decremented per variant by the quantity asked |
| OrdersService.PlaceOrderStock | backend/src/modules/orders/orders.service.ts:39-42 | with one line per variant, each line's variant loses exactly that line's quantity and unmentioned variants are unchanged |
| OrdersService.PlaceOrderNoOversell | backend/src/modules/orders/orders.service.ts:33-42 | a successful placement from non-negative stocks leaves every stock non-negative |
| OrdersService.Transact | backend/src/modules/orders/orders.service.ts:26-46 | the loop with a running subtotal and the transaction's own view of the variants computes exactly Reserve |
| OrdersService.CreateFromCart | backend/src/modules/orders/orders.service.ts:22-67 | on failure (including an empty cart) variants and orders are unchanged and the cart is only lazily created; on success the variants table is the reserved one, exactly one order is inserted, and the user's cart is emptied |
| OrdersService.UpdateStatus | backend/src/modules/orders/orders.service.ts:94-98 | an unknown id fails with no write; otherwise only that order's status changes |
| OrdersService.WithPayment | backend/src/modules/orders/orders.service.ts:100-102 | paymentStatus is overwritten; paymentId and snapToken are overwritten only when given; nothing else changes |
| OrdersService.WithPaymentIdempotent | backend/src/modules/orders/orders.service.ts:100-102 | applying the same payment update twice equals applying it once |
| OrdersService.UpdatePayment | backend/src/modules/orders/orders.service.ts:100-102 | a missing order fails with no write; otherwise only that order changes, by WithPayment |
| PaymentsService.MapStatus | backend/src/modules/payments/payments.service.ts:73-85 | PAID iff capture+accept or settlement; FAILED iff capture without accept, cancel or deny; EXPIRED iff expire; PENDING iff any other status (total); order status PAID only for settlement |
| PaymentsService.ApplyNotification | backend/src/modules/payments/payments.service.ts:87-94 | the payment status is the mapped one; the paymentId becomes transaction_id when present; the order status becomes PAID only on settlement; nothing else changes |
| PaymentsService.ApplyNotificationIdempotent | backend/src/modules/payments/payments.service.ts:87-94 | a redelivered notification leaves the state of a single delivery |
| PaymentsService.LastNotificationWins | backend/src/modules/payments/payments.service.ts:87-90 | after any stream, the payment status is the last notification's mapping; items and total are unchanged |
| PaymentsService.PendingAfterSettlementRegresses | backend/src/modules/payments/payments.service.ts:76-90 | settlement then "pending" leaves payment PENDING while the order stays PAID |
| PaymentsService.HandleWebhook | backend/src/modules/payments/payments.service.ts:68-97 | an unknown order fails with no write; otherwise the order becomes ApplyNotification of itself and `received` is returned |
| PaymentsService.ChargeParameters | backend/src/modules/payments/payments.service.ts:37-59 | gross_amount = order total; first name and phone of the customer and the whole shipping address (name, phone, address, city, postal code) from the order's address; one item detail per order item, in order, carrying its variantId, price, quantity and the ChargeItems name (product name, else variant id); Σ item details = the order's Σ price·quantity |
| PaymentsService.ItemName | backend/src/modules/payments/payments.service.ts:57 | definition: the product name when the variant and product rows exist, else the variant id; characterised by ChargeItems |
| PaymentsService.ChargeItems | backend/src/modules/payments/payments.service.ts:53-58 | item k is the k-th order item with the product name, or the variant id when no name is found |
| PaymentsService.ChargeItemsSum | backend/src/modules/payments/payments.service.ts:53-58 | Σ price·quantity of the item details equals the order items' subtotal |
| PaymentsService.CreateSnapToken | backend/src/modules/payments/payments.service.ts:23-66 | an unknown order fails; a rejected charge writes nothing; otherwise paymentStatus is PENDING and snapToken is the returned token, and the session is returned |
| ProductsService.Skip | backend/src/modules/products/products.service.ts:22-23 | the first page (given or defaulted) skips nothing; page ≥ 1 with limit ≥ 0 gives a non-negative offset |
| ProductsService.ConsecutivePages | backend/src/modules/products/products.service.ts:100-101 | page p+1 starts exactly one limit (20 by default) after page p |
| ProductsService.Patched | backend/src/modules/products/products.service.ts:90-91 | given fields are written and absent ones kept; the slug becomes slugify(name) exactly when a non-empty name is given and slugify of it is non-empty, and is kept otherwise; an empty patch changes nothing |
| ProductsService.Update | backend/src/modules/products/products.service.ts:86-92 | a missing or soft-deleted product is not found, with no write; otherwise only that product changes, by Patched |
| ProductsService.Delete | backend/src/modules/products/products.service.ts:94-98 | a missing or already deleted product is not found; otherwise only deletedAt is stamped; afterwards the product is not live |
| ProductsService.AddImage | backend/src/modules/products/products.service.ts:121-134 | fails for a missing or soft-deleted product; otherwise exactly one image is inserted, with position = the product's image count before insertion |
| ProductsService.AddedImageComesLast | backend/src/modules/products/products.service.ts:125-132 | while positions stay below the count, the new image is placed after all of the product's images and the property is kept |
| ProductsService.RemoveThenAddRepeatsPosition | backend/src/modules/products/products.service.ts:125-131 | with images at 0 and 1, removing the first and adding one gives two images at position 1 |
| ProductsService.RemoveImage | backend/src/modules/products/products.service.ts:136-147 | fails unless the product is live and the image is attached to it; otherwise only that image is removed and the key extracted from its URL, against the configured or default public URL, is returned |
| ProductsService.SetPosition | backend/src/modules/products/products.service.ts:154-157 | definition: one updateMany on (id, productId); characterised by ReorderedKeepsImages and ReorderedPositions |
| ProductsService.Reordered | backend/src/modules/products/products.service.ts:153-159 | definition: the updates in list order; characterised by ReorderedKeepsImages and ReorderedPositions |
| ProductsService.ReorderedKeepsImages | backend/src/modules/products/products.service.ts:153-159 | only positions change; images of other products, or not listed, are untouched |
| ProductsService.ReorderedPositions | backend/src/modules/products/products.service.ts:153-159 | with distinct ids, the product's image listed at index i ends at position i |
| ProductsService.ReorderImages | backend/src/modules/products/products.service.ts:149-161 | a missing or soft-deleted product is not found; otherwise the images table becomes Reordered and the per-update match count is 1 exactly for the product's images |
| ProductsService.SoftDeleteIsFinal | backend/src/modules/products/products.service.ts:87-97 | after a successful delete, update, delete and addImage on that id all fail with not found |
| ProductsService.PublicUrl | backend/src/modules/products/products.service.ts:164 | definition: the configured public URL, else http://localhost:3900/luxe-beauty; characterised by UploadedUrlGivesKey |
| ProductsService.ExtractKeyFromUrl | backend/src/modules/products/products.service.ts:163-169 | definition: strip base + "/" from a stored URL, else join the last two segments; characterised by KeyOfStoredUrl, KeyOfForeignUrl and KeyOfForeignUrlExample |
| ProductsService.KeyOfStoredUrl | backend/src/modules/products/products.service.ts:165-166 | the URL base + "/" + k yields k |
| ProductsService.KeyOfForeignUrl | backend/src/modules/products/products.service.ts:168 | any other URL yields a key whose segments are the URL's last two '/'-separated segments |
| ProductsService.KeyOfForeignUrlExample | backend/src/modules/products/products.service.ts:168 | a foreign URL ending in "/folder/file" yields "folder/file" |
| AuthService.TokensFor | backend/src/modules/auth/auth.service.ts:82-90 | definition: both tokens signed over the user's payload; characterised by GenerateTokens |
| AuthService.RefreshAccepted | backend/src/modules/auth/auth.service.ts:101-105 | definition: the user is live and holds the token, or no token is sent; characterised by Refresh and MissingTokenAccepted |
| AuthService.MatchesProfile | backend/src/modules/auth/auth.service.ts:54-56 | definition: same Google id or same email, deleted users included; characterised by FindOrCreateGoogleUser |
| AuthService.GenerateTokens | backend/src/modules/auth/auth.service.ts:81-98 | both tokens are signed over (id, email, role); the refresh token replaces the stored one; nothing else changes |
| AuthService.NewLocalUser | backend/src/modules/auth/auth.service.ts:27-30 | the new user has the given name and email, the bcrypt hash of the password, no avatar, no Google id, no refresh token and the CUSTOMER role |
| AuthService.Register | backend/src/modules/auth/auth.service.ts:23-33 | an email held by any user, deleted or not, is a conflict with no write; otherwise exactly one user is added with the hashed password and receives tokens; email uniqueness is preserved |
| AuthService.Login | backend/src/modules/auth/auth.service.ts:35-46 | Unauthorized with no write when there is no live user with the email, the user has no password, or compare fails; otherwise that user's tokens are issued and stored |
| AuthService.NewGoogleUser | backend/src/modules/auth/auth.service.ts:59-66 | the created account has the profile's name, email, Google id and avatar, and no password |
| AuthService.Linked | backend/src/modules/auth/auth.service.ts:67-72 | a user without a Google id gets the profile's Google id and, when given, its avatar; a user with one is unchanged |
| AuthService.FindOrCreateGoogleUser | backend/src/modules/auth/auth.service.ts:48-75 | with no user matching the Google id or email, exactly one user is created; otherwise some matching user is linked (or returned unchanged); email uniqueness is preserved |
| AuthService.GoogleLogin | backend/src/modules/auth/auth.service.ts:77-79 | issues and stores tokens for the found user |
| AuthService.Refresh | backend/src/modules/auth/auth.service.ts:100-111 | with a token: succeeds iff the user is live and its stored refresh token equals it; without one (the unvalidated body): succeeds iff the user is live; then returns an access token over that user's claims; writes nothing |
| AuthService.MissingTokenAccepted | backend/src/modules/auth/auth.service.ts:101-108 | a request without a refresh token gets an access token for any live user |
| AuthService.ReissueRevokesEarlierToken | backend/src/modules/auth/auth.service.ts:92-105 | after a second issue, the first refresh token (if different) is rejected and the second is accepted iff the user is live |
| UploadService.ObjectKey | backend/src/modules/upload/upload.service.ts:39-40 | definition: "products/" + uuid + lower-cased extension; characterised by KeySegments |
| UploadService.UploadImage | backend/src/modules/upload/upload.service.ts:31-53 | InvalidFileType iff the MIME type is outside the five-entry list; FileTooLarge iff allowed and over 5·1024·1024 bytes; otherwise key = "products/" + uuid + lower-case extension and url = the configured public URL, or http://localhost:3900/luxe-beauty when none is set, + "/" + key |
| UploadService.SizeCapIsInclusive | backend/src/modules/upload/upload.service.ts:35-37 | exactly 5 MiB is accepted; one byte more is rejected |
| UploadService.TypeCheckedFirst | backend/src/modules/upload/upload.service.ts:32-37 | a bad-type oversized file reports the type error |
| UploadService.KeySegments | backend/src/modules/upload/upload.service.ts:39-40 | the key splits into exactly "products" and uuid + extension |
| UploadService.UploadedUrlGivesKey | backend/src/modules/upload/upload.service.ts:52 | with the same public-URL setting (both services default to the same URL), extracting the key from the returned URL at image removal gives back the returned key |
| CartStore.CountFold | frontend/src/stores/cart.store.ts:11-13 | definition: the reduce over quantities; characterised by CountFoldIsSum |
| CartStore.TotalFold | frontend/src/stores/cart.store.ts:15-20 | definition: the reduce over amounts; characterised by TotalFoldIsSum |
| CartStore.CountFoldIsSum | frontend/src/stores/cart.store.ts:11-13 | the reduce over quantities equals its start plus Σ quantity |
| CartStore.TotalFoldIsSum | frontend/src/stores/cart.store.ts:15-20 | the reduce over amounts equals its start plus Σ price·quantity |
| CartStore.LinesAtMostItems | frontend/src/stores/cart.store.ts:11-20 | with positive quantities the count is at least the number of lines and the total is non-negative |
| CartStore.Store.constructor | frontend/src/stores/cart.store.ts:8-9 | no cart, not loading |
| CartStore.Store.ItemCount | frontend/src/stores/cart.store.ts:11-13 | Σ quantity over the lines, 0 without a cart |
| CartStore.Store.Total | frontend/src/stores/cart.store.ts:15-20 | Σ price·quantity over the lines, 0 without a cart |
| CartStore.Store.FetchCart | frontend/src/stores/cart.store.ts:22-31 | signed out: nothing changes; otherwise the fetched cart replaces the current one and loading ends false whether or not the request failed |
| CartStore.Store.AddItem | frontend/src/stores/cart.store.ts:33-40 | signed out: the cart is unchanged; otherwise it becomes the server's answer |
| CartStore.Store.UpdateItem | frontend/src/stores/cart.store.ts:42-44 | the cart becomes the server's answer, and is unchanged when the request fails |
| CartStore.Store.RemoveItem | frontend/src/stores/cart.store.ts:46-48 | the cart becomes the server's answer, and is unchanged when the request fails |
| CartStore.Store.ClearCart | frontend/src/stores/cart.store.ts:50-52 | the cart is null, so the item count and the total are 0 |
| Router.Flatten | frontend/src/router/index.ts:7-139 | definition: the named routes of the nested table with merged meta; characterised by FlattenedTable and MetaOfIsTable |
| Router.MetaOf | frontend/src/router/index.ts:7-139 | definition: each route's merged meta; characterised by MetaOfIsTable and RouteFlags |
| Router.IsAuthenticated | frontend/src/stores/auth.store.ts:19 | definition: an access token is held and is not empty; characterised by Decide |
| Router.IsAdmin | frontend/src/stores/auth.store.ts:20 | definition: the loaded user's role is ADMIN; characterised by Decide |
| Router.Merge | frontend/src/router/index.ts:85-89 | a child's flag is set iff it or its parent sets it |
| Router.StorefrontEntries | frontend/src/router/index.ts:9-63 | the storefront layout yields its nine pages with only their own flags |
| Router.AdminEntries | frontend/src/router/index.ts:85-131 | every admin page inherits requiresAdmin from the admin layout |
| Router.TopLevelEntries | frontend/src/router/index.ts:66-82 | login, register and the callback keep their own flags |
| Router.FlattenedTable | frontend/src/router/index.ts:7-139 | the nested table flattens to the written-out list of named routes and merged flags |
| Router.MetaOfIsTable | frontend/src/router/index.ts:7-139 | each route appears exactly once in the flattened table, with the flags MetaOf gives it |
| Router.FlatTableFacts | frontend/src/router/index.ts:7-139 | each entry of the flattened table has the flags MetaOf gives its route and sits at that route's position |
| Router.FlatTableCovers | frontend/src/router/index.ts:7-139 | every route name appears in the flattened table |
| Router.RouteFlags | frontend/src/router/index.ts:34-88 | requiresAuth exactly on checkout, orders, order-detail and profile; guestOnly exactly on login and register; requiresAdmin exactly on the admin pages |
| Router.Decide | frontend/src/router/index.ts:150-161 | login-with-redirect iff auth is required and the user is signed out; home iff not that and (admin required but the user is not admin, or guest-only and signed in); otherwise proceed |
| Router.Guard | frontend/src/router/index.ts:142-161 | navigation proceeds iff none of the three checks applies to the route's merged flags |
| Router.SignInCheckedFirst | frontend/src/router/index.ts:150-156 | on a route needing both, a signed-out user gets the login redirect, not home |
| Router.ProtectedPagesForGuests | frontend/src/router/index.ts:150-152 | the protected storefront pages send a signed-out user to login with redirect = the full path |
| Router.AdminPagesForGuests | frontend/src/router/index.ts:154-156 | a non-admin on an admin page is sent home |
| Router.OpenRoutes | frontend/src/router/index.ts:150-161 | a route without flags is always reachable |
| Router.RedirectsSettle | frontend/src/router/index.ts:150-161 | the login and home targets are never redirected again, so redirects do not loop |
| Consistency.PriceSumIsSubtotal | frontend/src/stores/cart.store.ts:15-20 | the storefront's Σ price·quantity equals the order subtotal for the same lines and prices |
| Consistency.StorefrontTotalIsOrderTotal | backend/src/modules/orders/orders.service.ts:36-49 | when prices are unchanged, the placed order's subtotal and total equal the storefront cart total |
| Consistency.GrossAmountMatchesItems | backend/src/modules/payments/payments.service.ts:38-58 | for a placed order, the gateway's gross amount equals Σ item details |

## Left out

- Concurrency. The placement transaction is one sequential, atomic step. Its lines are processed in cart order, and an abort means the prior state is kept.
  - The database's isolation and the check-then-decrement race are not modelled.
  - Nor is the `Promise.all` interleaving of the per-line reads and writes. With one line per variant, the order does not change the result.
  - When several lines fail, the code reports whichever rejection comes first in time. The model reports the first failing line in cart order.
- Clearing the cart after placement is the last step of a successful placement. It runs outside the transaction in the code, and a failure of that step alone is not modelled.
- Number conversions. `Number(price)` and the other Decimal and number conversions are floating point; prices are natural numbers here, whole rupiah. On the storefront, the variant price string is already a number.
- Page and limit. The controllers' string-to-number parsing is not modelled, and page and limit are integers.
- Foreign calls become parameters or uninterpreted functions:
  - the payment gateway's `createTransaction` is a function from charge request to an optional session;
  - bcrypt hash and compare, and JWT signing, are the fields of `Crypto`; a token depends on the payload and the issuing time;
  - bcrypt salts each hash randomly, so the real hash is not a function of the password alone. `Crypto.hash` is a function, but no contract depends on two hashes of one password being equal;
  - `slugify` and `path.extname` are function parameters;
  - `randomUUID`, generated row ids and `new Date()` are parameters, and a new id is required to be unused;
  - configuration lookups are parameters. The storage public URL is an optional setting that falls back to the default URL in `ProductsService.PublicUrl`;
  - the object store's `PutObject` call is omitted.
- Read-only queries. These have no rule beyond the offset: the filters and `include` shapes of `findAll`, `findBySlug` and `findAllAdmin` in the product service, and `findByUser`, `findById` and `findAllAdmin` in the order service. Products' `create` is a plain insert and is not part of this model.
- Unique indexes. Only those the rules rely on are modelled: the user email index, the cart item ids, and the (cart, variant) pair as `LinesValid`. A Google link that would duplicate another user's Google id is accepted here, where the database would reject it.
- New user role. A new user's role is CUSTOMER, taken as the schema default, since the schema is not part of this model.
- Router session restore. The `fetchMe` call before the guard's checks, and the auth store's HTTP and local-storage actions, are not modelled. The guard takes the auth state after them.
- Result shapes. The rows returned with their `include` relations (variant, product, images) are the bare rows here.
- CartStore.Store.FetchCart: the intermediate `loading = true` state while the request is in flight is not stated. Only the final state is.
- OrdersService.ReserveSucceedsIff: stated only for carts with one line per variant, which every cart in the database is, by `CartService.CartsValid`.
- OrdersService.ReserveFailsAtFirstBadLine: stated only for carts with one line per variant, for the same reason.
- OrdersService.PlaceOrderStock: stated per line only for carts with one line per variant. For arbitrary lines, `PlaceOrder` gives the decrement as the total quantity per variant.
- AuthService.Login: requires the unique email index (`EmailsUnique`), which the database maintains. Without it, the code's `findFirst` may pick any live user with that email.
- AuthService.FindOrCreateGoogleUser: the `OR` lookup has no ordering. When several users match, the contract says only that some matching user is linked, not which one.
- AuthService.Refresh: the user id is a plain id. A body without `userId` would also drop the id filter, and then whichever live user holds the given token is found; that case is not modelled.
- AuthService.Refresh: a JSON body with `refreshToken: null` becomes an "is null" filter, accepting a live user with no stored token. That differs from the absent key that `None` models, and is not modelled.
- ProductsService.ProductPatch: only name, description, categoryId and isActive. The update body is an unvalidated partial object spread into the query (backend/src/modules/products/products.service.ts:91), so other columns (slug, deletedAt, ...) would be written as well; that is not modelled.
- Strings.ToLower: lower-cases ASCII letters only, not the full Unicode case mapping of `toLowerCase`.
