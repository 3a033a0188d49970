/** The database rows the services read and write, and the database itself: one map per table,
    keyed by primary key (carts by their unique `userId`). Ids are the database's generated strings;
    timestamps are natural numbers supplied by the caller's clock. */
module Store {
  import opened Wrappers

  type Id = string
  type Timestamp = nat

  /** A purchasable SKU. `price` is a whole number of rupiah; `stock` is the contested counter. */
  datatype Variant = Variant(
    productId: Id,
    sku: string,
    price: nat,
    stock: int,
    isActive: bool,
    deletedAt: Option<Timestamp>)

  /** One cart line. The database keeps at most one line per (cart, variant). */
  datatype CartItem = CartItem(id: Id, variantId: Id, quantity: int)

  /** A user's cart; there is at most one per user, so the table is keyed by user id. */
  datatype Cart = Cart(id: Id, items: seq<CartItem>)

  datatype OrderStatus = PENDING | PAID | SHIPPED | COMPLETED | CANCELLED

  datatype PaymentStatus = PaymentPending | PaymentPaid | PaymentFailed | PaymentExpired

  datatype ShippingAddress = ShippingAddress(
    fullName: string,
    phone: string,
    fullAddress: string,
    city: string,
    province: string,
    postalCode: string)

  /** A purchased line, with the variant's price copied at placement time. */
  datatype OrderItem = OrderItem(variantId: Id, quantity: int, price: nat)

  datatype Order = Order(
    id: Id,
    userId: Id,
    items: seq<OrderItem>,
    subtotal: int,
    shippingCost: int,
    total: int,
    shippingAddress: ShippingAddress,
    notes: Option<string>,
    status: OrderStatus,
    paymentStatus: PaymentStatus,
    paymentId: Option<string>,
    snapToken: Option<string>)

  datatype Product = Product(
    name: string,
    slug: string,
    description: Option<string>,
    categoryId: Id,
    isActive: bool,
    deletedAt: Option<Timestamp>)

  datatype ProductImage = ProductImage(productId: Id, url: string, alt: Option<string>, position: int)

  datatype Role = ADMIN | CUSTOMER

  /** `password` holds the bcrypt hash; it is absent for accounts created through Google. */
  datatype User = User(
    name: string,
    email: string,
    password: Option<string>,
    googleId: Option<string>,
    avatar: Option<string>,
    role: Role,
    refreshToken: Option<string>,
    deletedAt: Option<Timestamp>)

  /** The tables the core reads and writes. */
  class Database {
    var variants: map<Id, Variant>
    var carts: map<Id, Cart>
    var orders: map<Id, Order>
    var products: map<Id, Product>
    var images: map<Id, ProductImage>
    var users: map<Id, User>

    constructor ()
      ensures variants == map[] && carts == map[] && orders == map[]
      ensures products == map[] && images == map[] && users == map[]
    {
      variants, carts, orders := map[], map[], map[];
      products, images, users := map[], map[], map[];
    }
  }
}
