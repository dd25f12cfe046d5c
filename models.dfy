/**
  Record shapes of the shop's database tables (backend/models.py) and the
  column defaults the handlers rely on.

  Money is an integer number of rupees: Product.price is an Integer column,
  and every total the server computes is a sum of price times quantity.
  Timestamps (created_at) are not modelled; offer expiry is a plain integer
  instant compared against a `now` supplied by the caller.
*/
module Models {
  import opened Common

  // Column defaults.
  const DefaultOrderStatus: string := "Pending"
  const DefaultPaymentMethod: string := "Cash on Delivery"
  const DefaultRole: string := "user"
  const DefaultDiscountPercent: int := 0
  const DefaultStock: int := 0
  const DefaultCategory: string := "Dairy"
  const DefaultCartQuantity: int := 1
  const DefaultOfferActive: bool := true

  datatype User = User(
    id: int,
    name: string,
    email: string,
    passwordHash: string,
    role: string)

  datatype Product = Product(
    id: int,
    name: string,
    price: int,
    originalPrice: int,
    discountPercent: int,
    unit: Option<string>,
    stock: int,
    image: Option<string>,
    category: string)

  /** One line of a user's cart (table "carts"). */
  datatype CartLine = CartLine(id: int, userId: int, productId: int, quantity: int)

  /** Billing and shipping columns of an order; each may be NULL. */
  datatype Billing = Billing(
    customerName: Option<string>,
    phone: Option<string>,
    address: Option<string>,
    city: Option<string>,
    pincode: Option<string>)

  datatype Order = Order(
    id: int,
    userId: int,
    totalAmount: int,
    status: string,
    billing: Billing,
    paymentMethod: string,
    invoiceNo: string)

  /** A line of a placed order, with the unit price as it was when the order was placed. */
  datatype OrderItem = OrderItem(id: int, orderId: int, productId: int, quantity: int, price: int)

  datatype WishRow = WishRow(id: int, userId: int, productId: int)

  datatype Offer = Offer(
    id: int,
    title: string,
    code: string,
    discountType: string,
    discountValue: real,
    minAmount: real,
    expiry: int,
    active: bool)

  /** The whole database as a value. */
  datatype Tables = Tables(
    users: seq<User>,
    products: seq<Product>,
    carts: seq<CartLine>,
    orders: seq<Order>,
    items: seq<OrderItem>,
    wishlist: seq<WishRow>,
    offers: seq<Offer>)

  /** A field of a request body: absent, convertible by int(...) to a value, or not convertible. */
  datatype Input<T> = Missing | Value(v: T) | Unparsable

  /** A handler's answer: an HTTP status with either a payload or an error message. */
  datatype Reply<T> = Ok(code: int, body: T) | Err(code: int, message: string)

  /** What Flask answers when a handler raises an exception it does not catch. */
  const ServerError: string := "Internal Server Error"
}
