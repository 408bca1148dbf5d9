/**
 * The records that the server stores and the storefront receives as JSON.
 * Fields follow the documents the controllers read and write.
 */
module Models {
  import opened Wrappers

  /** A document identifier (`_id`, serialised as a string). */
  type Id = string

  /** A review embedded in a product. */
  datatype Review = Review(id: Id, user: Id, name: string, rating: real, comment: string)

  /** The key reviews are removed by. */
  function ReviewId(rv: Review): Id { rv.id }

  /** A stored image reference. */
  datatype Image = Image(publicId: string, url: string)

  /** A product with its embedded reviews and the two derived review fields. */
  datatype Product = Product(
    id: Id,
    name: string,
    description: string,
    price: real,
    category: string,
    stock: int,
    images: seq<Image>,
    reviews: seq<Review>,
    ratings: real,
    numberOfReviews: int,
    user: Id)

  /** The shipping address snapshot, kept verbatim as submitted. */
  datatype ShippingInfo = ShippingInfo(fields: map<string, string>)

  /** A line item: a snapshot of the product at purchase time. */
  datatype OrderItem = OrderItem(product: Id, name: string, price: real, image: string, quantity: int)

  /** The payment reference stored with an order. */
  datatype PaymentInfo = PaymentInfo(id: string, status: string)

  /** The body of an order submission; prices are the client's figures. */
  datatype OrderSubmission = OrderSubmission(
    shippingInfo: ShippingInfo,
    orderItems: seq<OrderItem>,
    paymentInfo: PaymentInfo,
    itemsPrice: real,
    taxPrice: real,
    shippingPrice: real,
    totalPrice: real)

  /** A stored order. `orderStatus` is whatever string the last update sent. */
  datatype Order = Order(
    id: Id,
    shippingInfo: ShippingInfo,
    orderItems: seq<OrderItem>,
    paymentInfo: PaymentInfo,
    itemsPrice: real,
    taxPrice: real,
    shippingPrice: real,
    totalPrice: real,
    orderStatus: string,
    paidAt: int,
    deliveredAt: Option<int>,
    user: Id)

  /** A user as the storefront sees it; `name` and `email` may be missing. */
  datatype User = User(id: Id, name: Option<string>, email: Option<string>, role: string)

  /** A cart entry: the product snapshot fetched when it was added, and a quantity. */
  datatype CartItem = CartItem(product: Id, name: string, price: real, image: string, stock: int, quantity: int)

  /** The status that makes an order immutable and deletable. */
  const Delivered: string := "Delivered"
}
