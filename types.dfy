/** The records shared by the storefront (types/index.ts) and the JavaScript
    notions of "absent" and "falsy" that the handlers test them with. */
module Types {

  /** A field that may be absent from a document or a request body
      (`undefined` / `null` in the source). */
  datatype Option<+T> = None | Some(value: T)

  /** JavaScript truthiness of an optional string: absent and "" are falsy. */
  predicate Truthy(s: Option<string>)
  {
    s.Some? && s.value != ""
  }

  /** An opaque clock reading (`new Date()`, `Timestamp.now()`). */
  type Timestamp = nat

  datatype PaymentMethod = PayNow | PayOnDelivery
  datatype PaymentStatus = Pending | Paid
  datatype DeliveryStatus = DeliveryPending | Delivered

  /** One line of an order as the checkout sends it. */
  datatype OrderItem = OrderItem(productId: string, qty: int, price: int)

  /** An order document together with its document id. `deliveryStatus` is
      optional because neither checkout route writes it. */
  datatype Order = Order(
    id: string,
    items: seq<OrderItem>,
    name: string,
    email: string,
    address: Option<string>,
    paymentMethod: PaymentMethod,
    paymentStatus: PaymentStatus,
    deliveryStatus: Option<DeliveryStatus>,
    deliveredAt: Option<Timestamp>,
    totalAmount: int,
    paystackRef: Option<string>,
    offlineReference: Option<string>,
    deliveryPosCode: Option<string>,
    deliveryTransferCode: Option<string>,
    redemptionCode: string,
    createdAt: Timestamp)

  /** A catalogue product as the product page receives it. */
  datatype Product = Product(
    id: string,
    name: string,
    price: int,
    description: string,
    imageUrl: string,
    storeName: Option<string>)

  /** One line of the shopping cart. */
  datatype CartItem = CartItem(productId: string, name: string, price: int, imageUrl: string, quantity: int)
}
