/** The product and order records (server/models/Product.js,
    server/models/Order.js) with the schema limits the routes rely on. */
module Records {
  import opened Wrappers
  import opened Strings

  /** A catalogue product. Money is whole rupees; `rating` is the average
      rating in hundredths of a star; `createdAt` is a millisecond time. */
  datatype Product = Product(
    name: string,
    description: string,
    price: int,
    category: string,
    images: seq<string>,
    thumbnail: Option<string>,
    stock: int,
    rating: int,
    sellerId: Id,
    sales: int,
    status: string,
    createdAt: int)

  const Categories: set<string> := {"Natural Products", "Stationery", "Worksheets", "Other"}

  const ProductStatuses: set<string> := {"active", "inactive", "archived"}

  /** The validators Mongoose runs on a product save. */
  predicate ProductSchemaValid(p: Product) {
    p.name != [] && |p.name| <= 120
    && p.description != [] && |p.description| <= 2000
    && p.price >= 0
    && p.category in Categories
    && p.stock >= 0
    && p.status in ProductStatuses
  }

  /** The stock limit (`min: 0`) over a whole collection. */
  predicate StockNonNegative(products: map<Id, Product>) {
    forall id :: id in products ==> products[id].stock >= 0
  }

  datatype OrderLine = OrderLine(
    productId: Id,
    sellerId: Id,
    name: string,
    price: int,
    quantity: int,
    image: Option<string>,
    total: int)

  /** The delivery address of an order; an absent part is the empty string. */
  datatype DeliveryAddress = DeliveryAddress(street: string, city: string, state: string, postalCode: string)

  datatype PaymentInfo = PaymentInfo(
    payMethod: string,
    status: string,
    razorpayPaymentId: Option<string>,
    razorpayOrderId: Option<string>)

  datatype Order = Order(
    orderId: string,
    userId: Id,
    customerName: string,
    customerEmail: string,
    customerPhone: string,
    items: seq<OrderLine>,
    subtotal: int,
    shipping: int,
    discount: int,
    total: int,
    deliveryAddress: DeliveryAddress,
    payment: PaymentInfo,
    status: string,
    notes: Option<string>)

  const PaymentMethods: set<string> := {"COD", "UPI", "Card", "Razorpay"}

  const OrderStatuses: set<string> :=
    {"pending", "confirmed", "processing", "shipped", "delivered", "cancelled", "returned"}

  /** The validators Mongoose runs when an order is created. */
  predicate OrderSchemaValid(o: Order) {
    (forall i :: 0 <= i < |o.items| ==> o.items[i].quantity >= 1)
    && o.subtotal >= 0 && o.shipping >= 0 && o.discount >= 0 && o.total >= 0
    && o.deliveryAddress.street != [] && o.deliveryAddress.city != []
    && o.deliveryAddress.state != [] && o.deliveryAddress.postalCode != []
    && o.payment.payMethod in PaymentMethods
    && o.status in OrderStatuses
  }

  /** Whether some stored order already uses this public order number. */
  predicate OrderIdTaken(orders: map<Id, Order>, orderId: string) {
    exists k :: k in orders && orders[k].orderId == orderId
  }
}
