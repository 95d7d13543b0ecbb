/** The payment routes of server/routes/payments.js. The gateway call and the
    keyed hash are the caller-supplied `gateway` and `hmac`: `hmac(key, m)`
    stands for the hex HMAC-SHA256 digest of `m` under `key`. */
module PaymentRoutes {
  import opened Wrappers
  import opened Strings
  import opened Records
  import Db

  /** The order options sent to the payment gateway. */
  datatype GatewayOptions = GatewayOptions(amount: int, currency: string, receipt: string, paymentCapture: int)

  /** The amount moves from rupees to paise; the store's order id is the receipt. */
  function GatewayOptionsFor(orderId: string, amount: int): (o: GatewayOptions)
    ensures o.amount == 100 * amount && o.amount / 100 == amount && o.amount % 100 == 0
    ensures o.currency == "INR" && o.receipt == orderId && o.paymentCapture == 1
  {
    GatewayOptions(amount * 100, "INR", orderId, 1)
  }

  /** POST /api/payments/razorpay/create: the gateway's answer is passed on,
      and a failing gateway call gives 500. */
  function CreatePaymentOrder(orderId: string, amount: int, gateway: GatewayOptions -> Option<string>): (a: Answer<string>)
    ensures a.data == gateway(GatewayOptionsFor(orderId, amount))
    ensures a.data.Some? ==> a.reply.status == 200
    ensures a.data.None? ==> a.reply == Reply(500, "Failed to create payment order")
  {
    match gateway(GatewayOptionsFor(orderId, amount))
    case None => Answer(Reply(500, "Failed to create payment order"), None)
    case Some(g) => Answer(Reply(200, "OK"), Some(g))
  }

  /** The message whose signature the gateway sends: both ids joined by `|`. */
  function SignedMessage(gatewayOrderId: string, paymentId: string): (m: string)
    ensures |m| == |gatewayOrderId| + 1 + |paymentId| && m[|gatewayOrderId|] == '|'
    ensures m[..|gatewayOrderId|] == gatewayOrderId && m[|gatewayOrderId| + 1..] == paymentId
  {
    gatewayOrderId + "|" + paymentId
  }

  /** When the gateway's order id has no `|`, splitting the message at `|`
      gives that id first and then the pieces of the payment id. */
  lemma SignedMessageSplits(gatewayOrderId: string, paymentId: string)
    requires '|' !in gatewayOrderId
    ensures Split(SignedMessage(gatewayOrderId, paymentId), '|') == [gatewayOrderId] + Split(paymentId, '|')
  {
    assert SignedMessage(gatewayOrderId, paymentId) == gatewayOrderId + ['|'] + paymentId;
    SplitAtFirst(gatewayOrderId, paymentId, '|');
  }

  /** For ids without `|`, the message determines both ids. */
  lemma SignedMessageInjective(o1: string, p1: string, o2: string, p2: string)
    requires '|' !in o1 && '|' !in o2
    requires SignedMessage(o1, p1) == SignedMessage(o2, p2)
    ensures o1 == o2 && p1 == p2
  {
    SignedMessageSplits(o1, p1);
    SignedMessageSplits(o2, p2);
    assert ([o1] + Split(p1, '|'))[0] == o1;
    assert o1 == o2;
  }

  /** Without that restriction two different id pairs sign the same message. */
  lemma SignedMessageAmbiguous()
    ensures SignedMessage("a|b", "c") == SignedMessage("a", "b|c")
  {
  }

  predicate SignatureValid(secret: string, gatewayOrderId: string, paymentId: string, signature: string,
                           hmac: (string, string) -> string) {
    hmac(secret, SignedMessage(gatewayOrderId, paymentId)) == signature
  }

  /** The order after a verified payment: both gateway ids recorded, the
      payment completed and the order confirmed, whatever its status was. */
  function Confirmed(o: Order, gatewayOrderId: string, paymentId: string): (r: Order)
    ensures r.status == "confirmed" && r.payment.status == "completed"
    ensures r.payment.razorpayPaymentId == Some(paymentId) && r.payment.razorpayOrderId == Some(gatewayOrderId)
    ensures r.payment.payMethod == o.payment.payMethod
    ensures r.(status := o.status, payment := o.payment) == o
  {
    o.(payment := o.payment.(razorpayPaymentId := Some(paymentId), razorpayOrderId := Some(gatewayOrderId),
                             status := "completed"),
       status := "confirmed")
  }

  /** POST /api/payments/razorpay/verify. A missing order makes the field
      writes throw. Nothing ties the gateway ids to the stored order. */
  method VerifyPayment(db: Db.Database, gatewayOrderId: string, paymentId: string, signature: string, orderKey: Id,
                       secret: string, hmac: (string, string) -> string)
    returns (reply: Reply, data: Option<Order>)
    modifies db
    ensures db.products == old(db.products) && db.users == old(db.users)
    ensures !SignatureValid(secret, gatewayOrderId, paymentId, signature, hmac) ==>
      reply == Reply(400, "Payment signature verification failed") && db.orders == old(db.orders) && data.None?
    ensures SignatureValid(secret, gatewayOrderId, paymentId, signature, hmac) && orderKey !in old(db.orders) ==>
      reply == Reply(500, "Payment verification failed") && db.orders == old(db.orders) && data.None?
    ensures SignatureValid(secret, gatewayOrderId, paymentId, signature, hmac) && orderKey in old(db.orders) ==>
      reply == Reply(200, "Payment verified successfully")
      && db.orders == old(db.orders)[orderKey := Confirmed(old(db.orders)[orderKey], gatewayOrderId, paymentId)]
      && data == Some(db.orders[orderKey])
  {
    data := None;
    var expected := hmac(secret, SignedMessage(gatewayOrderId, paymentId));
    if expected != signature {
      reply := Reply(400, "Payment signature verification failed");
      return;
    }
    if orderKey !in db.orders {
      reply := Reply(500, "Payment verification failed");
      return;
    }
    var order := db.orders[orderKey];
    var payment := order.payment.(razorpayPaymentId := Some(paymentId), razorpayOrderId := Some(gatewayOrderId));
    payment := payment.(status := "completed");
    order := order.(payment := payment, status := "confirmed");
    db.orders := db.orders[orderKey := order];
    reply := Reply(200, "Payment verified successfully");
    data := Some(order);
  }
}
