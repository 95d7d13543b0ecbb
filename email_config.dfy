/** The order e-mail of src/email-config.js: the item summary, the totals
    helper, and the fields `submitOrderToGmail` hands to the mail service.
    The service call, its configuration and the formatted timestamp are not
    part of this model; the clock is the parameter `now`. */
module EmailConfig {
  import opened Wrappers
  import opened Strings
  import opened Cart
  import Pricing
  import OrderRoutes
  import DemoStore

  /** One line of `generateOrderSummary`: name, quantity and line amount. */
  function SummaryLine(l: CartLine): (line: string)
    ensures |line| > |l.item.name| && line[..|l.item.name|] == l.item.name
  {
    l.item.name + " (x" + IntToString(l.quantity) + ") \U{20B9}" + IntToString(l.item.price * l.quantity)
  }

  /** `generateOrderSummary`: one line per cart line, in cart order. */
  function OrderSummary(cart: seq<CartLine>): (lines: seq<string>)
    ensures |lines| == |cart|
    ensures forall i :: 0 <= i < |cart| ==> lines[i] == SummaryLine(cart[i])
  {
    seq(|cart|, i requires 0 <= i < |cart| => SummaryLine(cart[i]))
  }

  /** A line reads `name (xQ) ₹A`: the product name, the quantity after
      ` (x`, which reads back as the quantity (with its sign), then `) ₹`
      and the line amount, which reads back as that amount. */
  lemma SummaryLineReadable(l: CartLine)
    requires l.item.price * l.quantity >= 0
    ensures var line := SummaryLine(l);
      var n := |l.item.name|;
      var qty := IntToString(l.quantity);
      var amount := NatToString(l.item.price * l.quantity);
      |line| == n + 3 + |qty| + 3 + |amount|
      && line[..n] == l.item.name
      && line[n..n + 3] == " (x"
      && (l.quantity >= 0 ==> ParseDigits(line[n + 3..n + 3 + |qty|]) == l.quantity)
      && (l.quantity < 0 ==> line[n + 3] == '-' && ParseDigits(line[n + 4..n + 3 + |qty|]) == -l.quantity)
      && line[n + 3 + |qty|..n + 6 + |qty|] == ") \U{20B9}"
      && ParseDigits(line[n + 6 + |qty|..]) == l.item.price * l.quantity
  {
    var n := |l.item.name|;
    var qty := IntToString(l.quantity);
    var amount := NatToString(l.item.price * l.quantity);
    var line := l.item.name + " (x" + qty + ") \U{20B9}" + amount;
    assert SummaryLine(l) == line;
    assert line[n..n + 3] == " (x";
    assert line[n + 3..n + 3 + |qty|] == qty;
    assert line[n + 3 + |qty|..n + 6 + |qty|] == ") \U{20B9}";
    assert line[n + 6 + |qty|..] == amount;
    if l.quantity >= 0 {
      ParseNatToString(l.quantity);
    } else {
      assert line[n + 4..n + 3 + |qty|] == NatToString(-l.quantity);
      ParseNatToString(-l.quantity);
    }
    ParseNatToString(l.item.price * l.quantity);
  }


  /** Adding a product the cart did not hold adds one line at the end. */
  lemma SummaryAfterAdd(cart: seq<CartLine>, products: seq<Item>, id: int)
    requires FindItem(products, id).Some? && !HasLine(cart, id)
    ensures OrderSummary(AddLine(cart, products, id))
         == OrderSummary(cart) + [SummaryLine(CartLine(FindItem(products, id).value, 1))]
  {
  }

  /** `calculateOrderTotals`, with its defaults of 50 shipping and no
      discount for arguments not given. */
  function CalculateOrderTotals(cart: seq<CartLine>, shipping: Option<int>, discount: Option<int>): (t: Pricing.Totals)
    ensures t.subtotal == Total(cart)
    ensures t.shipping == shipping.GetOr(50) && t.discount == discount.GetOr(0)
    ensures t.total == t.subtotal + t.shipping - t.discount
  {
    var subtotal := Total(cart);
    var s := shipping.GetOr(50);
    var d := discount.GetOr(0);
    Pricing.Totals(subtotal, s, d, subtotal + s - d)
  }

  /** Given the demo store's shipping and discount, the helper's total is
      the amount the store charges; with the defaults it is the cart total
      plus 50. */
  lemma TotalsAgreeWithStore(cart: seq<CartLine>)
    ensures CalculateOrderTotals(cart, Some(DemoStore.Shipping(cart)), Some(DemoStore.Discount(cart))).total
         == DemoStore.FinalTotal(cart)
    ensures CalculateOrderTotals(cart, None, None).total == Total(cart) + 50
    ensures WellFormed(cart) && PricesNonNegative(cart) ==>
      CalculateOrderTotals(cart, None, None).total >= 50
  {
    if WellFormed(cart) && PricesNonNegative(cart) {
      WellFormedBounds(cart);
    }
  }

  /** An amount field of the e-mail: the number, or the default text put
      in place of a falsy one. */
  datatype Shown = Amount(n: int) | Label(text: string)

  /** The argument of `submitOrderToGmail`. */
  datatype OrderData = OrderData(
    customerName: Option<string>,
    customerEmail: Option<string>,
    customerPhone: Option<string>,
    customerAddress: Option<string>,
    items: seq<string>,
    subtotal: int,
    shipping: int,
    discount: int,
    total: int,
    paymentMethod: Option<string>,
    notes: Option<string>)

  /** The fields sent to the mail service. */
  datatype EmailFields = EmailFields(
    orderId: string,
    customerName: string,
    customerEmail: Option<string>,
    customerPhone: Option<string>,
    customerAddress: string,
    items: string,
    subtotal: int,
    shipping: Shown,
    discount: Shown,
    total: int,
    paymentMethod: string,
    notes: string)

  /** `items.join('\n')`. */
  function JoinLines(items: seq<string>): (s: string)
    ensures items == [] ==> s == []
  {
    if items == [] then [] else Join(items, '\n')
  }

  /** Lines free of line breaks can be read back from the joined text. */
  lemma LinesRecoverable(items: seq<string>)
    requires items != []
    requires forall k :: 0 <= k < |items| ==> '\n' !in items[k]
    ensures Split(JoinLines(items), '\n') == items
  {
    SplitJoin(items, '\n');
  }

  /** `value || fallback` on an optional string. */
  function OrElse(v: Option<string>, fallback: string): (r: string)
    ensures Truthy(v) ==> r == v.value
    ensures !Truthy(v) ==> r == fallback
  {
    if Truthy(v) then v.value else fallback
  }

  /** `amount || fallback` on a number. */
  function ShownOr(n: int, fallback: string): (r: Shown)
    ensures n != 0 ==> r == Amount(n)
    ensures n == 0 ==> r == Label(fallback)
  {
    if n != 0 then Amount(n) else Label(fallback)
  }

  /** The formatted data of `submitOrderToGmail` at time `now`: the order id
      and every falsy field replaced by its default. */
  function Formatted(d: OrderData, now: nat): (e: EmailFields)
    ensures e.orderId == OrderRoutes.OrderNumber(now)
    ensures e.customerEmail == d.customerEmail && e.customerPhone == d.customerPhone
    ensures e.subtotal == d.subtotal && e.total == d.total
    ensures Truthy(d.customerName) ==> e.customerName == d.customerName.value
    ensures !Truthy(d.customerName) ==> e.customerName == "Guest"
    ensures Truthy(d.customerAddress) ==> e.customerAddress == d.customerAddress.value
    ensures !Truthy(d.customerAddress) ==> e.customerAddress == "Not provided"
    ensures Truthy(d.paymentMethod) ==> e.paymentMethod == d.paymentMethod.value
    ensures !Truthy(d.paymentMethod) ==> e.paymentMethod == "COD"
    ensures Truthy(d.notes) ==> e.notes == d.notes.value
    ensures !Truthy(d.notes) ==> e.notes == []
    ensures d.shipping != 0 ==> e.shipping == Amount(d.shipping)
    ensures d.shipping == 0 ==> e.shipping == Label("\U{20B9}50")
    ensures d.discount != 0 ==> e.discount == Amount(d.discount)
    ensures d.discount == 0 ==> e.discount == Label("\U{20B9}0")
    ensures d.items == [] ==> e.items == []
    ensures d.items != [] && (forall k :: 0 <= k < |d.items| ==> '\n' !in d.items[k]) ==> Split(e.items, '\n') == d.items
  {
    var e := EmailFields(OrderRoutes.OrderNumber(now),
                         OrElse(d.customerName, "Guest"),
                         d.customerEmail,
                         d.customerPhone,
                         OrElse(d.customerAddress, "Not provided"),
                         JoinLines(d.items),
                         d.subtotal,
                         ShownOr(d.shipping, "\U{20B9}50"),
                         ShownOr(d.discount, "\U{20B9}0"),
                         d.total,
                         OrElse(d.paymentMethod, "COD"),
                OrElse(d.notes, ""));
    if d.items != [] && (forall k :: 0 <= k < |d.items| ==> '\n' !in d.items[k]) then
      LinesRecoverable(d.items);
      e
    else
      e
  }

  /** The checkout form `placeOrder` is given. */
  datatype CustomerForm = CustomerForm(
    name: Option<string>,
    email: Option<string>,
    phone: Option<string>,
    address: Option<string>,
    paymentMethod: Option<string>,
    notes: Option<string>)

  /** The data the demo store's `placeOrder` submits for its cart. */
  function StoreOrderData(f: CustomerForm, cart: seq<CartLine>): (d: OrderData)
    ensures d.items == OrderSummary(cart) && d.total == DemoStore.FinalTotal(cart)
  {
    OrderData(f.name, f.email, f.phone, f.address, OrderSummary(cart), Total(cart),
              DemoStore.Shipping(cart), DemoStore.Discount(cart), DemoStore.FinalTotal(cart),
              f.paymentMethod, f.notes)
  }

  /** The e-mail for an order the demo store places: a 9-character id once
      the clock reads six digits, the items readable line by line, the
      amount the store charges, shipping shown as 50, the discount shown as
      a number above the bulk threshold and as the zero label below it, and
      the defaults for a missing name or payment method. */
  lemma PlacedOrderEmail(f: CustomerForm, cart: seq<CartLine>, now: nat)
    requires cart != []
    requires forall i :: 0 <= i < |cart| ==> '\n' !in SummaryLine(cart[i])
    ensures var e := Formatted(StoreOrderData(f, cart), now);
      (now >= 100000 ==> |e.orderId| == 9)
      && Split(e.items, '\n') == OrderSummary(cart)
      && e.total == DemoStore.FinalTotal(cart)
      && e.shipping == Amount(50)
      && (Total(cart) > 1000 ==> e.discount == Amount(Pricing.BulkDiscount(Total(cart))))
      && (Total(cart) <= 1000 ==> e.discount == Label("\U{20B9}0"))
      && (!Truthy(f.name) ==> e.customerName == "Guest")
      && (!Truthy(f.paymentMethod) ==> e.paymentMethod == "COD")
  {
    var lines := OrderSummary(cart);
    LinesRecoverable(lines);
  }
}
