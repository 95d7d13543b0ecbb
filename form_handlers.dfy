/** The form handlers of src/form-handlers.js: the checkout handler's
    validation gate, address split, order payload and payment choice, the
    seller-application guard, and the input guards of the sign-in forms.
    What the handlers then do (API calls, the payment window, toasts, form
    resets) is not part of this model. */
module FormHandlers {
  import opened Wrappers
  import opened Strings
  import opened Cart
  import FormValidator
  import OrderRoutes
  import PaymentRoutes

  /** `deliveryAddress` of the order request. */
  datatype DeliveryAddress = DeliveryAddress(street: string, city: string, state: string, postalCode: string)

  /** `parts[k] || ''`: the k-th piece, or nothing past the end. */
  function Piece(parts: seq<string>, k: nat): (p: string)
    ensures k < |parts| ==> p == parts[k]
    ensures k >= |parts| ==> p == []
  {
    if k < |parts| then parts[k] else []
  }

  /** The address split at commas: street before the first comma, then the
      next three pieces, none of them trimmed. */
  function SplitAddress(address: string): (a: DeliveryAddress)
    ensures a.street <= address && ',' !in a.street
    ensures ',' in address ==> address[|a.street|] == ','
    ensures ',' !in address ==> a == DeliveryAddress(address, [], [], [])
    ensures ',' !in a.city && ',' !in a.state && ',' !in a.postalCode
  {
    var parts := Split(address, ',');
    SplitHead(address, ',');
    if ',' !in address then SplitWithoutSeparator(address, ','); DeliveryAddress(parts[0], [], [], [])
    else DeliveryAddress(parts[0], Piece(parts, 1), Piece(parts, 2), Piece(parts, 3))
  }

  /** An address written as four comma-free pieces splits back into them,
      spaces and all. */
  lemma SplitAddressRoundTrip(a: DeliveryAddress)
    requires ',' !in a.street && ',' !in a.city && ',' !in a.state && ',' !in a.postalCode
    ensures SplitAddress(a.street + "," + a.city + "," + a.state + "," + a.postalCode) == a
  {
    var parts := [a.street, a.city, a.state, a.postalCode];
    var s := a.street + "," + a.city + "," + a.state + "," + a.postalCode;
    assert Join(parts[3..], ',') == a.postalCode;
    assert Join(parts[2..], ',') == a.state + "," + a.postalCode;
    assert Join(parts[1..], ',') == a.city + "," + a.state + "," + a.postalCode;
    assert Join(parts, ',') == s;
    SplitJoin(parts, ',');
    assert s[|a.street|] == ',';
  }

  /** Whatever the number of comma-free pieces an address is typed in, the
      street is the first piece, city, state and postal code the second,
      third and fourth or nothing when there are fewer, and any further
      pieces are dropped. */
  lemma SplitAddressPieces(parts: seq<string>)
    requires |parts| >= 1
    requires forall k :: 0 <= k < |parts| ==> ',' !in parts[k]
    ensures SplitAddress(Join(parts, ',')) == DeliveryAddress(parts[0], Piece(parts, 1), Piece(parts, 2), Piece(parts, 3))
  {
    SplitJoin(parts, ',');
    if |parts| > 1 {
      assert Join(parts, ',')[|parts[0]|] == ',';
    } else {
      assert Join(parts, ',') == parts[0];
    }
  }

  /** The address fields as the order route receives them. */
  function ServerAddress(a: DeliveryAddress): (r: OrderRoutes.AddressInput)
    ensures r.street == Some(a.street) && r.city == Some(a.city)
    ensures r.state == Some(a.state) && r.postalCode == Some(a.postalCode)
  {
    OrderRoutes.AddressInput(Some(a.street), Some(a.city), Some(a.state), Some(a.postalCode))
  }

  /** The order route accepts the split address exactly when street and
      city are non-empty, so an address typed without a comma is refused. */
  lemma ServerAddressCheck(address: string)
    ensures var req := OrderRoutes.OrderRequest(None, Some(ServerAddress(SplitAddress(address))), None, None);
      OrderRoutes.AddressGiven(req) <==> SplitAddress(address).street != [] && SplitAddress(address).city != []
    ensures ',' !in address ==>
      !OrderRoutes.AddressGiven(OrderRoutes.OrderRequest(None, Some(ServerAddress(SplitAddress(address))), None, None))
  {
  }

  /** The checkout form's fields. */
  datatype CheckoutForm = CheckoutForm(
    name: Option<string>,
    email: Option<string>,
    phone: Option<string>,
    address: Option<string>,
    paymentMethod: Option<string>,
    notes: Option<string>)

  /** `{productId, quantity}` of one cart line. */
  datatype PayloadItem = PayloadItem(productId: int, quantity: int)

  /** The body of `api.createOrder`. */
  datatype OrderPayload = OrderPayload(
    items: seq<PayloadItem>,
    deliveryAddress: DeliveryAddress,
    paymentMethod: Option<string>,
    notes: Option<string>)

  /** The fields the order form validator reads. */
  function Validated(f: CheckoutForm): FormValidator.OrderForm {
    FormValidator.OrderForm(f.name, f.email, f.phone, f.address)
  }

  function PayloadItems(cart: seq<CartLine>): (items: seq<PayloadItem>)
    ensures |items| == |cart|
    ensures forall i :: 0 <= i < |cart| ==> items[i] == PayloadItem(cart[i].item.id, cart[i].quantity)
  {
    seq(|cart|, i requires 0 <= i < |cart| => PayloadItem(cart[i].item.id, cart[i].quantity))
  }

  /** `handleCheckout` up to the order request: any validation error stops
      it; otherwise the cart's lines and the split address are sent. */
  function CheckoutRequest(f: CheckoutForm, cart: seq<CartLine>): (r: Option<OrderPayload>)
    ensures r.None? <==> FormValidator.OrderFormErrors(Validated(f)) != {}
    ensures r.Some? ==> f.address.Some? && r.value.deliveryAddress == SplitAddress(f.address.value)
    ensures r.Some? ==> r.value.items == PayloadItems(cart)
    ensures r.Some? ==> r.value.paymentMethod == f.paymentMethod && r.value.notes == f.notes
    ensures r.Some? ==> FormValidator.IsEmail(f.email) && FormValidator.IsPhone(f.phone)
  {
    FormValidator.OrderFormErrorsMeaning(Validated(f));
    if FormValidator.OrderFormErrors(Validated(f)) != {} then None
    else Some(OrderPayload(PayloadItems(cart), SplitAddress(f.address.GetOr([])), f.paymentMethod, f.notes))
  }

  /** What follows a created order. */
  datatype AfterOrder = ClearCartNow | PayOnline(amount: int, currency: string)

  /** Cash on delivery empties the cart at once; every other method, a
      missing one included, opens the payment window for the order total in
      paise. */
  function NextStep(paymentMethod: Option<string>, total: int): (s: AfterOrder)
    ensures s.ClearCartNow? <==> paymentMethod == Some("COD")
    ensures s.PayOnline? ==> s == PayOnline(total * 100, "INR")
  {
    if paymentMethod != Some("COD") then PayOnline(total * 100, "INR") else ClearCartNow
  }

  /** The payment window asks for the amount the server's gateway order
      was created with. */
  lemma PaymentAmountMatchesGateway(paymentMethod: Option<string>, orderId: string, total: int)
    requires paymentMethod != Some("COD")
    ensures NextStep(paymentMethod, total).amount == PaymentRoutes.GatewayOptionsFor(orderId, total).amount
    ensures NextStep(paymentMethod, total).currency == PaymentRoutes.GatewayOptionsFor(orderId, total).currency
  {
  }

  /** A local guard's verdict. */
  datatype Guard = Proceed | Refuse(message: string)

  /** `handleSellerApplication`: business name, description and e-mail are
      all required. */
  function SellerApplicationGuard(businessName: Option<string>, description: Option<string>, email: Option<string>): (g: Guard)
    ensures g == Proceed <==> Truthy(businessName) && Truthy(description) && Truthy(email)
    ensures g != Proceed ==> g == Refuse("Please fill all required fields")
  {
    if !Truthy(businessName) || !Truthy(description) || !Truthy(email) then Refuse("Please fill all required fields")
    else Proceed
  }

  /** `handleAuthRequestOtp`: an identifier is required. */
  function OtpRequestGuard(identifier: Option<string>): (g: Guard)
    ensures g == Proceed <==> Truthy(identifier)
    ensures g != Proceed ==> g == Refuse("Please enter your email or phone number")
  {
    if !Truthy(identifier) then Refuse("Please enter your email or phone number") else Proceed
  }

  /** `handleAuthVerifyOtp`: a code is required. */
  function OtpVerifyGuard(otpCode: Option<string>): (g: Guard)
    ensures g == Proceed <==> Truthy(otpCode)
    ensures g != Proceed ==> g == Refuse("Please enter the OTP code")
  {
    if !Truthy(otpCode) then Refuse("Please enter the OTP code") else Proceed
  }

  /** `handleAuthSetKey`: both inputs first, then that they agree. */
  function SetKeyGuard(key: Option<string>, keyConfirm: Option<string>): (g: Guard)
    ensures g == Proceed <==> Truthy(key) && key == keyConfirm
    ensures !Truthy(key) || !Truthy(keyConfirm) ==> g == Refuse("Please enter and confirm your key")
    ensures Truthy(key) && Truthy(keyConfirm) && key != keyConfirm ==> g == Refuse("Keys do not match")
  {
    if !Truthy(key) || !Truthy(keyConfirm) then Refuse("Please enter and confirm your key")
    else if key != keyConfirm then Refuse("Keys do not match")
    else Proceed
  }

  /** `handleAuthLoginWithKey`: identifier and key are both required. */
  function KeyLoginGuard(identifier: Option<string>, key: Option<string>): (g: Guard)
    ensures g == Proceed <==> Truthy(identifier) && Truthy(key)
    ensures g != Proceed ==> g == Refuse("Identifier and key are required")
  {
    if !Truthy(identifier) || !Truthy(key) then Refuse("Identifier and key are required") else Proceed
  }
}
