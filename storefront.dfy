/** The storefront store of public/app.js: catalogue filtering, the cart,
    tiered shipping, promo codes and checkout validation. The store is a
    class whose fields the handlers reassign. Toasts, modals, form resets and
    the order upload are not part of this model; whether the upload, or its
    fallback to local storage, succeeds is a parameter of the checkout. */
module Storefront {
  import opened Wrappers
  import opened Strings
  import opened Cart
  import opened Sorting
  import Pricing
  import Validators

  /** `store.filters`. */
  datatype Filters = Filters(category: string, search: string, sortBy: string)

  const DefaultFilters := Filters("all", "", "relevance")

  /** The category filter; `all` keeps every product. */
  predicate InCategory(category: string, p: Item) {
    category == "all" || p.category == category
  }

  /** The search filter: any search that trims to nothing keeps every
      product; otherwise the lower-cased search, untrimmed, must occur in the
      lower-cased name, description or category. */
  function SearchHit(search: string, p: Item): (hit: bool)
    ensures hit <==> Trim(search) == [] || ContainsIgnoringCase(p.name, search)
                     || ContainsIgnoringCase(p.description, search) || ContainsIgnoringCase(p.category, search)
    ensures Contains(p.name, search) || Contains(p.description, search) || Contains(p.category, search) ==> hit
  {
    ContainsLower(p.name, search);
    ContainsLower(p.description, search);
    ContainsLower(p.category, search);
    ContainsLowerIff(p.name, search);
    ContainsLowerIff(p.description, search);
    ContainsLowerIff(p.category, search);
    Trim(search) == []
    || Contains(ToLower(p.name), ToLower(search))
    || Contains(ToLower(p.description), ToLower(search))
    || Contains(ToLower(p.category), ToLower(search))
  }

  /** The search is blind to case: a term finds what its lower-cased form
      finds, and lower-casing never turns a blank term into a real one. */
  lemma SearchIgnoresCase(search: string, p: Item)
    ensures SearchHit(ToLower(search), p) == SearchHit(search, p)
  {
    forall i | 0 <= i < |search| ensures IsSpace(ToLower(search)[i]) <==> IsSpace(search[i]) {
    }
    ContainsIgnoringCaseOfLower(p.name, search);
    ContainsIgnoringCaseOfLower(p.description, search);
    ContainsIgnoringCaseOfLower(p.category, search);
  }

  /** Both filters together. */
  predicate Matches(f: Filters, p: Item) {
    InCategory(f.category, p) && SearchHit(f.search, p)
  }

  /** The sort step; `relevance` and any other value keep catalogue order. */
  function Arrange(s: seq<Item>, sortBy: string): (r: seq<Item>)
    ensures multiset(r) == multiset(s) && |r| == |s|
  {
    if sortBy == "price-low" then SortBy(s, (p: Item) => p.price)
    else if sortBy == "price-high" then SortBy(s, (p: Item) => -p.price)
    else if sortBy == "rating" then SortBy(s, (p: Item) => -p.rating)
    else if sortBy == "newest" then SortBy(s, (p: Item) => -p.id)
    else s
  }

  /** The sort keys the store knows. */
  predicate KnownSort(sortBy: string) {
    sortBy in {"price-low", "price-high", "rating", "newest"}
  }

  /** The filtering steps of `applyFilters`: category, then search. */
  function Selected(products: seq<Item>, f: Filters): seq<Item> {
    var byCategory := if f.category != "all" then Keep(products, (p: Item) => p.category == f.category) else products;
    if Trim(f.search) != [] then Keep(byCategory, (p: Item) => SearchHit(f.search, p)) else byCategory
  }

  /** The selection holds exactly the matching products, each at most as
      often as in the catalogue. */
  lemma SelectedMembers(products: seq<Item>, f: Filters, x: Item)
    ensures multiset(Selected(products, f)) <= multiset(products)
    ensures x in Selected(products, f) <==> x in products && Matches(f, x)
  {
    var cat := (p: Item) => p.category == f.category;
    var hit := (p: Item) => SearchHit(f.search, p);
    var byCategory := if f.category != "all" then Keep(products, cat) else products;
    if f.category != "all" {
      KeepIn(products, cat, x);
    }
    assert x in byCategory <==> x in products && InCategory(f.category, x);
    if Trim(f.search) != [] {
      KeepIn(byCategory, hit, x);
    }
  }

  /** `applyFilters`: the selection, then the sort. */
  function Filtered(products: seq<Item>, f: Filters): (r: seq<Item>)
    ensures multiset(r) == multiset(Selected(products, f))
  {
    Arrange(Selected(products, f), f.sortBy)
  }

  /** Two filters in a row are one filter by both tests. */
  lemma {:induction false} KeepKeep(s: seq<Item>, p: Item -> bool, q: Item -> bool)
    ensures Keep(Keep(s, p), q) == Keep(s, (x: Item) => p(x) && q(x))
  {
    if s != [] {
      KeepKeep(s[1..], p, q);
      if p(s[0]) {
        assert Keep(s, p) == [s[0]] + Keep(s[1..], p);
        assert Keep(s, p)[1..] == Keep(s[1..], p);
      }
    }
  }

  /** Two tests that agree on every element keep the same elements. */
  lemma KeepAll(s: seq<Item>, p: Item -> bool, q: Item -> bool)
    requires forall x :: p(x) == q(x)
    ensures Keep(s, p) == Keep(s, q)
  {
    if s != [] {
      KeepAll(s[1..], p, q);
    }
  }

  /** With `relevance` (or any unknown sort) the result is the catalogue
      filtered once by both filters, in catalogue order. */
  lemma RelevanceKeepsCatalogueOrder(products: seq<Item>, f: Filters)
    requires !KnownSort(f.sortBy)
    ensures Filtered(products, f) == Keep(products, (p: Item) => Matches(f, p))
  {
    var cat := (p: Item) => p.category == f.category;
    var hit := (p: Item) => SearchHit(f.search, p);
    var both := (p: Item) => Matches(f, p);
    assert Filtered(products, f) == Selected(products, f);
    if f.category != "all" && Trim(f.search) != [] {
      assert Selected(products, f) == Keep(Keep(products, cat), hit);
      KeepKeep(products, cat, hit);
      KeepAll(products, (x: Item) => cat(x) && hit(x), both);
    } else if f.category != "all" {
      KeepAll(products, cat, both);
    } else if Trim(f.search) != [] {
      KeepAll(products, hit, both);
    } else {
      KeepAll(products, (p: Item) => true, both);
    }
  }

  /** Whatever the sort, the result holds exactly the matching products of
      the catalogue, each at most as often as it appears there. */
  lemma FilteredMembers(products: seq<Item>, f: Filters, x: Item)
    ensures multiset(Filtered(products, f)) <= multiset(products)
    ensures x in Filtered(products, f) <==> x in products && Matches(f, x)
  {
    SelectedMembers(products, f, x);
    assert x in Filtered(products, f) <==> x in multiset(Selected(products, f));
  }

  /** `price-low` orders by price, lowest first; `price-high` highest first;
      `rating` best rated first; `newest` by falling id. */
  lemma SortsOrder(products: seq<Item>, f: Filters)
    ensures f.sortBy == "price-low" ==>
      forall i, j :: 0 <= i < j < |Filtered(products, f)| ==> Filtered(products, f)[i].price <= Filtered(products, f)[j].price
    ensures f.sortBy == "price-high" ==>
      forall i, j :: 0 <= i < j < |Filtered(products, f)| ==> Filtered(products, f)[i].price >= Filtered(products, f)[j].price
    ensures f.sortBy == "rating" ==>
      forall i, j :: 0 <= i < j < |Filtered(products, f)| ==> Filtered(products, f)[i].rating >= Filtered(products, f)[j].rating
    ensures f.sortBy == "newest" ==>
      forall i, j :: 0 <= i < j < |Filtered(products, f)| ==> Filtered(products, f)[i].id >= Filtered(products, f)[j].id
  {
  }

  /** The promo codes and their rates in percent. */
  const PromoCodes: map<string, nat> := map["WELCOME10" := 10, "FIRST20" := 20]

  /** The keys every JavaScript object inherits from `Object.prototype`; a
      property lookup on the promo table finds each of them, and each is a
      function or object, hence truthy. */
  const InheritedKeys: set<string> := {
    "constructor", "__proto__", "hasOwnProperty", "isPrototypeOf", "propertyIsEnumerable",
    "toLocaleString", "toString", "valueOf", "__defineGetter__", "__defineSetter__",
    "__lookupGetter__", "__lookupSetter__"}

  /** What `promoCodes[code]` evaluates to. */
  datatype PromoLookup = Rate(percent: nat) | InheritedMember | Undefined

  function LookupPromo(code: string): (l: PromoLookup)
    ensures l.Rate? <==> code in PromoCodes
    ensures l == InheritedMember <==> code !in PromoCodes && code in InheritedKeys
  {
    if code in PromoCodes then Rate(PromoCodes[code])
    else if code in InheritedKeys then InheritedMember
    else Undefined
  }

  /** `applyPromoCode` as written: any truthy lookup is accepted. */
  function AppliedPromoAsWritten(code: string): (r: Option<string>)
    ensures r.Some? <==> LookupPromo(code) != Undefined
    ensures r.Some? ==> r.value == code
  {
    if LookupPromo(code) != Undefined then Some(code) else None
  }

  /** `getDiscount` as written; `None` stands for `NaN`, which is what
      `Math.round(total * f)` gives when `f` is a function. */
  function DiscountAsWritten(cart: seq<CartLine>, applied: Option<string>): (d: Option<int>)
    ensures applied.None? ==> d == Some(0)
  {
    if applied.None? || applied.value == [] then Some(0)
    else match LookupPromo(applied.value)
      case Rate(k) => Some(Pricing.RoundedShare(Total(cart), k))
      case InheritedMember => None
      case Undefined => Some(0)
  }

  /** The code `constructor` is accepted and makes the discount, and with it
      the final total, `NaN`. */
  lemma InheritedPromoAccepted(cart: seq<CartLine>)
    ensures AppliedPromoAsWritten("constructor") == Some("constructor")
    ensures DiscountAsWritten(cart, AppliedPromoAsWritten("constructor")).None?
  {
    assert "constructor" !in PromoCodes;
  }

  /** `applyPromoCode` as intended: only the table's own codes. */
  function AppliedPromo(code: string): (r: Option<string>)
    ensures r.Some? <==> code in PromoCodes
    ensures r.Some? ==> r.value == code
  {
    if code in PromoCodes then Some(code) else None
  }

  /** `getDiscount` for an applied code of the table: the rounded share of
      the cart total. */
  function Discount(cart: seq<CartLine>, applied: Option<string>): (d: int)
    ensures applied.None? || applied.value !in PromoCodes ==> d == 0
    ensures applied.Some? && applied.value in PromoCodes ==>
      100 * d - 50 <= Total(cart) * PromoCodes[applied.value] < 100 * d + 50
    ensures Total(cart) >= 0 ==> 0 <= d <= Total(cart)
  {
    if applied.Some? && applied.value in PromoCodes then
      var rate := PromoCodes[applied.value];
      assert rate <= 100 by {
        assert applied.value == "WELCOME10" || applied.value == "FIRST20";
      }
      Pricing.RoundedShareBounds(Total(cart), rate);
      Pricing.RoundedShare(Total(cart), rate)
    else
      0
  }

  /** The intended rule agrees with the code as written on every code the
      table holds, and on every code it rejects that no object inherits. */
  lemma PromoAgreesOffPrototype(cart: seq<CartLine>, code: string)
    requires code !in InheritedKeys
    ensures AppliedPromoAsWritten(code) == AppliedPromo(code)
    ensures DiscountAsWritten(cart, AppliedPromo(code)) == Some(Discount(cart, AppliedPromo(code)))
  {
  }

  /** `getShipping`. */
  function Shipping(cart: seq<CartLine>): (s: int)
    ensures s == Pricing.TieredShipping(Total(cart))
  {
    Pricing.TieredShipping(Total(cart))
  }

  /** `getFinalTotal`: never below the shipping charge when prices are
      non-negative, and never above total plus shipping. */
  function FinalTotal(cart: seq<CartLine>, applied: Option<string>): (t: int)
    ensures t == Total(cart) + Shipping(cart) - Discount(cart, applied)
    ensures Total(cart) >= 0 ==> Shipping(cart) <= t <= Total(cart) + Shipping(cart)
  {
    Total(cart) + Shipping(cart) - Discount(cart, applied)
  }

  /** The storefront's phone check: /^[+]?[0-9\s\-()]+$/ and at least ten
      digits. */
  predicate StorePhoneChar(c: char) {
    IsDigit(c) || IsSpace(c) || c == '-' || c == '(' || c == ')'
  }

  /** Accepted exactly when there are at least ten digits and every
      character is allowed, a `+` only in front. */
  function ValidatePhone(phone: string): (r: bool)
    ensures r <==> (|Digits(phone)| >= 10
      && forall i :: 0 <= i < |phone| ==> StorePhoneChar(phone[i]) || (i == 0 && phone[i] == '+'))
    ensures r ==> |phone| >= 10
  {
    var body := if |phone| > 0 && phone[0] == '+' then phone[1..] else phone;
    assert forall i :: 0 <= i < |body| ==> body[i] == phone[i + |phone| - |body|];
    |body| >= 1 && (forall i :: 0 <= i < |body| ==> StorePhoneChar(body[i])) && |Digits(phone)| >= 10
  }

  /** The checkout form fields; `None` when the field is absent. */
  datatype CheckoutForm = CheckoutForm(
    name: Option<string>,
    email: Option<string>,
    phone: Option<string>,
    address: Option<string>,
    payment: Option<string>,
    notes: Option<string>)

  /** The trimmed value of a field, as `?.value?.trim()` reads it. */
  function Trimmed(field: Option<string>): (r: Option<string>)
    ensures r.Some? <==> field.Some?
    ensures r.Some? ==> r.value == Trim(field.value)
  {
    match field
    case None => None
    case Some(v) => Some(Trim(v))
  }

  /** The keys of the checkout error object. */
  datatype CheckoutField = NameField | EmailField | PhoneField | AddressField | CartField

  const CheckoutFields: set<CheckoutField> := {NameField, EmailField, PhoneField, AddressField, CartField}

  /** The condition under which `handleCheckout` sets one error key. */
  predicate Fails(f: CheckoutForm, cart: seq<CartLine>, k: CheckoutField) {
    match k
    case NameField => var name := Trimmed(f.name); name.None? || name.value == [] || |name.value| < 3
    case EmailField => var email := Trimmed(f.email); email.None? || email.value == [] || !Validators.ValidateEmail(email.value)
    case PhoneField => var phone := Trimmed(f.phone); phone.None? || phone.value == [] || !ValidatePhone(phone.value)
    case AddressField => var address := Trimmed(f.address); address.None? || address.value == [] || |address.value| < 10
    case CartField => |cart| == 0
  }

  /** The error keys of `handleCheckout`. */
  function CheckoutErrors(f: CheckoutForm, cart: seq<CartLine>): (errors: set<CheckoutField>)
    ensures errors <= CheckoutFields
    ensures f.name.None? ==> NameField in errors
    ensures f.email.None? ==> EmailField in errors
    ensures f.phone.None? ==> PhoneField in errors
    ensures f.address.None? ==> AddressField in errors
  {
    set k | k in CheckoutFields && Fails(f, cart, k)
  }

  /** Each key is set exactly when its field, trimmed, fails its check. */
  lemma CheckoutErrorsMeaning(f: CheckoutForm, cart: seq<CartLine>)
    ensures CartField in CheckoutErrors(f, cart) <==> cart == []
    ensures NameField in CheckoutErrors(f, cart) <==> f.name.None? || |Trim(f.name.value)| < 3
    ensures EmailField in CheckoutErrors(f, cart) <==> f.email.None? || !Validators.ValidateEmail(Trim(f.email.value))
    ensures PhoneField in CheckoutErrors(f, cart) <==> f.phone.None? || !ValidatePhone(Trim(f.phone.value))
    ensures AddressField in CheckoutErrors(f, cart) <==> f.address.None? || |Trim(f.address.value)| < 10
    ensures CheckoutErrors(f, cart) <= CheckoutFields
  {
  }

  datatype Customer = Customer(name: string, email: string, phone: string, address: string)

  datatype OrderItem = OrderItem(productId: int, name: string, quantity: int, price: int)

  datatype OrderTotals = OrderTotals(subtotal: int, shipping: int, discount: int, final: int)

  /** The order `handleCheckout` records. */
  datatype ClientOrder = ClientOrder(
    id: string,
    customer: Customer,
    items: seq<OrderItem>,
    totals: OrderTotals,
    payment: Option<string>,
    notes: Option<string>,
    status: string)

  function ItemsOf(cart: seq<CartLine>): (items: seq<OrderItem>)
    ensures |items| == |cart|
    ensures forall i :: 0 <= i < |cart| ==>
      items[i] == OrderItem(cart[i].item.id, cart[i].item.name, cart[i].quantity, cart[i].item.price)
  {
    seq(|cart|, i requires 0 <= i < |cart| => OrderItem(cart[i].item.id, cart[i].item.name, cart[i].quantity, cart[i].item.price))
  }

  /** The order for a form that passed validation, placed at time `now`. */
  function CheckoutOrder(f: CheckoutForm, cart: seq<CartLine>, applied: Option<string>, now: nat): (o: ClientOrder)
    requires CheckoutErrors(f, cart) == {}
    ensures o.id == "ORD-" + NatToString(now) && o.status == "pending"
    ensures o.items == ItemsOf(cart)
    ensures o.totals == OrderTotals(Total(cart), Shipping(cart), Discount(cart, applied), FinalTotal(cart, applied))
    ensures Trimmed(f.name) == Some(o.customer.name) && Trimmed(f.address) == Some(o.customer.address)
    ensures Trimmed(f.email) == Some(o.customer.email) && Trimmed(f.phone) == Some(o.customer.phone)
    ensures |o.customer.name| >= 3 && |o.customer.address| >= 10
    ensures Validators.ValidateEmail(o.customer.email) && ValidatePhone(o.customer.phone)
  {
    CheckoutErrorsMeaning(f, cart);
    assert NameField !in CheckoutErrors(f, cart) && EmailField !in CheckoutErrors(f, cart);
    assert PhoneField !in CheckoutErrors(f, cart) && AddressField !in CheckoutErrors(f, cart);
    ClientOrder("ORD-" + NatToString(now),
                Customer(Trim(f.name.value), Trim(f.email.value), Trim(f.phone.value), Trim(f.address.value)),
                ItemsOf(cart),
                OrderTotals(Total(cart), Shipping(cart), Discount(cart, applied), FinalTotal(cart, applied)),
                f.payment, Trimmed(f.notes), "pending")
  }

  class Store {
    var products: seq<Item>
    var cart: seq<CartLine>
    var filters: Filters
    var filteredProducts: seq<Item>
    var appliedPromo: Option<string>
    var orders: seq<ClientOrder>
    var errors: set<CheckoutField>

    /** The initial state after `init` has applied the default filters. */
    constructor (catalogue: seq<Item>)
      ensures products == catalogue && cart == [] && filters == DefaultFilters
      ensures filteredProducts == catalogue
      ensures appliedPromo.None? && orders == [] && errors == {}
    {
      products := catalogue;
      cart := [];
      filters := DefaultFilters;
      filteredProducts := Filtered(catalogue, DefaultFilters);
      appliedPromo := None;
      orders := [];
      errors := {};
    }

    /** `applyFilters`. */
    method ApplyFilters()
      modifies this
      ensures filteredProducts == Filtered(products, filters)
      ensures products == old(products) && cart == old(cart) && filters == old(filters)
      ensures appliedPromo == old(appliedPromo) && orders == old(orders) && errors == old(errors)
    {
      var f := filters;
      var results := products;
      if f.category != "all" {
        results := Keep(results, (p: Item) => p.category == f.category);
      }
      if Trim(f.search) != [] {
        results := Keep(results, (p: Item) => SearchHit(f.search, p));
      }
      filteredProducts := Arrange(results, f.sortBy);
    }

    /** `setCategory`, `setSort` and `search`: set one filter, then refilter. */
    method SetFilters(f: Filters)
      modifies this
      ensures filters == f && filteredProducts == Filtered(products, f)
      ensures products == old(products) && cart == old(cart)
      ensures appliedPromo == old(appliedPromo) && orders == old(orders) && errors == old(errors)
    {
      filters := f;
      ApplyFilters();
    }

    /** `addToCart`. */
    method AddToCart(id: int)
      modifies this
      ensures cart == AddLine(old(cart), products, id)
      ensures products == old(products) && filters == old(filters) && filteredProducts == old(filteredProducts)
      ensures appliedPromo == old(appliedPromo) && orders == old(orders) && errors == old(errors)
    {
      var product := FindItem(products, id);
      if product.None? {
        return;
      }
      var existing := LineIndex(cart, id);
      if existing.Some? {
        var i := existing.value;
        cart := cart[i := cart[i].(quantity := cart[i].quantity + 1)];
      } else {
        cart := cart + [CartLine(product.value, 1)];
      }
    }

    /** `removeFromCart`. */
    method RemoveFromCart(id: int)
      modifies this
      ensures cart == RemoveLines(old(cart), id)
      ensures products == old(products) && filters == old(filters) && filteredProducts == old(filteredProducts)
      ensures appliedPromo == old(appliedPromo) && orders == old(orders) && errors == old(errors)
    {
      cart := RemoveLines(cart, id);
    }

    /** `updateQuantity`. */
    method UpdateQuantity(id: int, delta: int)
      modifies this
      ensures cart == ChangeQuantity(old(cart), id, delta)
      ensures products == old(products) && filters == old(filters) && filteredProducts == old(filteredProducts)
      ensures appliedPromo == old(appliedPromo) && orders == old(orders) && errors == old(errors)
    {
      var found := LineIndex(cart, id);
      if found.None? {
        return;
      }
      var i := found.value;
      cart := cart[i := cart[i].(quantity := cart[i].quantity + delta)];
      if cart[i].quantity <= 0 {
        assert RemoveLines(cart, id) == RemoveLines(old(cart), id) by {
          RemoveLinesReplace(old(cart), i, cart[i], id);
        }
        RemoveFromCart(id);
      }
    }

    /** `applyPromoCode`, with the table's own codes only. */
    method ApplyPromoCode(code: string)
      modifies this
      ensures appliedPromo == AppliedPromo(code)
      ensures products == old(products) && cart == old(cart) && filters == old(filters)
      ensures filteredProducts == old(filteredProducts) && orders == old(orders) && errors == old(errors)
    {
      if code in PromoCodes {
        appliedPromo := Some(code);
      } else {
        appliedPromo := None;
      }
    }

    /** `handleCheckout`, given whether the backend accepted the order: a
        form with errors records them and changes nothing else; a valid one
        records the order and empties the cart once the backend accepts it,
        and keeps both as they were when it does not. */
    method HandleCheckout(f: CheckoutForm, now: nat, submitted: bool)
      modifies this
      ensures CheckoutErrors(f, old(cart)) != {} ==>
        errors == CheckoutErrors(f, old(cart)) && cart == old(cart) && orders == old(orders)
      ensures CheckoutErrors(f, old(cart)) == {} && submitted ==>
        errors == {} && cart == []
        && orders == old(orders) + [CheckoutOrder(f, old(cart), old(appliedPromo), now)]
      ensures CheckoutErrors(f, old(cart)) == {} && !submitted ==>
        errors == {} && cart == old(cart) && orders == old(orders)
      ensures products == old(products) && filters == old(filters) && filteredProducts == old(filteredProducts)
      ensures appliedPromo == old(appliedPromo)
    {
      var found := CheckoutErrors(f, cart);
      errors := found;
      if found == {} && submitted {
        var order := CheckoutOrder(f, cart, appliedPromo, now);
        orders := orders + [order];
        cart := [];
      }
    }
  }

  /** Changing one line to a line of the same product does not change what
      removing that product leaves. */
  lemma {:induction false} RemoveLinesReplace(cart: seq<CartLine>, i: nat, l: CartLine, id: int)
    requires i < |cart| && cart[i].item.id == id && l.item.id == id
    ensures RemoveLines(cart[i := l], id) == RemoveLines(cart, id)
  {
    if i > 0 {
      assert cart[i := l][1..] == cart[1..][i - 1 := l];
      RemoveLinesReplace(cart[1..], i - 1, l, id);
    } else {
      assert cart[i := l][1..] == cart[1..];
    }
  }

  /** A rejected checkout leaves the cart usable for another attempt, and
      an accepted one needs a non-empty cart. */
  lemma CheckoutNeedsCart(f: CheckoutForm)
    ensures CheckoutErrors(f, []) != {}
  {
    CheckoutErrorsMeaning(f, []);
  }
}
