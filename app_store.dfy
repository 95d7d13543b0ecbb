/** The `AppStore` of src/app.js: the demo storefront's state (cart,
    catalogue filters, sellers, the demo login) kept in one object whose
    methods update it. Local storage, toasts, modals, the loading flags and
    the listeners' calls are not part of this model. */
module DemoStore {
  import opened Wrappers
  import opened Strings
  import opened Cart
  import opened Sorting
  import Pricing
  import OrderRoutes

  /** `state.filters`. */
  datatype Filters = Filters(category: string, search: string, sortBy: string)

  const InitialFilters := Filters("all", "", "relevance")

  /** The filter names `setFilter` is called with. */
  datatype FilterName = CategoryFilter | SearchFilter | SortFilter

  /** `filters[filterName] = value`: one filter replaced, the others kept. */
  function WithFilter(f: Filters, name: FilterName, value: string): (r: Filters)
    ensures name == CategoryFilter ==> r == f.(category := value)
    ensures name == SearchFilter ==> r == f.(search := value)
    ensures name == SortFilter ==> r == f.(sortBy := value)
  {
    match name
    case CategoryFilter => f.(category := value)
    case SearchFilter => f.(search := value)
    case SortFilter => f.(sortBy := value)
  }

  /** The search filter: an empty search keeps every product; otherwise the
      lower-cased search must occur in the lower-cased name or description. */
  function SearchHit(search: string, p: Item): (hit: bool)
    ensures hit <==> search == [] || ContainsIgnoringCase(p.name, search) || ContainsIgnoringCase(p.description, search)
    ensures Contains(p.name, search) || Contains(p.description, search) ==> hit
  {
    ContainsLower(p.name, search);
    ContainsLower(p.description, search);
    ContainsLowerIff(p.name, search);
    ContainsLowerIff(p.description, search);
    search == []
    || Contains(ToLower(p.name), ToLower(search))
    || Contains(ToLower(p.description), ToLower(search))
  }

  /** The search is blind to case: a term finds what its lower-cased form finds. */
  lemma SearchIgnoresCase(search: string, p: Item)
    ensures SearchHit(ToLower(search), p) == SearchHit(search, p)
  {
    ContainsIgnoringCaseOfLower(p.name, search);
    ContainsIgnoringCaseOfLower(p.description, search);
  }

  predicate Matches(f: Filters, p: Item) {
    (f.category == "all" || p.category == f.category) && SearchHit(f.search, p)
  }

  /** The sort keys `filterProducts` knows besides its default. */
  predicate KnownSort(sortBy: string) {
    sortBy in {"price-low", "price-high", "rating", "newest"}
  }

  /** The comparator of each sort as an ascending key; every other value,
      `relevance` included, sorts by sales, best-selling first. */
  function SortKey(sortBy: string): (key: Item -> int)
    ensures sortBy == "price-low" ==> forall p :: key(p) == p.price
    ensures sortBy == "price-high" ==> forall p :: key(p) == -p.price
    ensures !KnownSort(sortBy) ==> forall p :: key(p) == -p.sales
  {
    if sortBy == "price-low" then (p: Item) => p.price
    else if sortBy == "price-high" then (p: Item) => -p.price
    else if sortBy == "rating" then (p: Item) => -p.rating
    else if sortBy == "newest" then (p: Item) => -p.id
    else (p: Item) => -p.sales
  }

  /** The category and search steps of `filterProducts`. */
  function Selected(products: seq<Item>, f: Filters): seq<Item> {
    var byCategory := if f.category != "all" then Keep(products, (p: Item) => p.category == f.category) else products;
    if f.search != [] then Keep(byCategory, (p: Item) => SearchHit(f.search, p)) else byCategory
  }

  /** The selection holds exactly the matching products, each at most as
      often as in the catalogue. */
  lemma SelectedMembers(products: seq<Item>, f: Filters, x: Item)
    ensures multiset(Selected(products, f)) <= multiset(products)
    ensures x in Selected(products, f) <==> x in products && Matches(f, x)
  {
    var cat := (p: Item) => p.category == f.category;
    var hit := (p: Item) => SearchHit(f.search, p);
    var byCategory := if f.category != "all" then Keep(products, cat) else products;
    if f.category != "all" {
      KeepIn(products, cat, x);
    }
    assert x in byCategory <==> x in products && (f.category == "all" || x.category == f.category);
    if f.search != [] {
      KeepIn(byCategory, hit, x);
    }
  }

  /** `filterProducts`: the selection, stably sorted by the chosen key. */
  function Filtered(products: seq<Item>, f: Filters): (r: seq<Item>)
    ensures SortedBy(r, SortKey(f.sortBy))
    ensures multiset(r) == multiset(Selected(products, f))
  {
    SortBy(Selected(products, f), SortKey(f.sortBy))
  }

  /** Whatever the filters, the result holds exactly the matching products;
      by default the best-selling come first, and products selling equally
      keep their catalogue order. */
  lemma FilteredProducts(products: seq<Item>, f: Filters, x: Item)
    ensures multiset(Filtered(products, f)) <= multiset(products)
    ensures x in Filtered(products, f) <==> x in products && Matches(f, x)
    ensures !KnownSort(f.sortBy) ==>
      forall i, j :: 0 <= i < j < |Filtered(products, f)| ==>
        Filtered(products, f)[i].sales >= Filtered(products, f)[j].sales
  {
    SelectedMembers(products, f, x);
    assert x in Filtered(products, f) <==> x in multiset(Selected(products, f));
    if !KnownSort(f.sortBy) {
      var r := Filtered(products, f);
      forall i, j | 0 <= i < j < |r| ensures r[i].sales >= r[j].sales {
        assert SortKey(f.sortBy)(r[i]) <= SortKey(f.sortBy)(r[j]);
      }
    }
  }

  /** `getShipping`: a flat 50 on any non-empty cart. */
  function Shipping(cart: seq<CartLine>): (s: int)
    ensures s == 0 <==> cart == []
    ensures s == 0 || s == 50
  {
    if |cart| > 0 then 50 else 0
  }

  /** `getDiscount`: the 5% bulk discount on the cart total. */
  function Discount(cart: seq<CartLine>): (d: int)
    ensures d == Pricing.BulkDiscount(Total(cart))
    ensures d >= 0 && (Total(cart) >= 0 ==> d <= Total(cart))
  {
    Pricing.BulkDiscount(Total(cart))
  }

  /** `getFinalTotal`. */
  function FinalTotal(cart: seq<CartLine>): (t: int)
    ensures t == Total(cart) + Shipping(cart) - Discount(cart)
  {
    Total(cart) + Shipping(cart) - Discount(cart)
  }

  /** For a cart the store's operations build, the amount due is never
      negative and never above the total plus shipping; for an empty cart it
      is 0. */
  lemma FinalTotalBounds(cart: seq<CartLine>)
    requires WellFormed(cart) && PricesNonNegative(cart)
    ensures 0 <= FinalTotal(cart) <= Total(cart) + Shipping(cart)
    ensures cart == [] ==> FinalTotal(cart) == 0
  {
    WellFormedBounds(cart);
  }

  /** `state.user` after a demo login; the login time is not modelled. */
  datatype DemoUser = DemoUser(email: string, name: string)

  /** The name a demo login derives: the part of the e-mail before `@`. */
  function LoginName(email: string): (name: string)
    ensures name <= email && '@' !in name
    ensures '@' !in email ==> name == email
    ensures '@' in email ==> email[|name|] == '@'
  {
    SplitHead(email, '@');
    Split(email, '@')[0]
  }

  /** A seller of the demo list. Rating, avatar and location are not kept. */
  datatype DemoSeller = DemoSeller(id: int, name: Option<string>, desc: Option<string>, status: string, verified: bool)

  /** Seller ids are their positions, counting from 1. */
  predicate DenseIds(sellers: seq<DemoSeller>) {
    forall i :: 0 <= i < |sellers| ==> sellers[i].id == i + 1
  }

  /** The sellers `seedData` installs. */
  const SeedSellers: seq<DemoSeller> := [
    DemoSeller(1, Some("Triu Naturals Pvt Ltd"), Some("Premium herbal powders & spices"), "approved", true),
    DemoSeller(2, Some("Aurora Quill Designs"), Some("Luxury stationery collections"), "approved", true),
    DemoSeller(3, Some("EduSpark Worksheets"), Some("STEM & skill-building resources"), "approved", true),
    DemoSeller(4, Some("GreenLeaf Organics"), Some("Organic superfoods"), "pending", false)]

  /** `getSeller`: the first seller with that id. */
  function FindSeller(sellers: seq<DemoSeller>, id: int): (r: Option<DemoSeller>)
    ensures r.Some? ==> r.value in sellers && r.value.id == id
    ensures r.None? <==> forall i :: 0 <= i < |sellers| ==> sellers[i].id != id
  {
    if sellers == [] then None
    else if sellers[0].id == id then Some(sellers[0])
    else FindSeller(sellers[1..], id)
  }

  /** With dense ids, the seller with id `k` is the k-th one, and no other
      id is found. */
  lemma FindDense(sellers: seq<DemoSeller>, id: int)
    requires DenseIds(sellers)
    ensures 1 <= id <= |sellers| ==> FindSeller(sellers, id) == Some(sellers[id - 1])
    ensures !(1 <= id <= |sellers|) ==> FindSeller(sellers, id).None?
  {
    FindShifted(sellers, id, 1);
  }

  /** The search over sellers numbered from `first`. */
  lemma {:induction false} FindShifted(sellers: seq<DemoSeller>, id: int, first: int)
    requires forall i :: 0 <= i < |sellers| ==> sellers[i].id == i + first
    ensures first <= id < first + |sellers| ==> FindSeller(sellers, id) == Some(sellers[id - first])
    ensures !(first <= id < first + |sellers|) ==> FindSeller(sellers, id).None?
  {
    if sellers != [] && sellers[0].id != id {
      var tail := sellers[1..];
      assert forall i :: 0 <= i < |tail| ==> tail[i].id == i + (first + 1);
      FindShifted(tail, id, first + 1);
    }
  }

  /** The order `placeOrder` remembers. */
  datatype LastOrder = LastOrder(orderId: string, total: int)

  /** The body of the seller form. */
  datatype SellerForm = SellerForm(businessName: Option<string>, description: Option<string>)

  class AppStore {
    var cart: seq<CartLine>
    var user: Option<DemoUser>
    var isLoggedIn: bool
    var products: seq<Item>
    var sellers: seq<DemoSeller>
    var filters: Filters
    var filteredProducts: seq<Item>
    var lastOrder: Option<LastOrder>
    /** The subscribed callbacks, by handle. */
    var listeners: seq<nat>

    /** What every operation keeps: seller ids numbered from 1, one cart
        line per product with a positive quantity, and the login flag set
        exactly when there is a user. */
    predicate Valid()
      reads this
    {
      DenseIds(sellers) && WellFormed(cart) && (isLoggedIn <==> user.Some?)
    }

    /** The state after `init` with nothing in storage: the seeded catalogue
        and sellers, all products shown. */
    constructor (catalogue: seq<Item>)
      ensures Valid()
      ensures cart == [] && user.None? && !isLoggedIn && lastOrder.None? && listeners == []
      ensures products == catalogue && sellers == SeedSellers
      ensures filters == InitialFilters && filteredProducts == catalogue
    {
      cart := [];
      user := None;
      isLoggedIn := false;
      products := catalogue;
      sellers := SeedSellers;
      filters := InitialFilters;
      filteredProducts := catalogue;
      lastOrder := None;
      listeners := [];
    }

    /** `subscribe`. */
    method Subscribe(callback: nat)
      modifies this
      ensures listeners == old(listeners) + [callback]
      ensures cart == old(cart) && user == old(user) && isLoggedIn == old(isLoggedIn) && products == old(products)
      ensures sellers == old(sellers) && filters == old(filters) && filteredProducts == old(filteredProducts)
      ensures lastOrder == old(lastOrder)
    {
      listeners := listeners + [callback];
    }

    /** `addToCart`. */
    method AddToCart(id: int)
      requires Valid()
      modifies this
      ensures Valid()
      ensures cart == AddLine(old(cart), products, id)
      ensures user == old(user) && isLoggedIn == old(isLoggedIn) && products == old(products) && listeners == old(listeners)
      ensures sellers == old(sellers) && filters == old(filters) && filteredProducts == old(filteredProducts)
      ensures lastOrder == old(lastOrder)
    {
      AddLineKeepsWellFormed(cart, products, id);
      var product := FindItem(products, id);
      if product.None? {
        return;
      }
      var existing := LineIndex(cart, id);
      if existing.Some? {
        var i := existing.value;
        cart := cart[i := cart[i].(quantity := cart[i].quantity + 1)];
      } else {
        cart := cart + [CartLine(product.value, 1)];
      }
    }

    /** `removeFromCart`. */
    method RemoveFromCart(id: int)
      requires Valid()
      modifies this
      ensures Valid()
      ensures cart == RemoveLines(old(cart), id)
      ensures user == old(user) && isLoggedIn == old(isLoggedIn) && products == old(products) && listeners == old(listeners)
      ensures sellers == old(sellers) && filters == old(filters) && filteredProducts == old(filteredProducts)
      ensures lastOrder == old(lastOrder)
    {
      RemoveLinesKeepsWellFormed(cart, id);
      cart := RemoveLines(cart, id);
    }

    /** `updateQuantity`. */
    method UpdateQuantity(id: int, change: int)
      requires Valid()
      modifies this
      ensures Valid()
      ensures cart == ChangeQuantity(old(cart), id, change)
      ensures user == old(user) && isLoggedIn == old(isLoggedIn) && products == old(products) && listeners == old(listeners)
      ensures sellers == old(sellers) && filters == old(filters) && filteredProducts == old(filteredProducts)
      ensures lastOrder == old(lastOrder)
    {
      ChangeQuantityKeepsWellFormed(cart, id, change);
      var found := LineIndex(cart, id);
      if found.None? {
        return;
      }
      var i := found.value;
      var q := cart[i].quantity + change;
      if q <= 0 {
        cart := RemoveLines(cart, id);
      } else {
        cart := cart[i := cart[i].(quantity := q)];
      }
    }

    /** `clearCart`. */
    method ClearCart()
      requires Valid()
      modifies this
      ensures Valid()
      ensures cart == []
      ensures user == old(user) && isLoggedIn == old(isLoggedIn) && products == old(products) && listeners == old(listeners)
      ensures sellers == old(sellers) && filters == old(filters) && filteredProducts == old(filteredProducts)
      ensures lastOrder == old(lastOrder)
    {
      cart := [];
    }

    /** `filterProducts`. */
    method FilterProducts()
      requires Valid()
      modifies this
      ensures Valid()
      ensures filteredProducts == Filtered(products, filters)
      ensures cart == old(cart) && user == old(user) && isLoggedIn == old(isLoggedIn) && products == old(products)
      ensures sellers == old(sellers) && filters == old(filters) && listeners == old(listeners)
      ensures lastOrder == old(lastOrder)
    {
      var f := filters;
      var filtered := products;
      if f.category != "all" {
        filtered := Keep(filtered, (p: Item) => p.category == f.category);
      }
      if f.search != [] {
        filtered := Keep(filtered, (p: Item) => SearchHit(f.search, p));
      }
      filteredProducts := SortBy(filtered, SortKey(f.sortBy));
    }

    /** `setFilter`: one filter replaced, then the products refiltered. */
    method SetFilter(name: FilterName, value: string)
      requires Valid()
      modifies this
      ensures Valid()
      ensures filters == WithFilter(old(filters), name, value)
      ensures filteredProducts == Filtered(products, filters)
      ensures cart == old(cart) && user == old(user) && isLoggedIn == old(isLoggedIn) && products == old(products)
      ensures sellers == old(sellers) && listeners == old(listeners) && lastOrder == old(lastOrder)
    {
      filters := WithFilter(filters, name, value);
      FilterProducts();
    }

    /** `login`: any non-empty e-mail and password log in, the name taken
        from the e-mail; otherwise nothing changes. */
    method Login(email: Option<string>, password: Option<string>) returns (ok: bool)
      requires Valid()
      modifies this
      ensures Valid()
      ensures ok <==> Truthy(email) && Truthy(password)
      ensures ok ==> user == Some(DemoUser(email.value, LoginName(email.value))) && isLoggedIn
      ensures !ok ==> user == old(user) && isLoggedIn == old(isLoggedIn)
      ensures cart == old(cart) && products == old(products) && listeners == old(listeners)
      ensures sellers == old(sellers) && filters == old(filters) && filteredProducts == old(filteredProducts)
      ensures lastOrder == old(lastOrder)
    {
      if Truthy(email) && Truthy(password) {
        user := Some(DemoUser(email.value, Split(email.value, '@')[0]));
        isLoggedIn := true;
        return true;
      }
      return false;
    }

    /** `logout`. */
    method Logout()
      requires Valid()
      modifies this
      ensures Valid()
      ensures user.None? && !isLoggedIn
      ensures cart == old(cart) && products == old(products) && listeners == old(listeners)
      ensures sellers == old(sellers) && filters == old(filters) && filteredProducts == old(filteredProducts)
      ensures lastOrder == old(lastOrder)
    {
      user := None;
      isLoggedIn := false;
    }

    /** `placeOrder` at time `now`, given whether the e-mail step succeeds.
        A sent order is remembered under the order number the e-mail step
        generates, with the amount due, and empties the cart; a failed one
        changes nothing. */
    method PlaceOrder(delivered: bool, now: nat)
      requires Valid()
      modifies this
      ensures Valid()
      ensures !delivered ==> cart == old(cart) && lastOrder == old(lastOrder)
      ensures delivered ==> cart == [] && lastOrder == Some(LastOrder(OrderRoutes.OrderNumber(now), FinalTotal(old(cart))))
      ensures user == old(user) && isLoggedIn == old(isLoggedIn) && products == old(products) && listeners == old(listeners)
      ensures sellers == old(sellers) && filters == old(filters) && filteredProducts == old(filteredProducts)
    {
      if !delivered {
        return;
      }
      lastOrder := Some(LastOrder(OrderRoutes.OrderNumber(now), FinalTotal(cart)));
      ClearCart();
    }

    /** `registerSeller`: a pending, unverified seller appended with the next
        id. */
    method RegisterSeller(form: SellerForm) returns (seller: DemoSeller)
      requires Valid()
      modifies this
      ensures Valid()
      ensures seller == DemoSeller(|old(sellers)| + 1, form.businessName, form.description, "pending", false)
      ensures sellers == old(sellers) + [seller]
      ensures cart == old(cart) && user == old(user) && isLoggedIn == old(isLoggedIn) && products == old(products)
      ensures filters == old(filters) && filteredProducts == old(filteredProducts) && listeners == old(listeners)
      ensures lastOrder == old(lastOrder)
    {
      seller := DemoSeller(|sellers| + 1, form.businessName, form.description, "pending", false);
      sellers := sellers + [seller];
    }
  }

  /** A registered seller's id is new, and `getSeller` then finds exactly
      that seller while every earlier one is still found as before. */
  lemma RegisteredSellerFound(sellers: seq<DemoSeller>, form: SellerForm, id: int)
    requires DenseIds(sellers)
    ensures FindSeller(sellers, |sellers| + 1).None?
    ensures var s := DemoSeller(|sellers| + 1, form.businessName, form.description, "pending", false);
      FindSeller(sellers + [s], |sellers| + 1) == Some(s)
      && (id != |sellers| + 1 ==> FindSeller(sellers + [s], id) == FindSeller(sellers, id))
  {
    var s := DemoSeller(|sellers| + 1, form.businessName, form.description, "pending", false);
    FindDense(sellers, |sellers| + 1);
    FindDense(sellers + [s], |sellers| + 1);
    FindDense(sellers, id);
    FindDense(sellers + [s], id);
  }
}
