/** The catalogue routes of server/routes/products.js: the listing query, its
    sort and its page window, seller-only creation, and owner-only update and
    delete. The user-supplied search pattern is read as a case-insensitive
    substring. */
module ProductRoutes {
  import opened Wrappers
  import opened Strings
  import opened Records
  import opened UserModel
  import opened AuthMiddleware
  import Db
  import Sorting

  /** The filter the listing builds: always `active`, an optional category
      and an optional search text. */
  datatype ProductQuery = ProductQuery(status: string, category: Option<string>, search: Option<string>)

  function ListingQuery(category: Option<string>, search: Option<string>): (q: ProductQuery)
    ensures q.status == "active"
    ensures q.category.Some? <==> Truthy(category) && category.value != "all"
    ensures q.category.Some? ==> q.category == category
    ensures q.search.Some? <==> Truthy(search)
    ensures q.search.Some? ==> q.search == search
  {
    ProductQuery("active",
                 if Truthy(category) && category.value != "all" then category else None,
                 if Truthy(search) then search else None)
  }

  /** Whether a product satisfies the query. */
  function Matches(q: ProductQuery, p: Product): (hit: bool)
    ensures hit ==> p.status == q.status && (q.category.None? || p.category == q.category.value)
    ensures (p.status == q.status && (q.category.None? || p.category == q.category.value)
             && (q.search.None? || Contains(p.name, q.search.value) || Contains(p.description, q.search.value)))
            ==> hit
    ensures hit <==> p.status == q.status && (q.category.None? || p.category == q.category.value)
                     && (q.search.None? || ContainsIgnoringCase(p.name, q.search.value)
                         || ContainsIgnoringCase(p.description, q.search.value))
  {
    ContainsLower(p.name, q.search.GetOr([]));
    ContainsLower(p.description, q.search.GetOr([]));
    ContainsLowerIff(p.name, q.search.GetOr([]));
    ContainsLowerIff(p.description, q.search.GetOr([]));
    p.status == q.status
    && (q.category.None? || p.category == q.category.value)
    && (q.search.None?
        || Contains(ToLower(p.name), ToLower(q.search.value))
        || Contains(ToLower(p.description), ToLower(q.search.value)))
  }

  /** The listing search is blind to case: lower-casing the search text
      changes no answer. */
  lemma MatchesIgnoresCase(q: ProductQuery, p: Product)
    ensures q.search.Some? ==> Matches(q.(search := Some(ToLower(q.search.value))), p) == Matches(q, p)
  {
    if q.search.Some? {
      ContainsIgnoringCaseOfLower(p.name, q.search.value);
      ContainsIgnoringCaseOfLower(p.description, q.search.value);
    }
  }

  /** Only active products are listed, and `all` or no category keeps every
      category. */
  lemma ListingShowsOnlyActive(category: Option<string>, search: Option<string>, p: Product)
    ensures Matches(ListingQuery(category, search), p) ==> p.status == "active"
    ensures !Truthy(search) && (!Truthy(category) || category.value == "all") ==>
      (Matches(ListingQuery(category, search), p) <==> p.status == "active")
  {
  }

  /** The sort orders the listing can ask for. */
  datatype SortOrder = SalesDesc | PriceAsc | PriceDesc | RatingDesc | NewestFirst

  /** The sort for `sortBy`; anything unrecognised sorts by sales. */
  function SortFor(sortBy: Option<string>): (s: SortOrder)
    ensures sortBy == Some("price-low") <==> s == PriceAsc
    ensures sortBy == Some("price-high") <==> s == PriceDesc
    ensures sortBy == Some("rating") <==> s == RatingDesc
    ensures sortBy == Some("newest") <==> s == NewestFirst
  {
    if sortBy == Some("price-low") then PriceAsc
    else if sortBy == Some("price-high") then PriceDesc
    else if sortBy == Some("rating") then RatingDesc
    else if sortBy == Some("newest") then NewestFirst
    else SalesDesc
  }

  /** The key a sort order compares, larger first. */
  function SortKey(s: SortOrder, p: Product): int {
    match s
    case SalesDesc => p.sales
    case PriceAsc => -p.price
    case PriceDesc => p.price
    case RatingDesc => p.rating
    case NewestFirst => p.createdAt
  }

  /** `.sort(sortOptions)`: the found products, larger keys of the chosen
      order first. */
  function Arranged(found: seq<Product>, sortBy: Option<string>): (r: seq<Product>)
    ensures multiset(r) == multiset(found) && |r| == |found|
    ensures sortBy == Some("price-low") ==> forall i, j :: 0 <= i < j < |r| ==> r[i].price <= r[j].price
    ensures sortBy == Some("price-high") ==> forall i, j :: 0 <= i < j < |r| ==> r[i].price >= r[j].price
    ensures sortBy == Some("rating") ==> forall i, j :: 0 <= i < j < |r| ==> r[i].rating >= r[j].rating
    ensures sortBy == Some("newest") ==> forall i, j :: 0 <= i < j < |r| ==> r[i].createdAt >= r[j].createdAt
    ensures sortBy !in {Some("price-low"), Some("price-high"), Some("rating"), Some("newest")} ==>
              forall i, j :: 0 <= i < j < |r| ==> r[i].sales >= r[j].sales
  {
    var order := SortFor(sortBy);
    var key := (p: Product) => -SortKey(order, p);
    var r := Sorting.SortBy(found, key);
    assert forall i, j :: 0 <= i < j < |r| ==> SortKey(order, r[i]) >= SortKey(order, r[j]) by {
      forall i, j | 0 <= i < j < |r| ensures SortKey(order, r[i]) >= SortKey(order, r[j]) {
        assert key(r[i]) <= key(r[j]);
      }
    }
    r
  }

  /** The pagination block of the reply. A limit of 0 gives no page count
      (`Infinity` or `NaN`, sent as null). */
  datatype PageInfo = PageInfo(total: nat, page: int, limit: int, skip: int, pages: Option<int>)

  /** `ceil(total / limit)` for a non-zero limit. */
  function CeilDiv(total: nat, limit: int): (p: int)
    requires limit != 0
    ensures limit > 0 && total == 0 ==> p == 0
    ensures limit > 0 && total > 0 ==> (p - 1) * limit < total <= p * limit
  {
    if limit > 0 then (total + limit - 1) / limit else -(total / -limit)
  }

  /** The page arithmetic; absent parameters default to 12 per page and page 1. */
  function Paging(limit: Option<int>, page: Option<int>, total: nat): (info: PageInfo)
    ensures info.limit == limit.GetOr(12) && info.page == page.GetOr(1) && info.total == total
    ensures info.skip == (info.page - 1) * info.limit
    ensures info.pages.None? <==> info.limit == 0
    ensures info.limit > 0 ==>
      info.pages.Some? && info.pages.value >= 0
      && (total > 0 ==> (info.pages.value - 1) * info.limit < total <= info.pages.value * info.limit)
  {
    var l := limit.GetOr(12);
    var p := page.GetOr(1);
    PageInfo(total, p, l, (p - 1) * l, if l == 0 then None else Some(CeilDiv(total, l)))
  }

  /** Page p starts right after the products the earlier pages showed. */
  lemma PagesTile(limit: int, page: int, total: nat)
    requires limit > 0 && page >= 1
    ensures Paging(Some(limit), Some(page + 1), total).skip == Paging(Some(limit), Some(page), total).skip + limit
    ensures Paging(None, None, total).skip == 0
  {
  }

  datatype ProductForm = ProductForm(
    name: Option<string>,
    description: Option<string>,
    price: Option<int>,
    category: Option<string>,
    stock: Option<int>,
    images: Option<seq<string>>)

  /** The required fields are all truthy, except that a stock of 0 counts
      as given. */
  predicate FieldsGiven(f: ProductForm) {
    Truthy(f.name) && Truthy(f.description) && f.price.Some? && f.price.value != 0
    && Truthy(f.category) && f.stock.Some?
  }

  /** The checks of POST /api/products before `Product.create`, in order:
      a missing user makes the role read throw, then the seller gate, then
      the required fields. */
  function CreateProductCheck(users: map<Id, User>, userId: Id, f: ProductForm): (r: Option<Reply>)
    ensures r == Some(Reply(500, "Failed to create product")) <==> userId !in users
    ensures userId in users && !VerifiedSeller(users[userId]) ==>
      r == Some(Reply(403, "Only verified sellers can add products"))
    ensures userId in users && VerifiedSeller(users[userId]) && !FieldsGiven(f) ==>
      r == Some(Reply(400, "Missing required fields"))
    ensures r.None? <==> userId in users && VerifiedSeller(users[userId]) && FieldsGiven(f)
  {
    if userId !in users then Some(Reply(500, "Failed to create product"))
    else if !VerifiedSeller(users[userId]) then Some(Reply(403, "Only verified sellers can add products"))
    else if !FieldsGiven(f) then Some(Reply(400, "Missing required fields"))
    else None
  }

  /** A verified seller offering a product for 0 rupees is refused. */
  lemma FreeProductRefused(users: map<Id, User>, userId: Id, f: ProductForm)
    requires userId in users && VerifiedSeller(users[userId]) && f.price == Some(0)
    ensures CreateProductCheck(users, userId, f) == Some(Reply(400, "Missing required fields"))
  {
  }

  /** The document `Product.create` stores, with its defaults. */
  function NewProduct(f: ProductForm, sellerId: Id, now: int): (p: Product)
    requires FieldsGiven(f)
    ensures p.sellerId == sellerId && p.status == "active" && p.sales == 0
    ensures p.images == f.images.GetOr([]) && p.price == f.price.value && p.stock == f.stock.value
    ensures p.name == Trim(f.name.value)
  {
    Product(Trim(f.name.value), f.description.value, f.price.value, f.category.value, f.images.GetOr([]),
            None, f.stock.value, 0, sellerId, 0, "active", now)
  }

  /** POST /api/products for the caller `userId`. */
  method CreateProduct(db: Db.Database, userId: Id, f: ProductForm, newKey: Id, now: int)
    returns (reply: Reply, created: Option<Product>)
    requires newKey !in db.products
    modifies db
    ensures db.users == old(db.users) && db.orders == old(db.orders)
    ensures CreateProductCheck(old(db.users), userId, f).Some? ==>
      reply == CreateProductCheck(old(db.users), userId, f).value && db.products == old(db.products) && created.None?
    ensures CreateProductCheck(old(db.users), userId, f).None? ==>
      if ProductSchemaValid(NewProduct(f, userId, now)) then
        reply == Reply(201, "Product created successfully")
        && db.products == old(db.products)[newKey := NewProduct(f, userId, now)]
        && created == Some(NewProduct(f, userId, now))
      else
        reply == Reply(500, "Failed to create product") && db.products == old(db.products) && created.None?
  {
    created := None;
    var rejection := CreateProductCheck(db.users, userId, f);
    if rejection.Some? {
      reply := rejection.value;
      return;
    }
    var p := NewProduct(f, userId, now);
    if !ProductSchemaValid(p) {
      reply := Reply(500, "Failed to create product");
      return;
    }
    db.products := db.products[newKey := p];
    reply := Reply(201, "Product created successfully");
    created := Some(p);
  }

  /** The fields an update may carry; an absent field is left alone. */
  datatype ProductPatch = ProductPatch(
    name: Option<string>,
    description: Option<string>,
    price: Option<int>,
    category: Option<string>,
    stock: Option<int>,
    images: Option<seq<string>>,
    status: Option<string>)

  const NoChanges := ProductPatch(None, None, None, None, None, None, None)

  /** The whitelisted copy: each given field replaces the stored one (the
      name through the schema's trim), and every other field is kept. */
  function ApplyPatch(p: Product, patch: ProductPatch): (r: Product)
    ensures r.(name := p.name, description := p.description, price := p.price, category := p.category,
               stock := p.stock, images := p.images, status := p.status) == p
    ensures r.sellerId == p.sellerId && r.sales == p.sales && r.rating == p.rating && r.createdAt == p.createdAt
    ensures r.name == (if patch.name.Some? then Trim(patch.name.value) else p.name)
    ensures r.description == patch.description.GetOr(p.description) && r.price == patch.price.GetOr(p.price)
    ensures r.category == patch.category.GetOr(p.category) && r.stock == patch.stock.GetOr(p.stock)
    ensures r.images == patch.images.GetOr(p.images) && r.status == patch.status.GetOr(p.status)
  {
    p.(name := if patch.name.Some? then Trim(patch.name.value) else p.name,
       description := patch.description.GetOr(p.description),
       price := patch.price.GetOr(p.price),
       category := patch.category.GetOr(p.category),
       stock := patch.stock.GetOr(p.stock),
       images := patch.images.GetOr(p.images),
       status := patch.status.GetOr(p.status))
  }

  /** An empty update changes nothing, and applying an update twice is the
      same as applying it once. */
  lemma ApplyPatchIdempotent(p: Product, patch: ProductPatch)
    ensures ApplyPatch(p, NoChanges) == p
    ensures ApplyPatch(ApplyPatch(p, patch), patch) == ApplyPatch(p, patch)
  {
    if patch.name.Some? {
      TrimIdempotent(patch.name.value);
    }
  }

  /** PUT /api/products/:id for the caller `callerId`. */
  method UpdateProduct(db: Db.Database, key: Id, callerId: Id, patch: ProductPatch)
    returns (reply: Reply, data: Option<Product>)
    modifies db
    ensures db.users == old(db.users) && db.orders == old(db.orders)
    ensures key !in old(db.products) ==>
      reply == Reply(404, "Product not found") && db.products == old(db.products) && data.None?
    ensures key in old(db.products) && old(db.products)[key].sellerId != callerId ==>
      reply == Reply(403, "Unauthorized to update this product") && db.products == old(db.products) && data.None?
    ensures key in old(db.products) && old(db.products)[key].sellerId == callerId ==>
      var updated := ApplyPatch(old(db.products)[key], patch);
      if ProductSchemaValid(updated) then
        reply == Reply(200, "Product updated successfully")
        && db.products == old(db.products)[key := updated] && data == Some(updated)
      else
        reply == Reply(500, "Failed to update product") && db.products == old(db.products) && data.None?
  {
    data := None;
    if key !in db.products {
      reply := Reply(404, "Product not found");
      return;
    }
    var product := db.products[key];
    if product.sellerId != callerId {
      reply := Reply(403, "Unauthorized to update this product");
      return;
    }
    product := ApplyPatch(product, patch);
    if !ProductSchemaValid(product) {
      reply := Reply(500, "Failed to update product");
      return;
    }
    db.products := db.products[key := product];
    reply := Reply(200, "Product updated successfully");
    data := Some(product);
  }

  /** DELETE /api/products/:id for the caller `callerId`. */
  method DeleteProduct(db: Db.Database, key: Id, callerId: Id) returns (reply: Reply)
    modifies db
    ensures db.users == old(db.users) && db.orders == old(db.orders)
    ensures key !in old(db.products) ==> reply == Reply(404, "Product not found") && db.products == old(db.products)
    ensures key in old(db.products) && old(db.products)[key].sellerId != callerId ==>
      reply == Reply(403, "Unauthorized to delete this product") && db.products == old(db.products)
    ensures key in old(db.products) && old(db.products)[key].sellerId == callerId ==>
      reply == Reply(200, "Product deleted successfully") && db.products == old(db.products) - {key}
  {
    if key !in db.products {
      reply := Reply(404, "Product not found");
      return;
    }
    if db.products[key].sellerId != callerId {
      reply := Reply(403, "Unauthorized to delete this product");
      return;
    }
    db.products := db.products - {key};
    reply := Reply(200, "Product deleted successfully");
  }
}
