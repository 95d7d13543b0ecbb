/** The profile and wishlist routes of server/routes/users.js. Each runs
    after `verifyToken`, for the caller `userId`; a caller with no stored
    user makes the field reads throw, which the routes answer with 500. */
module UserRoutes {
  import opened Wrappers
  import opened Strings
  import opened UserModel
  import opened Records
  import Validators
  import Db

  /** The wishlist without any occurrence of `id`, the others in order. */
  function RemoveAll(w: seq<Id>, id: Id): (r: seq<Id>)
    ensures id !in r && |r| <= |w|
    ensures forall x :: x in r <==> x in w && x != id
  {
    if w == [] then []
    else if w[0] == id then RemoveAll(w[1..], id)
    else [w[0]] + RemoveAll(w[1..], id)
  }

  /** Removal works piece by piece, so it keeps the other ids in order. */
  lemma {:induction false} RemoveAllAppend(a: seq<Id>, b: seq<Id>, id: Id)
    ensures RemoveAll(a + b, id) == RemoveAll(a, id) + RemoveAll(b, id)
  {
    if a != [] {
      assert (a + b)[1..] == a[1..] + b;
      RemoveAllAppend(a[1..], b, id);
    } else {
      assert a + b == b;
    }
  }

  /** A list without `id` is left as it is. */
  lemma {:induction false} RemoveAllAbsent(w: seq<Id>, id: Id)
    requires id !in w
    ensures RemoveAll(w, id) == w
  {
    if w != [] {
      RemoveAllAbsent(w[1..], id);
    }
  }

  /** Every other id keeps its number of occurrences; `id` loses all of them. */
  lemma {:induction false} RemoveAllCounts(w: seq<Id>, id: Id, x: Id)
    ensures multiset(RemoveAll(w, id))[x] == if x == id then 0 else multiset(w)[x]
  {
    if w != [] {
      RemoveAllCounts(w[1..], id, x);
      assert w == [w[0]] + w[1..];
    }
  }

  /** The wishlist after POST /api/users/wishlist/:productId. */
  function Toggle(w: seq<Id>, id: Id): (r: seq<Id>)
    ensures id in w ==> id !in r
    ensures id !in w ==> id in r
  {
    if id in w then RemoveAll(w, id) else w + [id]
  }

  /** An absent id is appended once, at the end. */
  lemma ToggleAbsentAppends(w: seq<Id>, id: Id)
    requires id !in w
    ensures Toggle(w, id) == w + [id]
    ensures multiset(Toggle(w, id))[id] == 1
  {
    assert multiset(w)[id] == 0;
  }

  /** A present id goes away entirely, everything else stays. */
  lemma TogglePresentRemoves(w: seq<Id>, id: Id, x: Id)
    requires id in w
    ensures multiset(Toggle(w, id))[x] == if x == id then 0 else multiset(w)[x]
  {
    RemoveAllCounts(w, id, x);
  }

  /** Toggling an absent id twice gives back the wishlist. */
  lemma ToggleTwiceRestores(w: seq<Id>, id: Id)
    requires id !in w
    ensures Toggle(Toggle(w, id), id) == w
  {
    RemoveAllAppend(w, [id], id);
    RemoveAllAbsent(w, id);
    assert RemoveAll([id], id) == [];
    assert w + [] == w;
  }

  /** Toggling a present id twice leaves one occurrence, at the end. */
  lemma ToggleTwiceDeduplicates(w: seq<Id>, id: Id)
    requires id in w
    ensures Toggle(Toggle(w, id), id) == RemoveAll(w, id) + [id]
  {
  }

  /** POST /api/users/wishlist/:productId. */
  method ToggleWishlist(db: Db.Database, userId: Id, productId: Id) returns (reply: Reply, data: Option<seq<Id>>)
    modifies db
    ensures db.products == old(db.products) && db.orders == old(db.orders)
    ensures userId !in old(db.users) ==>
      reply == Reply(500, "Failed to update wishlist") && db.users == old(db.users) && data.None?
    ensures userId in old(db.users) ==>
      var u := old(db.users)[userId];
      reply == Reply(200, "Wishlist updated")
      && db.users == old(db.users)[userId := u.(wishlist := Toggle(u.wishlist, productId))]
      && data == Some(Toggle(u.wishlist, productId))
  {
    data := None;
    if userId !in db.users {
      reply := Reply(500, "Failed to update wishlist");
      return;
    }
    var user := db.users[userId];
    if productId in user.wishlist {
      user := user.(wishlist := RemoveAll(user.wishlist, productId));
    } else {
      user := user.(wishlist := user.wishlist + [productId]);
    }
    db.users := db.users[userId := user];
    reply := Reply(200, "Wishlist updated");
    data := Some(user.wishlist);
  }

  /** The products `populate('wishlist')` finds, in wishlist order; ids with
      no stored product are dropped. */
  function Populate(products: map<Id, Product>, w: seq<Id>): (r: seq<Product>)
    ensures |r| <= |w|
    ensures forall p :: p in r ==> exists id :: id in w && id in products && products[id] == p
  {
    if w == [] then []
    else
      var rest := Populate(products, w[1..]);
      if w[0] in products then [products[w[0]]] + rest else rest
  }

  /** Every stored product on the wishlist is shown. */
  lemma {:induction false} PopulateComplete(products: map<Id, Product>, w: seq<Id>, id: Id)
    requires id in w && id in products
    ensures products[id] in Populate(products, w)
  {
    if w[0] != id {
      PopulateComplete(products, w[1..], id);
    }
  }

  /** GET /api/users/wishlist. */
  function GetWishlist(users: map<Id, User>, products: map<Id, Product>, userId: Id): (a: Answer<seq<Product>>)
    ensures a.data.Some? <==> userId in users
    ensures a.data.Some? ==> a.reply.status == 200 && a.data.value == Populate(products, users[userId].wishlist)
    ensures a.data.None? ==> a.reply == Reply(500, "Failed to fetch wishlist")
  {
    if userId !in users then Answer(Reply(500, "Failed to fetch wishlist"), None)
    else Answer(Reply(200, "OK"), Some(Populate(products, users[userId].wishlist)))
  }

  /** GET /api/users/profile. */
  function GetProfile(users: map<Id, User>, userId: Id): (a: Answer<PublicUser>)
    ensures a.data.Some? <==> userId in users
    ensures a.data.Some? ==> a.reply.status == 200 && a.data.value == ToJSON(users[userId])
    ensures a.data.None? ==> a.reply == Reply(500, "Failed to fetch profile")
  {
    if userId !in users then Answer(Reply(500, "Failed to fetch profile"), None)
    else Answer(Reply(200, "OK"), Some(ToJSON(users[userId])))
  }

  /** The body of PUT /api/users/profile; an absent field is left out of
      the update. */
  datatype ProfileUpdate = ProfileUpdate(name: Option<string>, phone: Option<string>, address: Option<PostalAddress>)

  /** The update validators (`runValidators`) on the fields given: the name,
      trimmed, of 2 to 50 characters and the phone pattern. */
  predicate ProfileValid(p: ProfileUpdate) {
    (p.name.Some? ==> 2 <= |Trim(p.name.value)| <= 50)
    && (p.phone.Some? ==> Validators.ValidatePhone(p.phone.value))
  }

  /** The user after the update: the given fields replaced, the name
      trimmed by its setter, nothing else touched. */
  function ApplyProfile(u: User, p: ProfileUpdate): (r: User)
    ensures r.(name := u.name, phone := u.phone, address := u.address) == u
    ensures r.name == (if p.name.Some? then Trim(p.name.value) else u.name)
    ensures r.phone == p.phone.GetOr(u.phone)
    ensures r.address == (if p.address.Some? then p.address else u.address)
    ensures r.password == u.password && r.role == u.role && r.seller == u.seller
  {
    u.(name := if p.name.Some? then Trim(p.name.value) else u.name,
       phone := p.phone.GetOr(u.phone),
       address := if p.address.Some? then p.address else u.address)
  }

  /** An empty update changes nothing, and the update is idempotent. */
  lemma ApplyProfileIdempotent(u: User, p: ProfileUpdate)
    ensures ApplyProfile(u, ProfileUpdate(None, None, None)) == u
    ensures ApplyProfile(ApplyProfile(u, p), p) == ApplyProfile(u, p)
  {
    if p.name.Some? {
      TrimIdempotent(p.name.value);
    }
  }

  /** PUT /api/users/profile. A missing user, or a given field that fails
      its validator, answers 500 and stores nothing. */
  method UpdateProfile(db: Db.Database, userId: Id, p: ProfileUpdate) returns (reply: Reply, data: Option<PublicUser>)
    modifies db
    ensures db.products == old(db.products) && db.orders == old(db.orders)
    ensures userId !in old(db.users) || !ProfileValid(p) ==>
      reply == Reply(500, "Failed to update profile") && db.users == old(db.users) && data.None?
    ensures userId in old(db.users) && ProfileValid(p) ==>
      reply == Reply(200, "Profile updated successfully")
      && db.users == old(db.users)[userId := ApplyProfile(old(db.users)[userId], p)]
      && data == Some(ToJSON(db.users[userId]))
  {
    data := None;
    if userId !in db.users || !ProfileValid(p) {
      reply := Reply(500, "Failed to update profile");
      return;
    }
    var user := db.users[userId];
    if p.name.Some? {
      user := user.(name := Trim(p.name.value));
    }
    if p.phone.Some? {
      user := user.(phone := p.phone.value);
    }
    if p.address.Some? {
      user := user.(address := p.address);
    }
    db.users := db.users[userId := user];
    reply := Reply(200, "Profile updated successfully");
    data := Some(ToJSON(user));
  }
}
