/** The admin routes of server/routes/admin.js: the dashboard counts and
    revenue, the pending-seller list, and the approve and reject
    transitions of the seller lifecycle. Every route runs `verifyToken` and
    then `verifyAdmin` first. */
module AdminRoutes {
  import opened Wrappers
  import opened UserModel
  import opened Records
  import opened AuthMiddleware
  import SellerRoutes
  import ProductRoutes
  import Db

  /** The `$sum` of the order totals: the sum over the orders taken in any
      order (see RevenueAt). */
  ghost function Revenue(orders: map<Id, Order>): int
    decreases |orders|
  {
    if orders == map[] then 0
    else
      var k :| k in orders;
      orders[k].total + Revenue(orders - {k})
  }

  /** Removing one key from a map shrinks it by one. */
  lemma RemoveShrinks(orders: map<Id, Order>, k: Id)
    requires k in orders
    ensures |orders - {k}| == |orders| - 1
  {
    assert (orders - {k}).Keys == orders.Keys - {k};
  }

  /** Whichever order is taken first, the sum is the same. */
  lemma {:induction false} RevenueAt(orders: map<Id, Order>, k: Id)
    requires k in orders
    ensures Revenue(orders) == orders[k].total + Revenue(orders - {k})
    decreases |orders|
  {
    var j :| j in orders && Revenue(orders) == orders[j].total + Revenue(orders - {j});
    if j != k {
      RemoveShrinks(orders, j);
      RemoveShrinks(orders, k);
      RevenueAt(orders - {j}, k);
      RevenueAt(orders - {k}, j);
      assert orders - {j} - {k} == orders - {k} - {j};
    }
  }

  /** Storing a new order adds its total to the revenue. */
  lemma RevenueAdd(orders: map<Id, Order>, k: Id, o: Order)
    requires k !in orders
    ensures Revenue(orders[k := o]) == Revenue(orders) + o.total
  {
    RevenueAt(orders[k := o], k);
    assert orders[k := o] - {k} == orders;
  }

  /** With the schema's `min: 0` on every total, the revenue is never negative. */
  lemma {:induction false} RevenueNonNegative(orders: map<Id, Order>)
    requires forall k :: k in orders ==> orders[k].total >= 0
    ensures Revenue(orders) >= 0
    decreases |orders|
  {
    if orders != map[] {
      var k :| k in orders;
      RevenueAt(orders, k);
      RemoveShrinks(orders, k);
      RevenueNonNegative(orders - {k});
    }
  }

  /** The dashboard figures. */
  datatype Dashboard = Dashboard(users: nat, products: nat, orders: nat, revenue: int)

  /** GET /api/admin/dashboard. With no orders the aggregate is empty and the
      revenue is 0. */
  method GetDashboard(db: Db.Database, header: Option<string>, verify: string -> Option<Id>)
    returns (reply: Reply, data: Option<Dashboard>)
    ensures AdminChain(header, verify, db.users).Deny? ==>
      reply == AdminChain(header, verify, db.users).reply && data.None?
    ensures AdminChain(header, verify, db.users).Pass? ==>
      reply.status == 200
      && data == Some(Dashboard(|db.users|, |db.products|, |db.orders|, Revenue(db.orders)))
    ensures db.orders == map[] && data.Some? ==> data.value.revenue == 0
  {
    data := None;
    var gate := AdminChain(header, verify, db.users);
    if gate.Deny? {
      reply := gate.reply;
      return;
    }
    var revenue := 0;
    var remaining := db.orders;
    while remaining != map[]
      invariant revenue + Revenue(remaining) == Revenue(db.orders)
      decreases |remaining|
    {
      var k :| k in remaining;
      RevenueAt(remaining, k);
      RemoveShrinks(remaining, k);
      revenue := revenue + remaining[k].total;
      remaining := remaining - {k};
    }
    reply := Reply(200, "OK");
    data := Some(Dashboard(|db.users|, |db.products|, |db.orders|, revenue));
  }

  /** GET /api/admin/sellers/pending: the sellers awaiting review. */
  function PendingSellers(users: map<Id, User>): (r: map<Id, PublicUser>)
    ensures forall id :: id in r <==> id in users && users[id].role == Seller && users[id].seller.status == Pending
    ensures forall id :: id in r ==> r[id] == ToJSON(users[id])
  {
    map id | id in users && users[id].role == Seller && users[id].seller.status == Pending :: ToJSON(users[id])
  }

  /** GET /api/admin/sellers/pending behind `verifyToken` and `verifyAdmin`:
      the gate's reply for a refused caller, the pending sellers for an
      admin. */
  function PendingSellersRoute(header: Option<string>, verify: string -> Option<Id>, users: map<Id, User>): (a: Answer<map<Id, PublicUser>>)
    ensures AdminChain(header, verify, users).Deny? ==> a == Answer(AdminChain(header, verify, users).reply, None)
    ensures AdminChain(header, verify, users).Pass? ==> a.reply.status == 200 && a.data == Some(PendingSellers(users))
  {
    match AdminChain(header, verify, users)
    case Deny(r) => Answer(r, None)
    case Pass(_) => Answer(Reply(200, "OK"), Some(PendingSellers(users)))
  }

  /** Without a token the list is refused with 401, and a signed-in customer
      or seller is refused with 403; an admin gets exactly the pending
      sellers. */
  lemma PendingSellersGuarded(header: Option<string>, verify: string -> Option<Id>, users: map<Id, User>)
    ensures BearerToken(header).None? ==> PendingSellersRoute(header, verify, users) == Answer(Reply(401, "No token provided"), None)
    ensures (BearerToken(header).Some? && verify(BearerToken(header).value).Some?
      && verify(BearerToken(header).value).value in users
      && users[verify(BearerToken(header).value).value].role != Admin) ==>
      PendingSellersRoute(header, verify, users) == Answer(Reply(403, "Admin access required"), None)
    ensures PendingSellersRoute(header, verify, users).data.Some? ==>
      forall id :: id in PendingSellersRoute(header, verify, users).data.value ==>
        id in users && users[id].role == Seller && users[id].seller.status == Pending
  {
  }

  /** The approve update: status `approved` and verified, whatever the
      status was and whatever the role is. */
  function Approve(u: User): (r: User)
    ensures r.seller.status == Approved && r.seller.verified
    ensures r.(seller := u.seller) == u
    ensures r.seller.(status := u.seller.status, verified := u.seller.verified) == u.seller
  {
    u.(seller := u.seller.(status := Approved, verified := true))
  }

  /** The reject update: status `rejected`; `verified` is left as it was. */
  function Reject(u: User): (r: User)
    ensures r.seller.status == Rejected && r.seller.verified == u.seller.verified
    ensures r.(seller := u.seller) == u
    ensures r.seller.(status := u.seller.status) == u.seller
  {
    u.(seller := u.seller.(status := Rejected))
  }

  /** `findByIdAndUpdate` with `{new: true}`: the updated user, or nothing
      when the id is unknown, in which case nothing changes. */
  method UpdateSeller(db: Db.Database, id: Id, approve: bool) returns (updated: Option<User>)
    modifies db
    ensures db.products == old(db.products) && db.orders == old(db.orders)
    ensures id !in old(db.users) ==> db.users == old(db.users) && updated.None?
    ensures id in old(db.users) ==>
      var u := if approve then Approve(old(db.users)[id]) else Reject(old(db.users)[id]);
      db.users == old(db.users)[id := u] && updated == Some(u)
  {
    updated := None;
    if id !in db.users {
      return;
    }
    var user := db.users[id];
    var profile := if approve then user.seller.(status := Approved, verified := true)
                   else user.seller.(status := Rejected);
    user := user.(seller := profile);
    db.users := db.users[id := user];
    updated := Some(user);
  }

  /** PUT /api/admin/sellers/:id/approve. An unknown id still answers 200,
      with no data. */
  method ApproveSeller(db: Db.Database, header: Option<string>, verify: string -> Option<Id>, id: Id)
    returns (reply: Reply, data: Option<PublicUser>)
    modifies db
    ensures db.products == old(db.products) && db.orders == old(db.orders)
    ensures AdminChain(header, verify, old(db.users)).Deny? ==>
      reply == AdminChain(header, verify, old(db.users)).reply && db.users == old(db.users) && data.None?
    ensures AdminChain(header, verify, old(db.users)).Pass? ==>
      reply == Reply(200, "Seller approved successfully")
      && (id !in old(db.users) ==> db.users == old(db.users) && data.None?)
      && (id in old(db.users) ==>
            db.users == old(db.users)[id := Approve(old(db.users)[id])] && data == Some(ToJSON(db.users[id])))
  {
    data := None;
    var gate := AdminChain(header, verify, db.users);
    if gate.Deny? {
      reply := gate.reply;
      return;
    }
    var updated := UpdateSeller(db, id, true);
    if updated.Some? {
      data := Some(ToJSON(updated.value));
    }
    reply := Reply(200, "Seller approved successfully");
  }

  /** PUT /api/admin/sellers/:id/reject. */
  method RejectSeller(db: Db.Database, header: Option<string>, verify: string -> Option<Id>, id: Id)
    returns (reply: Reply, data: Option<PublicUser>)
    modifies db
    ensures db.products == old(db.products) && db.orders == old(db.orders)
    ensures AdminChain(header, verify, old(db.users)).Deny? ==>
      reply == AdminChain(header, verify, old(db.users)).reply && db.users == old(db.users) && data.None?
    ensures AdminChain(header, verify, old(db.users)).Pass? ==>
      reply == Reply(200, "Seller rejected")
      && (id !in old(db.users) ==> db.users == old(db.users) && data.None?)
      && (id in old(db.users) ==>
            db.users == old(db.users)[id := Reject(old(db.users)[id])] && data == Some(ToJSON(db.users[id])))
  {
    data := None;
    var gate := AdminChain(header, verify, db.users);
    if gate.Deny? {
      reply := gate.reply;
      return;
    }
    var updated := UpdateSeller(db, id, false);
    if updated.Some? {
      data := Some(ToJSON(updated.value));
    }
    reply := Reply(200, "Seller rejected");
  }

  /** Approval opens the product-creation gate exactly for users whose role
      is seller: approving a customer leaves it closed. */
  lemma ApproveOpensSellerGate(users: map<Id, User>, id: Id, f: ProductRoutes.ProductForm)
    requires id in users && ProductRoutes.FieldsGiven(f)
    ensures ProductRoutes.CreateProductCheck(users[id := Approve(users[id])], id, f).None? <==> users[id].role == Seller
  {
  }

  /** Rejection leaves `verified` set, so a seller approved before and
      rejected later still passes the product-creation gate. */
  lemma RejectKeepsSellerGateOpen(users: map<Id, User>, id: Id, f: ProductRoutes.ProductForm)
    requires id in users && VerifiedSeller(users[id]) && ProductRoutes.FieldsGiven(f)
    ensures ProductRoutes.CreateProductCheck(users[id := Reject(users[id])], id, f).None?
    ensures ProductRoutes.CreateProductCheck(users[id := Reject(users[id])], id, f)
         == ProductRoutes.CreateProductCheck(users, id, f)
  {
  }

  /** The whole lifecycle of one user: an application makes a pending
      seller, listed for review but not by the seller listing; approval moves
      them to the default seller listing and off the pending list. */
  lemma SellerLifecycle(users: map<Id, User>, id: Id, a: SellerRoutes.SellerApplication)
    requires SellerRoutes.ApplyCheck(users, id, a).None?
    ensures var applied := users[id := SellerRoutes.Enrol(users[id], a)];
      id in PendingSellers(applied) && id !in SellerRoutes.ListSellers(applied, None)
      && !VerifiedSeller(applied[id])
    ensures var approved := users[id := Approve(SellerRoutes.Enrol(users[id], a))];
      id !in PendingSellers(approved) && id in SellerRoutes.ListSellers(approved, None)
      && VerifiedSeller(approved[id])
  {
    var applied := users[id := SellerRoutes.Enrol(users[id], a)];
    var approved := users[id := Approve(SellerRoutes.Enrol(users[id], a))];
    SellerRoutes.DefaultListIsApproved(applied, id);
    SellerRoutes.DefaultListIsApproved(approved, id);
  }
}
