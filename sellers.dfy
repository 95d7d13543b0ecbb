/** The seller routes of server/routes/sellers.js: applying to become a
    seller, listing sellers by status, and fetching one seller. */
module SellerRoutes {
  import opened Wrappers
  import opened UserModel
  import Db

  datatype SellerApplication = SellerApplication(
    businessName: Option<string>,
    description: Option<string>,
    businessType: Option<string>,
    gstNumber: Option<string>,
    panNumber: Option<string>)

  /** The user after an accepted application: a seller awaiting review,
      with the application's details and nothing else changed. The GST and
      PAN numbers are stored as given, without format checks. */
  function Enrol(u: User, a: SellerApplication): (r: User)
    ensures r.role == Seller && r.seller.status == Pending && !r.seller.verified
    ensures r.seller.businessName == a.businessName && r.seller.description == a.description
    ensures r.seller.gstNumber == a.gstNumber && r.seller.panNumber == a.panNumber
    ensures r.(role := u.role, seller := u.seller) == u
  {
    u.(role := Seller,
       seller := SellerProfile(a.businessName, a.businessType, a.gstNumber, a.panNumber, a.description, false, Pending))
  }

  /** The checks of POST /api/sellers/apply, in order: both required fields,
      then a missing user (the role read throws), then an existing seller. */
  function ApplyCheck(users: map<Id, User>, userId: Id, a: SellerApplication): (r: Option<Reply>)
    ensures !(Truthy(a.businessName) && Truthy(a.description)) ==>
      r == Some(Reply(400, "Business name and description are required"))
    ensures r.None? <==>
      Truthy(a.businessName) && Truthy(a.description) && userId in users && users[userId].role != Seller
    ensures Truthy(a.businessName) && Truthy(a.description) && userId in users && users[userId].role == Seller ==>
      r == Some(Reply(400, "You are already a seller"))
  {
    if !(Truthy(a.businessName) && Truthy(a.description)) then
      Some(Reply(400, "Business name and description are required"))
    else if userId !in users then Some(Reply(500, "Failed to submit application"))
    else if users[userId].role == Seller then Some(Reply(400, "You are already a seller"))
    else None
  }

  /** POST /api/sellers/apply for the caller `userId`. */
  method Apply(db: Db.Database, userId: Id, a: SellerApplication) returns (reply: Reply, data: Option<PublicUser>)
    modifies db
    ensures db.products == old(db.products) && db.orders == old(db.orders)
    ensures ApplyCheck(old(db.users), userId, a).Some? ==>
      reply == ApplyCheck(old(db.users), userId, a).value && db.users == old(db.users) && data.None?
    ensures ApplyCheck(old(db.users), userId, a).None? ==>
      reply == Reply(201, "Seller application submitted successfully")
      && db.users == old(db.users)[userId := Enrol(old(db.users)[userId], a)]
      && data == Some(ToJSON(db.users[userId]))
  {
    data := None;
    var rejection := ApplyCheck(db.users, userId, a);
    if rejection.Some? {
      reply := rejection.value;
      return;
    }
    var user := Enrol(db.users[userId], a);
    db.users := db.users[userId := user];
    reply := Reply(201, "Seller application submitted successfully");
    data := Some(ToJSON(user));
  }

  /** Once a user is a seller, whatever became of the application, applying
      again is refused. */
  lemma NoSecondApplication(users: map<Id, User>, userId: Id, a: SellerApplication, b: SellerApplication)
    requires ApplyCheck(users, userId, a).None?
    requires Truthy(b.businessName) && Truthy(b.description)
    ensures ApplyCheck(users[userId := Enrol(users[userId], a)], userId, b) == Some(Reply(400, "You are already a seller"))
  {
  }

  /** The fields the seller projection selects: the id, name, seller details,
      e-mail and phone, but not the role. */
  datatype SellerView = SellerView(id: Id, name: string, seller: SellerProfile, email: string, phone: string)

  function ViewOf(u: User): (v: SellerView)
    ensures v.id == u.id && v.seller == u.seller && v.email == u.email
  {
    SellerView(u.id, u.name, u.seller, u.email, u.phone)
  }

  /** GET /api/sellers: the sellers whose status is the requested one,
      `approved` when none is given. */
  function ListSellers(users: map<Id, User>, status: Option<string>): (r: map<Id, SellerView>)
    ensures forall id :: id in r <==>
      id in users && users[id].role == Seller && SellerStatusName(users[id].seller.status) == status.GetOr("approved")
    ensures forall id :: id in r ==> r[id] == ViewOf(users[id])
  {
    map id | id in users && users[id].role == Seller && SellerStatusName(users[id].seller.status) == status.GetOr("approved")
      :: ViewOf(users[id])
  }

  /** The default listing holds exactly the approved sellers. */
  lemma DefaultListIsApproved(users: map<Id, User>, id: Id)
    ensures id in ListSellers(users, None) <==> id in users && users[id].role == Seller && users[id].seller.status == Approved
  {
    if id in users {
      SellerStatusNameInjective(users[id].seller.status, Approved);
    }
  }

  /** A fetched user record: the selected fields, and the role when the
      query loads it. */
  datatype SellerRecord = SellerRecord(view: SellerView, role: Option<Role>)

  /** The records `select('name seller email phone')` loads: no role. */
  function Projected(users: map<Id, User>): (r: map<Id, SellerRecord>)
    ensures r.Keys == users.Keys
    ensures forall id :: id in r ==> r[id] == SellerRecord(ViewOf(users[id]), None)
  {
    map id | id in users :: SellerRecord(ViewOf(users[id]), None)
  }

  /** The records a query that also selects the role would load. */
  function WithRole(users: map<Id, User>): (r: map<Id, SellerRecord>)
    ensures r.Keys == users.Keys
    ensures forall id :: id in r ==> r[id] == SellerRecord(ViewOf(users[id]), Some(users[id].role))
  {
    map id | id in users :: SellerRecord(ViewOf(users[id]), Some(users[id].role))
  }

  /** The body of GET /api/sellers/:id over the loaded records. */
  function GetSellerFrom(records: map<Id, SellerRecord>, id: Id): (a: Answer<SellerView>)
    ensures a.data.Some? <==> id in records && records[id].role == Some(Seller)
    ensures a.data.Some? ==> a.reply.status == 200 && a.data.value == records[id].view
    ensures a.data.None? ==> a.reply == Reply(404, "Seller not found")
  {
    if id !in records || records[id].role != Some(Seller) then Answer(Reply(404, "Seller not found"), None)
    else Answer(Reply(200, "OK"), Some(records[id].view))
  }

  /** GET /api/sellers/:id as written: the projected record holds no role,
      so every request is answered 404. */
  function GetSellerAsWritten(users: map<Id, User>, id: Id): (a: Answer<SellerView>)
    ensures a.data.None? && a.reply == Reply(404, "Seller not found")
  {
    GetSellerFrom(Projected(users), id)
  }

  /** GET /api/sellers/:id with the role check the route evidently intends:
      the stored user's role. */
  function GetSeller(users: map<Id, User>, id: Id): (a: Answer<SellerView>)
    ensures a.data.Some? <==> id in users && users[id].role == Seller
    ensures a.data.Some? ==> a.reply.status == 200 && a.data.value == ViewOf(users[id])
    ensures a.data.None? ==> a.reply == Reply(404, "Seller not found")
  {
    GetSellerFrom(WithRole(users), id)
  }

  /** A stored seller that the listing returns is one the route as written
      cannot fetch. */
  lemma ListedSellerNotFetchable(users: map<Id, User>, id: Id)
    requires id in ListSellers(users, None)
    ensures GetSeller(users, id).data == Some(ListSellers(users, None)[id])
    ensures GetSellerAsWritten(users, id).data.None?
  {
  }
}
