/** The user record of the store (server/models/User.js): field defaults,
    the setters applied on assignment, schema validation, the password hook
    and the public projection. */
module UserModel {
  import opened Wrappers
  import opened Strings
  import Validators

  datatype Role = Customer | Seller | Admin

  datatype AccountStatus = Active | Inactive | Suspended

  datatype SellerStatus = Pending | Approved | Rejected | SellerSuspended

  /** The stored spelling of a seller status. */
  function SellerStatusName(s: SellerStatus): (name: string)
    ensures name in {"pending", "approved", "rejected", "suspended"}
  {
    match s
    case Pending => "pending"
    case Approved => "approved"
    case Rejected => "rejected"
    case SellerSuspended => "suspended"
  }

  lemma SellerStatusNameInjective(a: SellerStatus, b: SellerStatus)
    ensures SellerStatusName(a) == SellerStatusName(b) <==> a == b
  {
  }

  datatype SellerProfile = SellerProfile(
    businessName: Option<string>,
    businessType: Option<string>,
    gstNumber: Option<string>,
    panNumber: Option<string>,
    description: Option<string>,
    verified: bool,
    status: SellerStatus)

  /** The seller sub-document every user starts with. */
  const NoSellerProfile := SellerProfile(None, None, None, None, None, false, Pending)

  datatype PostalAddress = PostalAddress(
    street: Option<string>,
    city: Option<string>,
    state: Option<string>,
    postalCode: Option<string>,
    country: string)

  /** A stored user. `password` holds whatever the save hook left there. */
  datatype User = User(
    id: Id,
    name: string,
    email: string,
    phone: string,
    password: string,
    role: Role,
    address: Option<PostalAddress>,
    seller: SellerProfile,
    orders: seq<Id>,
    wishlist: seq<Id>,
    status: AccountStatus,
    lastLogin: Option<int>)

  /** What `toJSON` produces: the user without its password. */
  datatype PublicUser = PublicUser(
    id: Id,
    name: string,
    email: string,
    phone: string,
    role: Role,
    address: Option<PostalAddress>,
    seller: SellerProfile,
    orders: seq<Id>,
    wishlist: seq<Id>,
    status: AccountStatus,
    lastLogin: Option<int>)

  function ToJSON(u: User): (r: PublicUser)
    ensures r.id == u.id && r.email == u.email && r.role == u.role && r.seller == u.seller
  {
    PublicUser(u.id, u.name, u.email, u.phone, u.role, u.address, u.seller,
               u.orders, u.wishlist, u.status, u.lastLogin)
  }

  /** The projection forgets the password and nothing else: two users have
      the same public form exactly when they differ at most in password. */
  lemma ToJSONForgetsOnlyPassword(u: User, v: User)
    ensures ToJSON(u) == ToJSON(v) <==> u.(password := v.password) == v
  {
    if ToJSON(u) == ToJSON(v) {
      assert ToJSON(u).name == ToJSON(v).name && ToJSON(u).phone == ToJSON(v).phone;
      assert ToJSON(u).address == ToJSON(v).address && ToJSON(u).orders == ToJSON(v).orders;
      assert ToJSON(u).wishlist == ToJSON(v).wishlist && ToJSON(u).status == ToJSON(v).status;
      assert ToJSON(u).lastLogin == ToJSON(v).lastLogin;
    }
  }

  /** A document built from registration input, after the schema's setters
      (`trim` on name, `lowercase` on email) and defaults are applied. */
  function NewUser(id: Id, name: string, email: string, phone: string, password: string): (u: User)
    ensures u.role == Customer && u.status == Active
    ensures u.seller == NoSellerProfile && !u.seller.verified && u.seller.status == Pending
    ensures u.email == ToLower(email) && u.name == Trim(name)
    ensures u.password == password && u.orders == [] && u.wishlist == []
  {
    User(id, Trim(name), ToLower(email), phone, password, Customer, None, NoSellerProfile,
         [], [], Active, None)
  }

  /** Schema validation of a new document: name length 2..50 after trimming,
      the schema's email pattern, the phone pattern and a password of at least
      six characters. */
  predicate SchemaValid(u: User) {
    2 <= |u.name| <= 50
    && Validators.SchemaEmail(u.email)
    && Validators.ValidatePhone(u.phone)
    && |u.password| >= 6
  }

  /** The password-hashing hook run before every save. */
  function PreSave(u: User, passwordModified: bool, hash: string -> string): (r: User)
    ensures r.(password := u.password) == u
    ensures passwordModified ==> r.password == hash(u.password)
    ensures !passwordModified ==> r == u
  {
    if passwordModified then u.(password := hash(u.password)) else u
  }

  /** `matchPassword`: the entered password, hashed, is the stored hash. */
  predicate MatchPassword(u: User, entered: string, hash: string -> string) {
    hash(entered) == u.password
  }

  /** A freshly saved user's own password matches, whatever the hash. */
  lemma SavedPasswordMatches(id: Id, name: string, email: string, phone: string, password: string, hash: string -> string)
    ensures MatchPassword(PreSave(NewUser(id, name, email, phone, password), true, hash), password, hash)
  {
  }

  /** A save that does not touch the password keeps the stored hash, so the
      password still matches after e.g. a lastLogin update. */
  lemma UnmodifiedSaveKeepsMatch(u: User, entered: string, hash: string -> string)
    ensures MatchPassword(PreSave(u, false, hash), entered, hash) == MatchPassword(u, entered, hash)
  {
  }

  /** At most one stored user per e-mail, as the unique index enforces. */
  predicate EmailsUnique(users: map<Id, User>) {
    forall a, b :: a in users && b in users && users[a].email == users[b].email ==> a == b
  }
}
