/** The request guards of server/middleware/auth.js: bearer-token extraction,
    token verification and the admin and seller role checks. The JWT check
    itself is the caller-supplied `verify`, which yields the token's `userId`
    claim or nothing when the token does not verify. */
module AuthMiddleware {
  import opened Wrappers
  import opened Strings
  import opened UserModel

  /** `req.user` as the guards leave it. */
  datatype RequestUser = RequestUser(id: Id, role: Option<Role>)

  /** A guard either lets the request through with its user or answers it. */
  datatype Gate = Pass(user: RequestUser) | Deny(reply: Reply)

  /** The second space-separated word of the Authorization header, when it
      is there and non-empty. */
  function BearerToken(header: Option<string>): (t: Option<string>)
    ensures t.Some? ==> t.value != [] && ' ' !in t.value
  {
    if header.None? then None
    else
      var words := Split(header.value, ' ');
      if |words| >= 2 && words[1] != [] then Some(words[1]) else None
  }

  /** Whatever the first word is, the word after the first space is the token. */
  lemma BearerIgnoresScheme(scheme: string, token: string, rest: string)
    requires ' ' !in scheme && ' ' !in token && token != []
    ensures BearerToken(Some(scheme + [' '] + token)) == Some(token)
    ensures BearerToken(Some(scheme + [' '] + token + [' '] + rest)) == Some(token)
  {
    SplitAtFirst(scheme, token, ' ');
    SplitWithoutSeparator(token, ' ');
    SplitAtFirst(scheme, token + [' '] + rest, ' ');
    SplitAtFirst(token, rest, ' ');
    assert scheme + [' '] + token + [' '] + rest == scheme + [' '] + (token + [' '] + rest);
  }

  /** A header of a single word carries no token. */
  lemma OneWordHeaderHasNoToken(h: string)
    requires ' ' !in h
    ensures BearerToken(Some(h)) == None
  {
    SplitWithoutSeparator(h, ' ');
  }

  /** `verifyToken`. */
  function VerifyToken(header: Option<string>, verify: string -> Option<Id>): (g: Gate)
    ensures g.Pass? <==> BearerToken(header).Some? && verify(BearerToken(header).value).Some?
    ensures g.Pass? ==> g.user == RequestUser(verify(BearerToken(header).value).value, None)
    ensures BearerToken(header).None? ==> g == Deny(Reply(401, "No token provided"))
    ensures BearerToken(header).Some? && !g.Pass? ==> g == Deny(Reply(401, "Invalid token"))
  {
    match BearerToken(header)
    case None => Deny(Reply(401, "No token provided"))
    case Some(token) =>
      match verify(token)
      case None => Deny(Reply(401, "Invalid token"))
      case Some(id) => Pass(RequestUser(id, None))
  }

  /** `verifyAdmin`: a missing user makes the role read throw. */
  function VerifyAdmin(users: map<Id, User>, u: RequestUser): (g: Gate)
    ensures g.Pass? <==> u.id in users && users[u.id].role == Admin
    ensures g.Pass? ==> g.user == u.(role := Some(Admin))
    ensures u.id !in users ==> g == Deny(Reply(500, "Authorization check failed"))
    ensures u.id in users && !g.Pass? ==> g == Deny(Reply(403, "Admin access required"))
  {
    if u.id !in users then Deny(Reply(500, "Authorization check failed"))
    else if users[u.id].role != Admin then Deny(Reply(403, "Admin access required"))
    else Pass(u.(role := Some(Admin)))
  }

  /** A seller whose application an admin has approved at some point. */
  predicate VerifiedSeller(u: User) {
    u.role == Seller && u.seller.verified
  }

  /** `verifySeller`. */
  function VerifySeller(users: map<Id, User>, u: RequestUser): (g: Gate)
    ensures g.Pass? <==> u.id in users && VerifiedSeller(users[u.id])
    ensures g.Pass? ==> g.user == u.(role := Some(Seller))
    ensures u.id !in users ==> g == Deny(Reply(500, "Authorization check failed"))
    ensures u.id in users && !g.Pass? ==> g == Deny(Reply(403, "Seller access required"))
  {
    if u.id !in users then Deny(Reply(500, "Authorization check failed"))
    else if !VerifiedSeller(users[u.id]) then Deny(Reply(403, "Seller access required"))
    else Pass(u.(role := Some(Seller)))
  }

  /** `verifyToken` followed by `verifyAdmin`, as every admin route mounts them. */
  function AdminChain(header: Option<string>, verify: string -> Option<Id>, users: map<Id, User>): (g: Gate)
    ensures g.Pass? <==>
      (BearerToken(header).Some? && verify(BearerToken(header).value).Some?
       && verify(BearerToken(header).value).value in users
       && users[verify(BearerToken(header).value).value].role == Admin)
    ensures g.Pass? ==> g.user.role == Some(Admin)
    ensures BearerToken(header).None? ==> g == Deny(Reply(401, "No token provided"))
    ensures BearerToken(header).Some? && verify(BearerToken(header).value).None? ==> g == Deny(Reply(401, "Invalid token"))
    ensures BearerToken(header).Some? && verify(BearerToken(header).value).Some? ==>
      var id := verify(BearerToken(header).value).value;
      (id !in users ==> g == Deny(Reply(500, "Authorization check failed")))
      && (id in users && users[id].role != Admin ==> g == Deny(Reply(403, "Admin access required")))
  {
    match VerifyToken(header, verify)
    case Deny(r) => Deny(r)
    case Pass(u) => VerifyAdmin(users, u)
  }
}
