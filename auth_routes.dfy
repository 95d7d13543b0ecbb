/** The account routes of server/routes/auth.js. Password hashing and token
    verification are the caller-supplied `hash` and `verify`; the clock is
    the parameter `now`. */
module AuthRoutes {
  import opened Wrappers
  import opened Strings
  import opened UserModel
  import opened AuthMiddleware
  import Validators
  import Db

  /** The claims and lifetime a signed token carries. */
  datatype TokenClaims = TokenClaims(userId: Id, expiresIn: string)

  /** `generateToken`: the configured lifetime, or seven days when unset. */
  function GenerateToken(userId: Id, jwtExpire: Option<string>): (c: TokenClaims)
    ensures c.userId == userId
    ensures Truthy(jwtExpire) ==> c.expiresIn == jwtExpire.value
    ensures !Truthy(jwtExpire) ==> c.expiresIn == "7d"
  {
    TokenClaims(userId, if Truthy(jwtExpire) then jwtExpire.value else "7d")
  }

  datatype RegisterForm = RegisterForm(
    name: Option<string>,
    email: Option<string>,
    phone: Option<string>,
    password: Option<string>,
    passwordConfirm: Option<string>)

  predicate AllFieldsGiven(f: RegisterForm) {
    Truthy(f.name) && Truthy(f.email) && Truthy(f.phone) && Truthy(f.password)
  }

  /** Some stored user has this e-mail once it is lower-cased, as the
      schema's setter also lower-cases the query. */
  predicate EmailTaken(users: map<Id, User>, email: string) {
    exists id :: id in users && users[id].email == ToLower(email)
  }

  /** The checks the register route makes before creating a user, in their
      order; `None` means none of them rejects the form. */
  function RegisterCheck(users: map<Id, User>, f: RegisterForm): (r: Option<Reply>)
    ensures !AllFieldsGiven(f) ==> r == Some(Reply(400, "All fields are required"))
    ensures AllFieldsGiven(f) && f.password != f.passwordConfirm ==>
      r == Some(Reply(400, "Passwords do not match"))
    ensures AllFieldsGiven(f) && f.password == f.passwordConfirm && !Validators.ValidateEmail(f.email.value) ==>
      r == Some(Reply(400, "Invalid email format"))
    ensures r.None? <==>
      (AllFieldsGiven(f) && f.password == f.passwordConfirm
       && Validators.ValidateEmail(f.email.value) && !EmailTaken(users, f.email.value))
    ensures r.Some? && r.value.status == 409 <==>
      (AllFieldsGiven(f) && f.password == f.passwordConfirm
       && Validators.ValidateEmail(f.email.value) && EmailTaken(users, f.email.value))
  {
    if !AllFieldsGiven(f) then Some(Reply(400, "All fields are required"))
    else if f.password != f.passwordConfirm then Some(Reply(400, "Passwords do not match"))
    else if !Validators.ValidateEmail(f.email.value) then Some(Reply(400, "Invalid email format"))
    else if EmailTaken(users, f.email.value) then Some(Reply(409, "Email already registered"))
    else None
  }

  /** The route never applies the password-length rule: a three-character
      password passes all of its checks and is refused only by the schema. */
  lemma ShortPasswordPassesRegisterChecks()
    ensures var f := RegisterForm(Some("Asha"), Some("asha@shop.in"), Some("9876543210"), Some("abc"), Some("abc"));
      RegisterCheck(map[], f).None?
      && !Validators.ValidatePassword(f.password)
      && !SchemaValid(NewUser("u1", "Asha", "asha@shop.in", "9876543210", "abc"))
  {
    var s := "asha@shop.in";
    assert s == ['a', 's', 'h', 'a', '@', 's', 'h', 'o', 'p', '.', 'i', 'n'];
    assert forall i :: 0 <= i < |s| ==> !IsSpace(s[i]);
    assert Validators.SoleAt(s, 4) && s[9] == '.';
  }

  /** POST /api/auth/register. `newId` is the id the database assigns. */
  method Register(db: Db.Database, f: RegisterForm, newId: Id, hash: string -> string, jwtExpire: Option<string>)
    returns (reply: Reply, token: Option<TokenClaims>, user: Option<PublicUser>)
    requires newId !in db.users
    modifies db
    ensures db.products == old(db.products) && db.orders == old(db.orders)
    ensures RegisterCheck(old(db.users), f).Some? ==>
      reply == RegisterCheck(old(db.users), f).value && db.users == old(db.users) && token.None? && user.None?
    ensures RegisterCheck(old(db.users), f).None? ==>
      var u := NewUser(newId, f.name.value, f.email.value, f.phone.value, f.password.value);
      if SchemaValid(u) then
        reply == Reply(201, "Account created successfully")
        && db.users == old(db.users)[newId := PreSave(u, true, hash)]
        && token == Some(GenerateToken(newId, jwtExpire))
        && user == Some(ToJSON(PreSave(u, true, hash)))
      else
        reply == Reply(500, "User validation failed") && db.users == old(db.users) && token.None? && user.None?
    ensures EmailsUnique(old(db.users)) ==> EmailsUnique(db.users)
  {
    token, user := None, None;
    var rejection := RegisterCheck(db.users, f);
    if rejection.Some? {
      reply := rejection.value;
      return;
    }
    var u := NewUser(newId, f.name.value, f.email.value, f.phone.value, f.password.value);
    if !SchemaValid(u) {
      reply := Reply(500, "User validation failed");
      return;
    }
    var saved := PreSave(u, true, hash);
    db.users := db.users[newId := saved];
    reply := Reply(201, "Account created successfully");
    token := Some(GenerateToken(newId, jwtExpire));
    user := Some(ToJSON(saved));
  }

  /** The stored user with exactly this e-mail. */
  function FindByEmail(users: map<Id, User>, email: string): (r: Option<Id>)
    requires EmailsUnique(users)
    ensures r.Some? <==> exists id :: id in users && users[id].email == email
    ensures r.Some? ==> r.value in users && users[r.value].email == email
  {
    if exists id :: id in users && users[id].email == email then
      var id :| id in users && users[id].email == email; Some(id)
    else None
  }

  datatype LoginDecision = Refuse(reply: Reply) | Admit(id: Id)

  /** The checks of the login route, in their order. */
  function LoginCheck(users: map<Id, User>, email: Option<string>, password: Option<string>, hash: string -> string): (d: LoginDecision)
    requires EmailsUnique(users)
    ensures !(Truthy(email) && Truthy(password)) ==> d == Refuse(Reply(400, "Email and password are required"))
    ensures d.Admit? <==>
      (Truthy(email) && Truthy(password) && FindByEmail(users, ToLower(email.value)).Some?
       && MatchPassword(users[FindByEmail(users, ToLower(email.value)).value], password.value, hash)
       && users[FindByEmail(users, ToLower(email.value)).value].status == Active)
    ensures d.Admit? ==> d.id in users && users[d.id].email == ToLower(email.value)
    ensures Truthy(email) && Truthy(password) && FindByEmail(users, ToLower(email.value)).None? ==>
      d == Refuse(Reply(401, "Invalid email or password"))
    ensures Truthy(email) && Truthy(password) && FindByEmail(users, ToLower(email.value)).Some?
            && !MatchPassword(users[FindByEmail(users, ToLower(email.value)).value], password.value, hash) ==>
      d == Refuse(Reply(401, "Invalid email or password"))
    ensures d.Refuse? && d.reply.status == 403 ==>
      MatchPassword(users[FindByEmail(users, ToLower(email.value)).value], password.value, hash)
  {
    if !(Truthy(email) && Truthy(password)) then Refuse(Reply(400, "Email and password are required"))
    else
      match FindByEmail(users, ToLower(email.value))
      case None => Refuse(Reply(401, "Invalid email or password"))
      case Some(id) =>
        if !MatchPassword(users[id], password.value, hash) then Refuse(Reply(401, "Invalid email or password"))
        else if users[id].status != Active then Refuse(Reply(403, "Your account is not active"))
        else Admit(id)
  }

  /** POST /api/auth/login: only a fully successful login records `now`. */
  method Login(db: Db.Database, email: Option<string>, password: Option<string>, hash: string -> string,
               now: int, jwtExpire: Option<string>)
    returns (reply: Reply, token: Option<TokenClaims>, user: Option<PublicUser>)
    requires EmailsUnique(db.users)
    modifies db
    ensures db.products == old(db.products) && db.orders == old(db.orders)
    ensures var d := LoginCheck(old(db.users), email, password, hash);
      match d
      case Refuse(r) => reply == r && db.users == old(db.users) && token.None? && user.None?
      case Admit(id) =>
        reply == Reply(200, "Login successful")
        && db.users == old(db.users)[id := old(db.users)[id].(lastLogin := Some(now))]
        && token == Some(GenerateToken(id, jwtExpire))
        && user == Some(ToJSON(db.users[id]))
    ensures EmailsUnique(db.users)
  {
    token, user := None, None;
    var d := LoginCheck(db.users, email, password, hash);
    match d
    case Refuse(r) =>
      reply := r;
    case Admit(id) =>
      var saved := PreSave(db.users[id].(lastLogin := Some(now)), false, hash);
      db.users := db.users[id := saved];
      reply := Reply(200, "Login successful");
      token := Some(GenerateToken(id, jwtExpire));
      user := Some(ToJSON(saved));
  }

  /** A login leaves the stored password alone, so the same password keeps
      working afterwards. */
  lemma LoginKeepsPassword(users: map<Id, User>, email: Option<string>, password: Option<string>, hash: string -> string, now: int)
    requires EmailsUnique(users)
    requires LoginCheck(users, email, password, hash).Admit?
    ensures var id := LoginCheck(users, email, password, hash).id;
      var after := users[id := users[id].(lastLogin := Some(now))];
      EmailsUnique(after) && LoginCheck(after, email, password, hash) == LoginCheck(users, email, password, hash)
  {
    var id := LoginCheck(users, email, password, hash).id;
    var after := users[id := users[id].(lastLogin := Some(now))];
    assert EmailsUnique(after);
    assert after[id].email == ToLower(email.value);
    var found := FindByEmail(after, ToLower(email.value));
    assert found.Some? && after[found.value].email == after[id].email;
    assert found == Some(id);
  }

  /** POST /api/auth/logout: the server keeps no session, so nothing changes. */
  method Logout(db: Db.Database) returns (reply: Reply)
    ensures reply == Reply(200, "Logged out successfully")
  {
    reply := Reply(200, "Logged out successfully");
  }

  /** POST /api/auth/verify-token. */
  function VerifyTokenRoute(header: Option<string>, verify: string -> Option<Id>, users: map<Id, User>): (a: Answer<PublicUser>)
    ensures a.data.Some? <==>
      (BearerToken(header).Some? && verify(BearerToken(header).value).Some?
       && verify(BearerToken(header).value).value in users)
    ensures a.data.Some? ==>
      a.reply.status == 200 && a.data.value == ToJSON(users[verify(BearerToken(header).value).value])
    ensures a.data.None? ==> a.reply.status == 401
    ensures BearerToken(header).None? ==> a.reply.message == "No token provided"
    ensures BearerToken(header).Some? && verify(BearerToken(header).value).None? ==> a.reply.message == "Invalid token"
    ensures (BearerToken(header).Some? && verify(BearerToken(header).value).Some?
      && verify(BearerToken(header).value).value !in users) ==> a.reply.message == "User not found"
  {
    match BearerToken(header)
    case None => Answer(Reply(401, "No token provided"), None)
    case Some(token) =>
      match verify(token)
      case None => Answer(Reply(401, "Invalid token"), None)
      case Some(id) =>
        if id !in users then Answer(Reply(401, "User not found"), None)
        else Answer(Reply(200, "OK"), Some(ToJSON(users[id])))
  }
}
