/**
  backend/src/routes/auth.js: registration, login and the `auth` bearer-token
  middleware. bcrypt, jsonwebtoken's verify and express-validator's `isEmail`
  are inputs (`hash`, `passwordMatches`, `verify`, `isEmail`); a signed token
  is represented by the claims it carries.
 */
module AuthRoutes {
  import opened Wrappers
  import opened Http
  import opened Db

  /** The user fields a client may see; there is no password hash here. */
  datatype PublicUser = PublicUser(id: Id, name: string, email: string, role: string, trustScore: real)

  /** `{ token, user }` */
  datatype Session = Session(token: Payload, user: PublicUser)

  function Public(u: User): PublicUser { PublicUser(u.id, u.name, u.email, u.role, u.trustScore) }

  /** The claims both endpoints sign: `{ sub: user.id, role: user.role }`. */
  function Claims(u: User): (p: Payload)
    ensures p.Keys == {"sub", "role"} && p["sub"] == u.id && p["role"] == u.role
  {
    map["sub" := u.id, "role" := u.role]
  }

  /** The express-validator checks of POST /register. */
  predicate RegistrationValid(name: string, email: string, password: string, isEmail: string -> bool)
  {
    |name| >= 2 && isEmail(email) && |password| >= 6
  }

  /** The PostgreSQL error, if any, that INSERT INTO users raises. */
  function InsertUserError(users: seq<User>, id: Id, email: string): Option<QueryError>
  {
    if id in UserIds(users) then Some(UniqueViolation("users_pkey"))
    else if exists i :: 0 <= i < |users| && users[i].email == email then
      Some(UniqueViolation("users_email_key"))
    else None
  }

  /** POST /register: validate, hash, insert a 'citizen' with trust 0, and
      answer with a token for `{ sub, role }` and the new user. A failed
      validation answers 400 before hashing; a failed insert answers 400. */
  method Register(db: Database, name: string, email: string, password: string,
                  isEmail: string -> bool, hash: string -> string, id: Id)
    returns (r: Response<Session>)
    requires db.Valid()
    modifies db
    ensures db.Valid()
    ensures db.reports == old(db.reports) && db.verifications == old(db.verifications)
    ensures db.events == old(db.events)
    ensures !RegistrationValid(name, email, password, isEmail) ==>
      r == Fail(400, "Invalid value") && db.users == old(db.users)
    ensures RegistrationValid(name, email, password, isEmail) && InsertUserError(old(db.users), id, email).Some? ==>
      r == Fail(400, InsertUserError(old(db.users), id, email).value.Message()) && db.users == old(db.users)
    ensures RegistrationValid(name, email, password, isEmail) && InsertUserError(old(db.users), id, email).None? ==>
      var u := User(id, name, email, hash(password), "citizen", 0.0);
      && db.users == old(db.users) + [u]
      && r == Ok(200, Session(Claims(u), Public(u)))
  {
    if !RegistrationValid(name, email, password, isEmail) {
      return Fail(400, "Invalid value");
    }
    var passwordHash := hash(password);
    var error := InsertUserError(db.users, id, email);
    if error.Some? {
      return Fail(400, error.value.Message());
    }
    var u := User(id, name, email, passwordHash, "citizen", 0.0);
    UserIdsAppend(db.users, u);
    db.users := db.users + [u];
    r := Ok(200, Session(Claims(u), Public(u)));
  }

  lemma UserIdsAppend(users: seq<User>, u: User)
    ensures UserIds(users + [u]) == UserIds(users) + {u.id}
  {
    var r := users + [u];
    forall x | x in UserIds(r) ensures x in UserIds(users) + {u.id} {
      var i :| 0 <= i < |r| && r[i].id == x;
      if i < |users| { assert users[i].id == x; }
    }
    forall x | x in UserIds(users) ensures x in UserIds(r) {
      var i :| 0 <= i < |users| && users[i].id == x;
      assert r[i].id == x;
    }
    assert r[|users|].id == u.id;
  }

  /** POST /login. An unknown email and a wrong password get the same 401
      "Invalid credentials"; success carries `{ sub, role }` and only the
      public fields of the user. `password` is `None` when it is not a string. */
  method Login(db: Database, email: string, password: Option<string>,
               isEmail: string -> bool, passwordMatches: (string, string) -> bool)
    returns (r: Response<Session>)
    ensures !(isEmail(email) && password.Some?) ==> r == Fail(400, "Invalid value")
    ensures isEmail(email) && password.Some? ==>
      match FindUserByEmail(db.users, email)
      case None => r == Fail(401, "Invalid credentials")
      case Some(u) =>
        if passwordMatches(password.value, u.passwordHash) then r == Ok(200, Session(Claims(u), Public(u)))
        else r == Fail(401, "Invalid credentials")
    ensures r.Ok? ==> exists i :: (0 <= i < |db.users| && db.users[i].email == email
      && r.value.token["sub"] == db.users[i].id && r.value.user == Public(db.users[i]))
  {
    if !(isEmail(email) && password.Some?) {
      return Fail(400, "Invalid value");
    }
    var user := FindUserByEmail(db.users, email);
    if user.None? {
      return Fail(401, "Invalid credentials");
    }
    var ok := passwordMatches(password.value, user.value.passwordHash);
    if !ok {
      return Fail(401, "Invalid credentials");
    }
    r := Ok(200, Session(Claims(user.value), Public(user.value)));
  }

  /** `hdr.startsWith("Bearer ") ? hdr.slice(7) : null`, then the truthiness test. */
  function BearerToken(header: Option<string>): (token: Option<string>)
    ensures token.Some? <==> header.Some? && "Bearer " <= header.value && |header.value| > 7
    ensures token.Some? ==> header.value == "Bearer " + token.value && token.value != ""
  {
    var hdr := header.GetOr("");
    if "Bearer " <= hdr && hdr[7..] != "" then Some(hdr[7..]) else None
  }

  /** The prefix is matched exactly: another capitalisation is a missing token. */
  lemma BearerIsCaseSensitive(rest: string)
    ensures BearerToken(Some("bearer " + rest)).None?
    ensures BearerToken(Some("Bearer ")).None?
  {
    assert ("bearer " + rest)[0] == 'b';
  }

  /** The `auth` middleware: 401 "Missing token" without a usable bearer
      token, 401 "Invalid token" when verification fails, otherwise
      `req.user` is the decoded payload and `next` runs once. */
  method Auth(ex: Exchange, verify: string -> Option<Payload>)
    requires ex.nextCalls == 0 && ex.reply == None
    modifies ex
    ensures BearerToken(ex.authorization).None? ==>
      ex.reply == Some((401, "Missing token")) && ex.nextCalls == 0 && ex.user == old(ex.user)
    ensures BearerToken(ex.authorization).Some? && verify(BearerToken(ex.authorization).value).None? ==>
      ex.reply == Some((401, "Invalid token")) && ex.nextCalls == 0 && ex.user == old(ex.user)
    ensures BearerToken(ex.authorization).Some? && verify(BearerToken(ex.authorization).value).Some? ==>
      ex.user == verify(BearerToken(ex.authorization).value) && ex.nextCalls == 1 && ex.reply == None
  {
    var token := BearerToken(ex.authorization);
    if token.None? {
      ex.Reject(401, "Missing token");
      return;
    }
    var decoded := verify(token.value);
    if decoded.None? {
      ex.Reject(401, "Invalid token");
    } else {
      ex.Admit(decoded.value);
    }
  }
}
