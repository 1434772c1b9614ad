/** Password registration and login. `register` checks for a duplicate email,
    hashes the password and inserts the row; `login` looks the user up,
    compares the password and signs a one-hour token over
    `{id, name, email, role}`. bcrypt and jsonwebtoken are parameters. */
module AuthService {
  import opened Js
  import opened UserModel

  const SALT_ROUNDS: nat := 10
  /** `expiresIn: "1h"`. */
  const TOKEN_LIFETIME_SECONDS: nat := 3600

  /** bcrypt's two entry points. `hash(data, rounds, salt)` is the hash that
      `hash(data, rounds)` produces when its own random salt draw is `salt`. */
  datatype Bcrypt = Bcrypt(hash: (string, nat, string) -> string, compare: (string, string) -> bool)

  /** The one property of bcrypt the model relies on. */
  ghost predicate CompareAcceptsHash(bcrypt: Bcrypt) {
    forall data, rounds, salt :: bcrypt.compare(data, bcrypt.hash(data, rounds, salt))
  }

  datatype Claims = Claims(id: UserId, name: string, email: string, role: string)

  /** What `jwt.sign(claims, secret, { expiresIn: "1h" })` signs: the claims,
      the issue time in whole seconds and the expiry. */
  datatype Payload = Payload(claims: Claims, iat: nat, exp: nat)

  /** `jwt.sign` under the process-wide `JWT_SECRET`. */
  type Signer = Payload -> string

  function TokenPayload(u: User, now: Millis): (p: Payload)
    ensures p.claims == Claims(u.id, u.name, u.email, u.role)
    ensures p.iat * 1000 <= now < (p.iat + 1) * 1000
    ensures p.exp - p.iat == 3600
  {
    Payload(Claims(u.id, u.name, u.email, u.role), now / 1000, now / 1000 + TOKEN_LIFETIME_SECONDS)
  }

  /** What `register` returns: the new instance's id, name and email. The
      instance keeps the values it was given, so a number given as the name
      comes back as that number, while the row stores its string form. */
  datatype PublicUser = PublicUser(id: UserId, name: JsValue, email: JsValue)

  datatype ServiceError =
    | UserAlreadyExists
    | UserNotFound
    | InvalidPassword
    | BcryptArgument                        // bcrypt refuses a password that is not a string
    | Validation(violations: seq<Violation>)

  /** The message of the errors the service throws itself; the other two
      come from bcrypt and Sequelize. */
  function ErrorMessage(e: ServiceError): (m: Option<string>)
    ensures m.Some? <==> e.UserAlreadyExists? || e.UserNotFound? || e.InvalidPassword?
  {
    match e
    case UserAlreadyExists => Some("User already exists")
    case UserNotFound => Some("User not found")
    case InvalidPassword => Some("Invalid password")
    case _ => None
  }

  /** The row `register` asks `User.create` for. */
  function RegisterAttrs(bcrypt: Bcrypt, name: JsValue, email: JsValue, password: string, salt: string): (a: CreateAttrs)
    ensures a.name == name && a.email == email
    ensures a.password == Str(bcrypt.hash(password, SALT_ROUNDS, salt))
    // Role and verification are left to the schema's defaults.
    ensures a.role.None? && a.isEmailVerified.None?
  {
    CreateAttrs(name, email, Str(bcrypt.hash(password, SALT_ROUNDS, salt)))
  }

  method Register(store: UserStore, bcrypt: Bcrypt, name: JsValue, email: JsValue, password: JsValue, salt: string)
    returns (r: Result<PublicUser, ServiceError>)
    requires store.Valid()
    modifies store
    ensures store.Valid()
    ensures FindByEmail(old(store.users), email).Some? ==>
      r == Err(UserAlreadyExists) && ErrorMessage(r.error) == Some("User already exists")
    ensures r.Ok? <==>
      && FindByEmail(old(store.users), email).None?
      && password.Str? && NonNull(name) && NonNull(email) && store.isEmail(StringForm(email))
      && FindByEmail(old(store.users), Str(StringForm(email))).None?
    ensures r.Ok? ==>
      var id := old(store.nextId);
      && id !in old(store.users)
      && store.users == old(store.users)[id := User(id := id, email := StringForm(email), name := StringForm(name),
                                                   password := bcrypt.hash(password.s, SALT_ROUNDS, salt))]
      && store.nextId == id + 1
      && r.value == PublicUser(id, name, email)
    ensures r.Err? ==> store.users == old(store.users) && store.nextId == old(store.nextId)
    ensures r.Err? ==> r.error == UserAlreadyExists || r.error == BcryptArgument || r.error.Validation?
  {
    if FindByEmail(store.users, email).Some? {
      return Err(UserAlreadyExists);
    }
    if !password.Str? {
      return Err(BcryptArgument);
    }
    var created := store.Create(RegisterAttrs(bcrypt, name, email, password.s, salt));
    if created.Err? {
      return Err(Validation(created.error));
    }
    r := Ok(PublicUser(created.value.id, name, email));
  }

  /** `login`: a read-only lookup, a compare, and the signed token. */
  function Login(users: map<UserId, User>, bcrypt: Bcrypt, sign: Signer, email: JsValue, password: JsValue, now: Millis)
    : (r: Result<string, ServiceError>)
    requires EmailsUnique(users)
    ensures r == Err(UserNotFound) <==> forall id :: id in users ==> email != Str(users[id].email)
    ensures r.Ok? <==> exists id :: id in users && email == Str(users[id].email)
                                    && password.Str? && bcrypt.compare(password.s, users[id].password)
    ensures r.Ok? ==> exists id :: id in users && email == Str(users[id].email)
                                   && r.value == sign(TokenPayload(users[id], now))
    ensures r.Err? ==> r.error == UserNotFound || r.error == InvalidPassword || r.error == BcryptArgument
    ensures r.Err? && ErrorMessage(r.error).Some? ==>
      ErrorMessage(r.error) == Some(if r.error.UserNotFound? then "User not found" else "Invalid password")
  {
    match FindByEmail(users, email)
    case None => Err(UserNotFound)
    case Some(id) =>
      if !password.Str? then Err(BcryptArgument)
      else if !bcrypt.compare(password.s, users[id].password) then Err(InvalidPassword)
      else Ok(sign(TokenPayload(users[id], now)))
  }

  /** The row `register` stores lets the same password log in, and the token
      carries that row's claims. */
  lemma LoginAfterRegister(users: map<UserId, User>, bcrypt: Bcrypt, sign: Signer, id: UserId,
                           password: string, salt: string, now: Millis)
    requires EmailsUnique(users) && CompareAcceptsHash(bcrypt)
    requires id in users && users[id].password == bcrypt.hash(password, SALT_ROUNDS, salt)
    ensures Login(users, bcrypt, sign, Str(users[id].email), Str(password), now)
            == Ok(sign(TokenPayload(users[id], now)))
  {
  }

  /** A known email with a wrong password and an unknown email give different
      errors: the lookup result is visible to the caller. */
  lemma LoginRevealsUnknownEmail(users: map<UserId, User>, bcrypt: Bcrypt, sign: Signer, id: UserId,
                                 password: string, unknown: string, now: Millis)
    requires EmailsUnique(users) && id in users && !bcrypt.compare(password, users[id].password)
    requires forall k :: k in users ==> users[k].email != unknown
    ensures Login(users, bcrypt, sign, Str(users[id].email), Str(password), now) == Err(InvalidPassword)
    ensures Login(users, bcrypt, sign, Str(unknown), Str(password), now) == Err(UserNotFound)
  {
  }
}
