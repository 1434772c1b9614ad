/** The HTTP controllers for `/register` and `/login`: reject a request
    whose email or password is missing or falsy, otherwise hand the body to
    the service and answer with its result, or pass its error to `next`. */
module AuthController {
  import opened Js
  import opened UserModel
  import AuthService

  const MISSING_CREDENTIALS := "Email and password are required"

  /** The fields of `req.body` the service reads (`confirmPassword` is ignored). */
  datatype RequestBody = RequestBody(name: JsValue, email: JsValue, password: JsValue)

  datatype Body =
    | Message(message: string)              // { message }
    | UserJson(user: AuthService.PublicUser) // { id, name, email }
    | TokenJson(token: string)              // { token }

  /** Either a response is written, or the error goes to `next(err)` and
      nothing is written. */
  datatype Outcome =
    | Respond(status: nat, body: Body)
    | Next(err: AuthService.ServiceError)

  /** The guard both controllers start with: `if (!email || !password)`. */
  function Guard(body: RequestBody): (r: Option<Outcome>)
    ensures r.Some? <==> !Truthy(body.email) || !Truthy(body.password)
    ensures r.Some? ==> r.value == Respond(400, Message(MISSING_CREDENTIALS))
  {
    if !Truthy(body.email) || !Truthy(body.password) then Some(Respond(400, Message(MISSING_CREDENTIALS)))
    else None
  }

  method Register(store: UserStore, bcrypt: AuthService.Bcrypt, body: RequestBody, salt: string)
    returns (o: Outcome)
    requires store.Valid()
    modifies store
    ensures store.Valid()
    ensures Guard(body).Some? ==>
      o == Guard(body).value && store.users == old(store.users) && store.nextId == old(store.nextId)
    ensures o.Respond? && Guard(body).None? ==>
      var id := old(store.nextId);
      && body.password.Str? && NonNull(body.name)
      && o == Respond(201, UserJson(AuthService.PublicUser(id, body.name, body.email)))
      && id !in old(store.users)
      && store.users == old(store.users)[id := User(id := id, email := StringForm(body.email),
                                                   name := StringForm(body.name),
                                                   password := bcrypt.hash(body.password.s, AuthService.SALT_ROUNDS, salt))]
      && store.nextId == id + 1
    ensures Guard(body).None? ==>
      (o.Next? <==> || FindByEmail(old(store.users), body.email).Some?
                    || !body.password.Str? || !NonNull(body.name)
                    || !store.isEmail(StringForm(body.email))
                    || FindByEmail(old(store.users), Str(StringForm(body.email))).Some?)
    ensures o.Next? ==> store.users == old(store.users) && store.nextId == old(store.nextId)
    ensures o.Next? ==>
      o.err == AuthService.UserAlreadyExists || o.err == AuthService.BcryptArgument || o.err.Validation?
    ensures FindByEmail(old(store.users), body.email).Some? ==>
      (o.Respond? && o.status == 400) || o == Next(AuthService.UserAlreadyExists)
  {
    var guard := Guard(body);
    if guard.Some? {
      return guard.value;
    }
    var result := AuthService.Register(store, bcrypt, body.name, body.email, body.password, salt);
    match result
    case Ok(user) => o := Respond(201, UserJson(user));
    case Err(e) => o := Next(e);
  }

  function Login(users: map<UserId, User>, bcrypt: AuthService.Bcrypt, sign: AuthService.Signer,
                 body: RequestBody, now: Millis): (o: Outcome)
    requires EmailsUnique(users)
    ensures Guard(body).Some? ==> o == Guard(body).value
    ensures Guard(body).None? ==>
      match AuthService.Login(users, bcrypt, sign, body.email, body.password, now)
      case Ok(token) => o == Respond(200, TokenJson(token))
      case Err(e) => o == Next(e)
    ensures o.Respond? && o.status == 200 ==>
      exists id :: id in users && body.email == Str(users[id].email)
                   && o.body == TokenJson(sign(AuthService.TokenPayload(users[id], now)))
  {
    var guard := Guard(body);
    if guard.Some? then guard.value
    else
      match AuthService.Login(users, bcrypt, sign, body.email, body.password, now)
      case Ok(token) => Respond(200, TokenJson(token))
      case Err(e) => Next(e)
  }
}
