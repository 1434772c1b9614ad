/** The `User` table: its record type with the schema's defaults and
    nullability, and the store that `findOne`, `findByPk`, `create` and `save`
    act on. */
module UserModel {
  import opened Js
  import opened OneTimeCodes

  type UserId = nat

  /** A point in time or a difference of two, in milliseconds. */
  type Millis = nat

  const DEFAULT_ROLE := "user"

  /** One row of the table. Nullable columns are `Option`s; the arguments with
      a default are the columns the schema gives a `defaultValue` or lets be
      null, so `User(id := i, email := e, name := n, password := p)` is a row
      with every default filled in. `twoFAMethod` is declared by the schema
      and written by none of the handlers. */
  datatype User = User(
    id: UserId,
    email: string,
    name: string,
    password: string,
    role: string := DEFAULT_ROLE,
    is2FAEmailEnabled: bool := false,
    is2FAAuthenticatorEnabled: bool := false,
    twoFASecret: Option<string> := None,
    twoFAMethod: Option<string> := None,
    twoFAEmailCode: Option<string> := None,
    twoFAEmailCodeSentAt: Option<Millis> := None,
    isEmailVerified: bool := false,
    emailVerificationToken: Option<string> := None)

  /** The attributes a caller hands to `User.create`. `role` and
      `isEmailVerified` may be omitted (`None`), and then take their defaults. */
  datatype CreateAttrs = CreateAttrs(
    name: JsValue,
    email: JsValue,
    password: JsValue,
    role: Option<string> := None,
    isEmailVerified: Option<bool> := None)

  /** Why `User.create` refuses a row. */
  datatype Violation =
    | NotNull(field: string)      // allowNull: false on a null or missing value
    | NotAnEmail                  // the isEmail validator failed
    | EmailNotUnique              // the unique constraint on email

  /** A value `allowNull: false` lets through. */
  predicate NonNull(v: JsValue) {
    !v.Undefined? && !v.Null?
  }

  /** `String(v)`: the text a STRING column stores, and the text the schema's
      validators are run on, for a scalar request value. */
  function StringForm(v: JsValue): (r: string)
    ensures v.Str? ==> r == v.s
    ensures v.Bool? ==> r == (if v.b then "true" else "false")
    ensures v.Num? && v.n >= 0 ==> AllDigits(r) && DigitsValue(r) == v.n
    ensures v.Num? && v.n >= 0 ==> |r| > 0 && (r[0] == '0' ==> r == "0")
    ensures v.Num? && v.n < 0 ==>
      |r| > 1 && r[0] == '-' && AllDigits(r[1..]) && r[1] != '0' && DigitsValue(r[1..]) == -v.n
  {
    match v
    case Undefined => "undefined"
    case Null => "null"
    case Bool(b) => if b then "true" else "false"
    case Num(n) =>
      if n >= 0 then
        DecimalRoundTrip(n);
        Decimal(n)
      else
        DecimalRoundTrip(-n);
        assert ("-" + Decimal(-n))[1..] == Decimal(-n);
        "-" + Decimal(-n)
    case Str(s) => s
  }

  /** `allowNull: false` on one column. Sequelize does not check the type of
      a STRING value, so a number or a boolean is accepted. */
  function ColumnViolations(field: string, v: JsValue): (r: seq<Violation>)
    ensures r == [] <==> NonNull(v)
    ensures r != [] ==> r == [NotNull(field)]
  {
    if NonNull(v) then [] else [NotNull(field)]
  }

  lemma StringFormExamples()
    ensures StringForm(Num(42)) == "42" && StringForm(Num(-7)) == "-7" && StringForm(Num(0)) == "0"
    ensures StringForm(Bool(true)) == "true" && StringForm(Str("Bob")) == "Bob"
  {
    assert Decimal(42) == Decimal(4) + [DigitChar(2)];
  }

  /** All the schema's checks on the attributes of a new row, in column order. */
  function Violations(attrs: CreateAttrs, isEmail: string -> bool): (r: seq<Violation>)
    ensures r == [] <==>
      NonNull(attrs.email) && isEmail(StringForm(attrs.email)) && NonNull(attrs.name) && NonNull(attrs.password)
  {
    ColumnViolations("email", attrs.email)
    + (if NonNull(attrs.email) && !isEmail(StringForm(attrs.email)) then [NotAnEmail] else [])
    + ColumnViolations("name", attrs.name)
    + ColumnViolations("password", attrs.password)
  }

  /** The row `User.create(attrs)` builds under primary key `id`, before the
      unique constraint is consulted. */
  function Build(id: UserId, attrs: CreateAttrs, isEmail: string -> bool): (r: Result<User, seq<Violation>>)
    ensures r.Ok? <==>
      NonNull(attrs.email) && isEmail(StringForm(attrs.email)) && NonNull(attrs.name) && NonNull(attrs.password)
    ensures r.Err? ==> r.error != []
    ensures r.Ok? ==>
      && r.value.id == id
      && r.value.email == StringForm(attrs.email)
      && r.value.name == StringForm(attrs.name)
      && r.value.password == StringForm(attrs.password)
      && r.value.role == (if attrs.role.Some? then attrs.role.value else "user")
      && r.value.isEmailVerified == (attrs.isEmailVerified == Some(true))
      && !r.value.is2FAEmailEnabled && !r.value.is2FAAuthenticatorEnabled
      && r.value.twoFASecret.None? && r.value.twoFAMethod.None?
      && r.value.twoFAEmailCode.None? && r.value.twoFAEmailCodeSentAt.None?
      && r.value.emailVerificationToken.None?
  {
    var v := Violations(attrs, isEmail);
    if v != [] then Err(v)
    else
      var row := User(id := id, email := StringForm(attrs.email), name := StringForm(attrs.name),
                      password := StringForm(attrs.password));
      var row := if attrs.role.Some? then row.(role := attrs.role.value) else row;
      var row := if attrs.isEmailVerified.Some? then row.(isEmailVerified := attrs.isEmailVerified.value) else row;
      Ok(row)
  }

  /** A name that is a number or a boolean passes the schema and is stored
      as its text. */
  lemma ScalarNameStored(id: UserId, name: JsValue, email: string, password: string, isEmail: string -> bool)
    requires name.Num? || name.Bool?
    requires isEmail(email)
    ensures Build(id, CreateAttrs(name, Str(email), Str(password)), isEmail).Ok?
    ensures var row := Build(id, CreateAttrs(name, Str(email), Str(password)), isEmail).value;
      && row.email == email && row.password == password
      && (name.Num? && name.n >= 0 ==> DigitsValue(row.name) == name.n)
      && (name.Bool? ==> row.name == if name.b then "true" else "false")
  {
  }

  ghost predicate EmailsUnique(users: map<UserId, User>) {
    forall a, b :: a in users && b in users && users[a].email == users[b].email ==> a == b
  }

  /** `User.findOne({ where: { email } })`. A value that is not a string
      matches no row. */
  function FindByEmail(users: map<UserId, User>, email: JsValue): (r: Option<UserId>)
    requires EmailsUnique(users)
    ensures r.Some? ==> r.value in users && email == Str(users[r.value].email)
    ensures r.None? <==> forall id :: id in users ==> email != Str(users[id].email)
  {
    if email.Str? && exists id | id in users :: users[id].email == email.s then
      var id :| id in users && users[id].email == email.s;
      Some(id)
    else None
  }

  /** Each row is found by its own email, and only by it. */
  lemma FindByOwnEmail(users: map<UserId, User>, id: UserId)
    requires EmailsUnique(users) && id in users
    ensures FindByEmail(users, Str(users[id].email)) == Some(id)
  {
  }

  /** What every stored row satisfies besides the schema: an email code is
      never stored without its send time and is always a 6-digit code, and a
      verification token is always 64 hexadecimal digits. (The converse of the
      first does not hold: disabling email 2FA keeps the send time.) */
  predicate RecordOk(u: User, isEmail: string -> bool) {
    && isEmail(u.email)
    && (u.twoFAEmailCode.Some? ==> u.twoFAEmailCodeSentAt.Some? && IsSixDigitCode(u.twoFAEmailCode.value))
    && (u.emailVerificationToken.Some? ==> IsVerificationToken(u.emailVerificationToken.value))
  }

  class UserStore {
    var users: map<UserId, User>
    var nextId: UserId
    /** validator.js `isEmail`, which the schema's `validate: { isEmail: true }` runs. */
    const isEmail: string -> bool

    ghost predicate Valid()
      reads this
    {
      && (forall id :: id in users ==> users[id].id == id && id < nextId && RecordOk(users[id], isEmail))
      && EmailsUnique(users)
    }

    constructor (isEmail: string -> bool)
      ensures Valid()
      ensures users == map[] && nextId == 1 && this.isEmail == isEmail
    {
      users := map[];
      nextId := 1;
      this.isEmail := isEmail;
    }

    /** `User.create(attrs)`: validate, check the unique email, insert under
        the next auto-increment key. */
    method Create(attrs: CreateAttrs) returns (r: Result<User, seq<Violation>>)
      requires Valid()
      modifies this
      ensures Valid()
      ensures r.Ok? <==>
        Build(old(nextId), attrs, isEmail).Ok? && FindByEmail(old(users), Str(StringForm(attrs.email))).None?
      ensures r.Ok? ==>
        && r.value == Build(old(nextId), attrs, isEmail).value
        && old(nextId) !in old(users)
        && users == old(users)[old(nextId) := r.value]
        && nextId == old(nextId) + 1
      ensures r.Err? ==> users == old(users) && nextId == old(nextId)
      ensures r.Err? ==> r.error == if Build(old(nextId), attrs, isEmail).Err?
                                    then Build(old(nextId), attrs, isEmail).error
                                    else [EmailNotUnique]
    {
      var built := Build(nextId, attrs, isEmail);
      if built.Err? {
        return built;
      }
      if FindByEmail(users, Str(built.value.email)).Some? {
        return Err([EmailNotUnique]);
      }
      var row := built.value;
      users := users[nextId := row];
      nextId := nextId + 1;
      r := Ok(row);
    }

    /** `user.save()` on a row loaded from the store, whose email is unchanged. */
    method Save(u: User)
      requires Valid()
      requires u.id in users && u.email == users[u.id].email && RecordOk(u, isEmail)
      modifies this
      ensures Valid()
      ensures users == old(users)[u.id := u] && nextId == old(nextId)
    {
      users := users[u.id := u];
    }
  }
}
