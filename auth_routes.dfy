/** The email-verification and two-factor handlers. Each loads one row,
    checks its flags, fields and times, assigns fields and saves. The
    authenticated handlers take the id the token middleware put in
    `req.user.id`; a row that is gone makes the handler's field access throw,
    which its `catch` turns into a 500. Mail delivery, the clock, `Math.random`,
    `crypto.randomBytes`, speakeasy, QR generation and token issuance are
    parameters. */
module AuthRoutes {
  import opened Js
  import opened OneTimeCodes
  import opened UserModel

  /** How long an emailed code stays valid after it was sent. */
  const CODE_VALIDITY_MS: int := 60 * 1000
  const DEFAULT_FRONTEND_URL := "http://localhost:3001"

  const EMAIL_REQUIRED := "Email is required."
  const USER_NOT_FOUND := "User not found."
  const ALREADY_VERIFIED := "Email is already verified."
  const EMAIL_LOGIN_UNAVAILABLE := "2FA email login not available."
  const EMAIL_NOT_VERIFIED := "Email not verified."
  const INVALID_CODE := "Invalid or expired 2FA code"
  const INVALID_METHOD := "Invalid 2FA method."

  datatype Body =
    | Message(message: string)                       // { message }
    | SuccessMessage(message: string)                // { success: true, message }
    | Success                                        // { success: true }
    | SuccessToken(token: string)                    // { success: true, token }
    | Failure(message: string)                       // { success: false, message }
    | CodeDebug(message: string, codeFromUser: JsValue, codeInDb: Option<string>,
                sentAt: Option<Millis>, now: Millis, diffMs: Option<int>)
    | Availability(isEmailVerified: bool, email: string, canUseEmail2FA: bool)
    | EmailSetup(message: string)                    // { method: "email", message }
    | AuthenticatorSetup(qr: string, secret: string) // { method: "authenticator", qr, secret }
    | TwoFAStatus(is2FAEmailEnabled: bool, is2FAAuthenticatorEnabled: bool,
                  isEmailVerified: bool, email: string)

  datatype Response = Response(status: nat, body: Body)

  /** What `sendMail` was asked to deliver (the HTML part is not modelled). */
  datatype Mail = Mail(to: string, subject: string, text: string)

  /** How the `sendMail` call ended. */
  datatype MailOutcome = Delivered | MailFailed(message: string)

  /** How `QRCode.toDataURL` settled: the data URL, or a rejection with its message. */
  datatype QrOutcome = Rendered(dataUrl: string) | RenderFailed(message: string)

  /** `speakeasy.generateSecret({ name: "FinMark" })`. */
  datatype GeneratedSecret = GeneratedSecret(base32: string, otpauthUrl: string)

  /** The message of the TypeError thrown by reading `prop` of a null row. */
  function NullRowMessage(prop: string): string {
    "Cannot read properties of null (reading '" + prop + "')"
  }

  /** The check both code handlers make: the submitted value is strictly equal
      to the stored code, a send time is stored, and at most 60 s have passed
      since it. */
  function CodeAccepted(u: User, code: JsValue, now: Millis): (ok: bool)
    ensures ok ==> u.twoFAEmailCodeSentAt.Some? && now <= u.twoFAEmailCodeSentAt.value + CODE_VALIDITY_MS
    ensures ok ==> (code.Str? && u.twoFAEmailCode == Some(code.s)) || (code.Null? && u.twoFAEmailCode.None?)
    // `===` never equates a number, a boolean or a missing field with a column.
    ensures !code.Str? && !code.Null? ==> !ok
  {
    && StrictEqualsColumn(u.twoFAEmailCode, code)
    && u.twoFAEmailCodeSentAt.Some?
    && now - u.twoFAEmailCodeSentAt.value <= CODE_VALIDITY_MS
  }

  /** A row with a freshly issued code. */
  function WithIssuedCode(u: User, code: string, now: Millis): User {
    u.(twoFAEmailCode := Some(code), twoFAEmailCodeSentAt := Some(now))
  }

  /** A row whose outstanding code has been consumed. */
  function WithCodeConsumed(u: User): User {
    u.(twoFAEmailCode := None, twoFAEmailCodeSentAt := None)
  }

  /** An issued code is accepted exactly when it is submitted as that string
      no later than 60 s after it was sent. */
  lemma IssuedCodeAcceptance(u: User, code: string, sentAt: Millis, submitted: JsValue, now: Millis)
    ensures CodeAccepted(WithIssuedCode(u, code, sentAt), submitted, now)
            <==> submitted == Str(code) && now <= sentAt + 60000
  {
  }

  /** Once consumed, no value is accepted at any time. */
  lemma ConsumedCodeRejected(u: User, submitted: JsValue, now: Millis)
    ensures !CodeAccepted(WithCodeConsumed(u), submitted, now)
  {
  }

  /** On a stored row, an accepted value is either the stored 6-digit code or
      JSON `null` on a row that holds a send time but no code. */
  lemma AcceptedValues(u: User, isEmail: string -> bool, submitted: JsValue, now: Millis)
    requires RecordOk(u, isEmail) && CodeAccepted(u, submitted, now)
    ensures || (u.twoFAEmailCode.Some? && submitted == Str(u.twoFAEmailCode.value)
                && IsSixDigitCode(submitted.s))
            || (u.twoFAEmailCode.None? && submitted == Null)
  {
  }

  // ---------------------------------------------------------------------------
  // POST /resend-verification

  method ResendVerification(store: UserStore, email: JsValue, randomBytes: seq<byte>,
                            frontendUrl: string, mail: MailOutcome)
    returns (res: Response, sent: Option<Mail>)
    requires store.Valid() && |randomBytes| == 32
    modifies store
    ensures store.Valid() && store.nextId == old(store.nextId)
    ensures !Truthy(email) ==>
      res == Response(400, Message(EMAIL_REQUIRED)) && sent.None? && store.users == old(store.users)
    ensures Truthy(email) && FindByEmail(old(store.users), email).None? ==>
      res == Response(400, Message(USER_NOT_FOUND)) && sent.None? && store.users == old(store.users)
    ensures Truthy(email) && FindByEmail(old(store.users), email).Some? ==>
      var id := FindByEmail(old(store.users), email).value;
      var u := old(store.users)[id];
      if u.isEmailVerified then
        res == Response(400, Message(ALREADY_VERIFIED)) && sent.None? && store.users == old(store.users)
      else
        var token := VerificationToken(randomBytes);
        && store.users == old(store.users)[id := u.(emailVerificationToken := Some(token))]
        && sent == Some(Mail(u.email, "Verify your email",
                             "Click the following link to verify your email: "
                             + OrElse(frontendUrl, DEFAULT_FRONTEND_URL) + "/verify-email?token=" + token))
        && res == if mail.Delivered? then Response(200, SuccessMessage("Verification email resent."))
                  else Response(500, Message("Failed to resend verification email."))
  {
    sent := None;
    if !Truthy(email) {
      return Response(400, Message(EMAIL_REQUIRED)), sent;
    }
    var found := FindByEmail(store.users, email);
    if found.None? {
      return Response(400, Message(USER_NOT_FOUND)), sent;
    }
    var user := store.users[found.value];
    if user.isEmailVerified {
      return Response(400, Message(ALREADY_VERIFIED)), sent;
    }
    var emailVerificationToken := VerificationToken(randomBytes);
    user := user.(emailVerificationToken := Some(emailVerificationToken));
    store.Save(user);
    var verifyUrl := OrElse(frontendUrl, DEFAULT_FRONTEND_URL) + "/verify-email?token=" + emailVerificationToken;
    var text := "Click the following link to verify your email: " + verifyUrl;
    assert text == "Click the following link to verify your email: "
                   + OrElse(frontendUrl, DEFAULT_FRONTEND_URL) + "/verify-email?token=" + emailVerificationToken;
    sent := Some(Mail(user.email, "Verify your email", text));
    if mail.Delivered? {
      res := Response(200, SuccessMessage("Verification email resent."));
    } else {
      res := Response(500, Message("Failed to resend verification email."));
    }
  }

  // ---------------------------------------------------------------------------
  // POST /2fa/email/send

  method SendEmailCode(store: UserStore, email: JsValue, random: real, now: Millis, mail: MailOutcome)
    returns (res: Response, sent: Option<Mail>)
    requires store.Valid() && 0.0 <= random < 1.0
    modifies store
    ensures store.Valid() && store.nextId == old(store.nextId)
    ensures res.status == 400 <==>
      || !Truthy(email)
      || FindByEmail(old(store.users), email).None?
      || !old(store.users)[FindByEmail(old(store.users), email).value].is2FAEmailEnabled
      || !old(store.users)[FindByEmail(old(store.users), email).value].isEmailVerified
    ensures res.status == 400 ==> sent.None? && store.users == old(store.users)
    ensures !Truthy(email) ==> res == Response(400, Message(EMAIL_REQUIRED))
    ensures Truthy(email) ==>
      match FindByEmail(old(store.users), email)
      case None => res == Response(400, Message(EMAIL_LOGIN_UNAVAILABLE))
      case Some(id) =>
        var u := old(store.users)[id];
        if !u.is2FAEmailEnabled then res == Response(400, Message(EMAIL_LOGIN_UNAVAILABLE))
        else if !u.isEmailVerified then res == Response(400, Message(EMAIL_NOT_VERIFIED))
        else
          var code := EmailCode(random);
          && store.users == old(store.users)[id := WithIssuedCode(u, code, now)]
          && sent == Some(Mail(u.email, "Your 2FA Code", "Your 2FA code is: " + code))
          && res == if mail.Delivered? then Response(200, SuccessMessage("2FA code sent to email."))
                    else Response(500, Message("Failed to send 2FA code."))
  {
    sent := None;
    if !Truthy(email) {
      return Response(400, Message(EMAIL_REQUIRED)), sent;
    }
    var found := FindByEmail(store.users, email);
    if found.None? || !store.users[found.value].is2FAEmailEnabled {
      return Response(400, Message(EMAIL_LOGIN_UNAVAILABLE)), sent;
    }
    var user := store.users[found.value];
    if !user.isEmailVerified {
      return Response(400, Message(EMAIL_NOT_VERIFIED)), sent;
    }
    var code := EmailCode(random);
    user := user.(twoFAEmailCode := Some(code));
    user := user.(twoFAEmailCodeSentAt := Some(now));
    store.Save(user);
    sent := Some(Mail(user.email, "Your 2FA Code", "Your 2FA code is: " + code));
    if mail.Delivered? {
      res := Response(200, SuccessMessage("2FA code sent to email."));
    } else {
      res := Response(500, Message("Failed to send 2FA code."));
    }
  }

  // ---------------------------------------------------------------------------
  // GET /2fa/email/available

  method EmailAvailable(store: UserStore, id: UserId) returns (res: Response)
    requires store.Valid()
    ensures id !in store.users ==> res == Response(500, Message("Failed to check email 2FA availability."))
    ensures id in store.users ==>
      && res.status == 200
      && res.body.Availability?
      && res.body.email == store.users[id].email
      && res.body.isEmailVerified == res.body.canUseEmail2FA == store.users[id].isEmailVerified
  {
    if id !in store.users {
      return Response(500, Message("Failed to check email 2FA availability."));
    }
    var user := store.users[id];
    res := Response(200, Availability(user.isEmailVerified, user.email, user.isEmailVerified));
  }

  // ---------------------------------------------------------------------------
  // POST /2fa/email/verify

  method VerifyEmailCode(store: UserStore, id: UserId, code: JsValue, now: Millis) returns (res: Response)
    requires store.Valid()
    modifies store
    ensures store.Valid() && store.nextId == old(store.nextId)
    ensures id !in old(store.users) ==>
      res == Response(500, Message("2FA email verification failed")) && store.users == old(store.users)
    ensures id in old(store.users) ==>
      var u := old(store.users)[id];
      && (res.status == 200 <==> CodeAccepted(u, code, now))
      && (CodeAccepted(u, code, now) ==>
            && res == Response(200, Success)
            && store.users == old(store.users)[id := WithCodeConsumed(u).(is2FAEmailEnabled := true)])
      && (!CodeAccepted(u, code, now) ==>
            && store.users == old(store.users)
            && res == Response(400, CodeDebug(INVALID_CODE, code, u.twoFAEmailCode, u.twoFAEmailCodeSentAt, now,
                                              if u.twoFAEmailCodeSentAt.Some?
                                              then Some(now - u.twoFAEmailCodeSentAt.value) else None)))
    ensures res.status == 200 ==> forall c, t :: !CodeAccepted(store.users[id], c, t)
  {
    if id !in store.users {
      return Response(500, Message("2FA email verification failed"));
    }
    var user := store.users[id];
    var sentAt := user.twoFAEmailCodeSentAt;
    var isValid := CodeAccepted(user, code, now);
    if isValid {
      user := user.(is2FAEmailEnabled := true);
      user := user.(twoFAEmailCode := None);
      user := user.(twoFAEmailCodeSentAt := None);
      store.Save(user);
      res := Response(200, Success);
    } else {
      var diffMs := if sentAt.Some? then Some(now - sentAt.value) else None;
      res := Response(400, CodeDebug(INVALID_CODE, code, user.twoFAEmailCode, sentAt, now, diffMs));
    }
  }

  // ---------------------------------------------------------------------------
  // POST /2fa/email/login

  method EmailLogin(store: UserStore, email: JsValue, code: JsValue, now: Millis,
                    generateToken: User -> Option<string>)
    returns (res: Response)
    requires store.Valid()
    modifies store
    ensures store.Valid() && store.nextId == old(store.nextId)
    ensures FindByEmail(old(store.users), email).None? ==>
      res == Response(400, Message(EMAIL_LOGIN_UNAVAILABLE)) && store.users == old(store.users)
    ensures FindByEmail(old(store.users), email).Some? ==>
      var id := FindByEmail(old(store.users), email).value;
      var u := old(store.users)[id];
      if !u.is2FAEmailEnabled then
        res == Response(400, Message(EMAIL_LOGIN_UNAVAILABLE)) && store.users == old(store.users)
      else if !CodeAccepted(u, code, now) then
        res == Response(400, Failure(INVALID_CODE)) && store.users == old(store.users)
      else
        && store.users == old(store.users)[id := WithCodeConsumed(u)]
        && res == match generateToken(WithCodeConsumed(u))
                  case Some(token) => Response(200, SuccessToken(token))
                  case None => Response(500, Message("2FA email login failed"))
    ensures res.status == 200 ==>
      && FindByEmail(old(store.users), email).Some?
      && var id := FindByEmail(old(store.users), email).value;
         && old(store.users)[id].is2FAEmailEnabled
         && CodeAccepted(old(store.users)[id], code, now)
         && forall c, t :: !CodeAccepted(store.users[id], c, t)
  {
    var found := FindByEmail(store.users, email);
    if found.None? || !store.users[found.value].is2FAEmailEnabled {
      return Response(400, Message(EMAIL_LOGIN_UNAVAILABLE));
    }
    var user := store.users[found.value];
    var isValid := CodeAccepted(user, code, now);
    if isValid {
      user := user.(twoFAEmailCode := None);
      user := user.(twoFAEmailCodeSentAt := None);
      store.Save(user);
      var token := generateToken(user);
      if token.Some? {
        res := Response(200, SuccessToken(token.value));
      } else {
        res := Response(500, Message("2FA email login failed"));
      }
    } else {
      res := Response(400, Failure(INVALID_CODE));
    }
  }

  // ---------------------------------------------------------------------------
  // GET /verify-email?token=

  predicate HoldsToken(users: map<UserId, User>, id: UserId, token: string) {
    id in users && users[id].emailVerificationToken == Some(token)
  }

  method VerifyEmailAddress(store: UserStore, token: Option<string>) returns (res: Response)
    requires store.Valid()
    modifies store
    ensures store.Valid() && store.nextId == old(store.nextId)
    ensures !Present(token) ==> res == Response(400, Message("Missing token")) && store.users == old(store.users)
    ensures Present(token) && (forall id :: !HoldsToken(old(store.users), id, token.value)) ==>
      res == Response(400, Message("Invalid or expired token")) && store.users == old(store.users)
    ensures res.status == 200 <==> Present(token) && exists id :: HoldsToken(old(store.users), id, token.value)
    ensures res.status == 200 ==>
      && res.body == SuccessMessage("Email verified!")
      && exists id :: && HoldsToken(old(store.users), id, token.value)
                      && store.users == old(store.users)[id := old(store.users)[id].(
                           isEmailVerified := true, emailVerificationToken := None)]
    ensures res.status == 200 ==> forall id :: !HoldsToken(store.users, id, token.value) || HoldsToken(old(store.users), id, token.value)
    // Tokens are not unique: the token is gone afterwards exactly when one row held it.
    ensures res.status == 200 ==>
      ((forall id :: !HoldsToken(store.users, id, token.value)) <==>
       (forall i, j :: HoldsToken(old(store.users), i, token.value) && HoldsToken(old(store.users), j, token.value) ==> i == j))
  {
    if !Present(token) {
      return Response(400, Message("Missing token"));
    }
    if !exists id | id in store.users :: HoldsToken(store.users, id, token.value) {
      return Response(400, Message("Invalid or expired token"));
    }
    var id :| id in store.users && HoldsToken(store.users, id, token.value);
    var user := store.users[id];
    user := user.(isEmailVerified := true);
    user := user.(emailVerificationToken := None);
    ghost var before := old(store.users);
    store.Save(user);
    assert !HoldsToken(store.users, id, token.value);
    forall i, j | HoldsToken(before, i, token.value) && HoldsToken(before, j, token.value) && i != j
      ensures exists k :: HoldsToken(store.users, k, token.value)
    {
      if i != id {
        assert HoldsToken(store.users, i, token.value);
      } else {
        assert HoldsToken(store.users, j, token.value);
      }
    }
    res := Response(200, SuccessMessage("Email verified!"));
  }

  // ---------------------------------------------------------------------------
  // POST /2fa/setup

  method Setup2FA(store: UserStore, id: UserId, requested: JsValue, random: real, now: Millis,
                  secret: GeneratedSecret, qrCode: string -> QrOutcome, mail: MailOutcome)
    returns (res: Response, sent: Option<Mail>)
    requires store.Valid() && 0.0 <= random < 1.0
    modifies store
    ensures store.Valid() && store.nextId == old(store.nextId)
    ensures requested != Str("email") && requested != Str("authenticator") ==>
      res == Response(400, Message(INVALID_METHOD)) && sent.None? && store.users == old(store.users)
    ensures requested == Str("email") ==>
      if id !in old(store.users) then
        res == Response(500, Message(NullRowMessage("is2FAEmailEnabled"))) && sent.None?
        && store.users == old(store.users)
      else
        var u := old(store.users)[id];
        if u.is2FAEmailEnabled then
          res == Response(400, Message("Email 2FA is already enabled.")) && sent.None?
          && store.users == old(store.users)
        else if !u.isEmailVerified then
          res == Response(400, Message(EMAIL_NOT_VERIFIED)) && sent.None? && store.users == old(store.users)
        else
          var code := EmailCode(random);
          && store.users == old(store.users)[id := WithIssuedCode(u, code, now)]
          && !store.users[id].is2FAEmailEnabled
          && sent == Some(Mail(u.email, "Your 2FA Setup Code", "Your 2FA setup code is: " + code))
          && res == match mail
                    case Delivered => Response(200, EmailSetup("2FA setup code sent to email."))
                    case MailFailed(m) => Response(500, Message(OrElse(m, "2FA setup failed")))
    ensures requested == Str("authenticator") ==>
      && sent.None?
      && if id !in old(store.users) then
           res == Response(500, Message(NullRowMessage("is2FAAuthenticatorEnabled")))
           && store.users == old(store.users)
         else
           var u := old(store.users)[id];
           if u.is2FAAuthenticatorEnabled then
             res == Response(400, Message("Authenticator 2FA is already enabled."))
             && store.users == old(store.users)
           else
             && store.users == old(store.users)[id := u.(twoFASecret := Some(secret.base32))]
             && !store.users[id].is2FAAuthenticatorEnabled
             && res == match qrCode(secret.otpauthUrl)
                       case Rendered(qr) => Response(200, AuthenticatorSetup(qr, secret.base32))
                       case RenderFailed(m) => Response(500, Message(OrElse(m, "2FA setup failed")))
  {
    sent := None;
    if requested == Str("email") {
      if id !in store.users {
        return Response(500, Message(NullRowMessage("is2FAEmailEnabled"))), sent;
      }
      var user := store.users[id];
      if user.is2FAEmailEnabled {
        return Response(400, Message("Email 2FA is already enabled.")), sent;
      }
      if !user.isEmailVerified {
        return Response(400, Message(EMAIL_NOT_VERIFIED)), sent;
      }
      var code := EmailCode(random);
      user := user.(twoFAEmailCode := Some(code));
      user := user.(twoFAEmailCodeSentAt := Some(now));
      store.Save(user);
      sent := Some(Mail(user.email, "Your 2FA Setup Code", "Your 2FA setup code is: " + code));
      match mail
      case Delivered =>
        res := Response(200, EmailSetup("2FA setup code sent to email."));
      case MailFailed(m) =>
        res := Response(500, Message(OrElse(m, "2FA setup failed")));
    } else if requested == Str("authenticator") {
      if id !in store.users {
        return Response(500, Message(NullRowMessage("is2FAAuthenticatorEnabled"))), sent;
      }
      var user := store.users[id];
      if user.is2FAAuthenticatorEnabled {
        return Response(400, Message("Authenticator 2FA is already enabled.")), sent;
      }
      user := user.(twoFASecret := Some(secret.base32));
      store.Save(user);
      match qrCode(secret.otpauthUrl)
      case Rendered(qr) =>
        res := Response(200, AuthenticatorSetup(qr, secret.base32));
      case RenderFailed(m) =>
        res := Response(500, Message(OrElse(m, "2FA setup failed")));
    } else {
      res := Response(400, Message(INVALID_METHOD));
    }
  }

  // ---------------------------------------------------------------------------
  // POST /2fa/disable

  method Disable2FA(store: UserStore, id: UserId, requested: JsValue) returns (res: Response)
    requires store.Valid()
    modifies store
    ensures store.Valid() && store.nextId == old(store.nextId)
    ensures requested != Str("email") && requested != Str("authenticator") ==>
      res == Response(400, Message(INVALID_METHOD)) && store.users == old(store.users)
    ensures requested == Str("email") ==>
      if id !in old(store.users) then
        res == Response(500, Message(NullRowMessage("is2FAEmailEnabled"))) && store.users == old(store.users)
      else
        var u := old(store.users)[id];
        if !u.is2FAEmailEnabled then
          res == Response(400, Message("Email 2FA is not enabled.")) && store.users == old(store.users)
        else
          && res == Response(200, SuccessMessage("Email 2FA disabled."))
          && store.users == old(store.users)[id := u.(is2FAEmailEnabled := false, twoFAEmailCode := None)]
    ensures requested == Str("authenticator") ==>
      if id !in old(store.users) then
        res == Response(500, Message(NullRowMessage("is2FAAuthenticatorEnabled")))
        && store.users == old(store.users)
      else
        var u := old(store.users)[id];
        if !u.is2FAAuthenticatorEnabled then
          res == Response(400, Message("Authenticator 2FA is not enabled.")) && store.users == old(store.users)
        else
          && res == Response(200, SuccessMessage("Authenticator 2FA disabled."))
          && store.users == old(store.users)[id := u.(is2FAAuthenticatorEnabled := false, twoFASecret := None)]
    // Each method is disabled on its own: the other method's flag never changes.
    ensures id in old(store.users) && requested == Str("email") ==>
      store.users[id].is2FAAuthenticatorEnabled == old(store.users)[id].is2FAAuthenticatorEnabled
    ensures id in old(store.users) && requested == Str("authenticator") ==>
      store.users[id].is2FAEmailEnabled == old(store.users)[id].is2FAEmailEnabled
  {
    if requested == Str("email") {
      if id !in store.users {
        return Response(500, Message(NullRowMessage("is2FAEmailEnabled")));
      }
      var user := store.users[id];
      if !user.is2FAEmailEnabled {
        return Response(400, Message("Email 2FA is not enabled."));
      }
      user := user.(is2FAEmailEnabled := false);
      user := user.(twoFAEmailCode := None);
      store.Save(user);
      res := Response(200, SuccessMessage("Email 2FA disabled."));
    } else if requested == Str("authenticator") {
      if id !in store.users {
        return Response(500, Message(NullRowMessage("is2FAAuthenticatorEnabled")));
      }
      var user := store.users[id];
      if !user.is2FAAuthenticatorEnabled {
        return Response(400, Message("Authenticator 2FA is not enabled."));
      }
      user := user.(is2FAAuthenticatorEnabled := false);
      user := user.(twoFASecret := None);
      store.Save(user);
      res := Response(200, SuccessMessage("Authenticator 2FA disabled."));
    } else {
      res := Response(400, Message(INVALID_METHOD));
    }
  }

  // ---------------------------------------------------------------------------
  // POST /2fa/verify (authenticator confirmation)

  method VerifyAuthenticator(store: UserStore, id: UserId, token: JsValue, now: Millis,
                             totpOk: (string, JsValue, Millis) -> bool)
    returns (res: Response)
    requires store.Valid()
    modifies store
    ensures store.Valid() && store.nextId == old(store.nextId)
    ensures id !in old(store.users) ==>
      res == Response(500, Message("2FA verification failed")) && store.users == old(store.users)
    ensures id in old(store.users) ==>
      var u := old(store.users)[id];
      if !Present(u.twoFASecret) then
        res == Response(400, Failure("2FA not set up for this user.")) && store.users == old(store.users)
      else if totpOk(u.twoFASecret.value, token, now) then
        res == Response(200, Success)
        && store.users == old(store.users)[id := u.(is2FAAuthenticatorEnabled := true)]
      else
        res == Response(400, Failure("Invalid 2FA token")) && store.users == old(store.users)
    ensures res.status == 200 <==>
      id in old(store.users) && Present(old(store.users)[id].twoFASecret)
      && totpOk(old(store.users)[id].twoFASecret.value, token, now)
  {
    if id !in store.users {
      return Response(500, Message("2FA verification failed"));
    }
    var user := store.users[id];
    if !Present(user.twoFASecret) {
      return Response(400, Failure("2FA not set up for this user."));
    }
    var verified := totpOk(user.twoFASecret.value, token, now);
    if verified {
      user := user.(is2FAAuthenticatorEnabled := true);
      store.Save(user);
      res := Response(200, Success);
    } else {
      res := Response(400, Failure("Invalid 2FA token"));
    }
  }

  // ---------------------------------------------------------------------------
  // GET /2fa/status

  method Status(store: UserStore, id: UserId) returns (res: Response)
    requires store.Valid()
    ensures id !in store.users ==> res == Response(500, Message("Failed to get 2FA status."))
    ensures id in store.users ==>
      && res.status == 200 && res.body.TwoFAStatus?
      && res.body.is2FAEmailEnabled == store.users[id].is2FAEmailEnabled
      && res.body.is2FAAuthenticatorEnabled == store.users[id].is2FAAuthenticatorEnabled
      && res.body.isEmailVerified == store.users[id].isEmailVerified
      && res.body.email == store.users[id].email
  {
    if id !in store.users {
      return Response(500, Message("Failed to get 2FA status."));
    }
    var user := store.users[id];
    res := Response(200, TwoFAStatus(user.is2FAEmailEnabled, user.is2FAAuthenticatorEnabled,
                                     user.isEmailVerified, user.email));
  }
}
