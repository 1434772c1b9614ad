/** Request sequences a client can send, composed from the handlers'
    contracts. Each one states what the whole exchange leads to. */
module Scenarios {
  import opened Js
  import opened OneTimeCodes
  import opened UserModel
  import AuthService
  import AuthController
  import opened AuthRoutes
  import Passport

  /** `/2fa/email/send`, then `/2fa/email/login` with the mailed code within
      the minute, then the same code again. The first login consumes the code
      whatever the token issuer does, so the replay is refused; the first
      answer is the issuer's token, or a 500 when the issuer throws. */
  method SendThenLoginTwice(store: UserStore, id: UserId, random: real, sentAt: Millis, loginAt: Millis,
                            generateToken: User -> Option<string>)
    returns (send: Response, first: Response, replay: Response)
    requires store.Valid() && 0.0 <= random < 1.0
    requires id in store.users && store.users[id].email != ""
    requires store.users[id].is2FAEmailEnabled && store.users[id].isEmailVerified
    requires sentAt <= loginAt <= sentAt + 60000
    modifies store
    ensures send == Response(200, SuccessMessage("2FA code sent to email."))
    ensures (first.status == 200 && first.body.SuccessToken?)
            || first == Response(500, Message("2FA email login failed"))
    ensures replay == Response(400, Failure(INVALID_CODE))
    ensures id in store.users && store.users[id].is2FAEmailEnabled
    ensures store.users[id].twoFAEmailCode.None? && store.users[id].twoFAEmailCodeSentAt.None?
  {
    var email := store.users[id].email;
    FindByOwnEmail(store.users, id);
    var sent;
    send, sent := SendEmailCode(store, Str(email), random, sentAt, Delivered);
    var code := EmailCode(random);
    FindByOwnEmail(store.users, id);
    first := EmailLogin(store, Str(email), Str(code), loginAt, generateToken);
    FindByOwnEmail(store.users, id);
    replay := EmailLogin(store, Str(email), Str(code), loginAt, generateToken);
  }

  /** The same exchange with the issuer the route actually has: its
      `generateToken` is not exported by the controller module, so calling it
      throws. A correct, timely code is then consumed and answered with 500,
      and it cannot be used again. */
  method SendThenLoginAsWritten(store: UserStore, id: UserId, random: real, sentAt: Millis, loginAt: Millis)
    returns (first: Response, replay: Response)
    requires store.Valid() && 0.0 <= random < 1.0
    requires id in store.users && store.users[id].email != ""
    requires store.users[id].is2FAEmailEnabled && store.users[id].isEmailVerified
    requires sentAt <= loginAt <= sentAt + 60000
    modifies store
    ensures first == Response(500, Message("2FA email login failed"))
    ensures replay == Response(400, Failure(INVALID_CODE))
  {
    var email := store.users[id].email;
    FindByOwnEmail(store.users, id);
    var send, sent := SendEmailCode(store, Str(email), random, sentAt, Delivered);
    FindByOwnEmail(store.users, id);
    var throws: User -> Option<string> := u => None;
    first := EmailLogin(store, Str(email), Str(EmailCode(random)), loginAt, throws);
    FindByOwnEmail(store.users, id);
    replay := EmailLogin(store, Str(email), Str(EmailCode(random)), loginAt, throws);
  }

  /** A code is refused once more than a minute has passed since it was sent,
      and the refusal leaves it in place. */
  method SendThenLoginLate(store: UserStore, id: UserId, random: real, sentAt: Millis, loginAt: Millis,
                           generateToken: User -> Option<string>)
    returns (late: Response)
    requires store.Valid() && 0.0 <= random < 1.0
    requires id in store.users && store.users[id].email != ""
    requires store.users[id].is2FAEmailEnabled && store.users[id].isEmailVerified
    requires loginAt > sentAt + 60000
    modifies store
    ensures late == Response(400, Failure(INVALID_CODE))
    ensures id in store.users && store.users[id].twoFAEmailCode == Some(EmailCode(random))
  {
    var email := store.users[id].email;
    FindByOwnEmail(store.users, id);
    var send, sent := SendEmailCode(store, Str(email), random, sentAt, Delivered);
    FindByOwnEmail(store.users, id);
    late := EmailLogin(store, Str(email), Str(EmailCode(random)), loginAt, generateToken);
  }

  /** Email setup, then `/2fa/email/verify` with the mailed code: email 2FA
      is on only after the second request, and `/2fa/status` reports it. */
  method SetupThenVerifyEmail(store: UserStore, id: UserId, random: real, sentAt: Millis, verifyAt: Millis,
                              secret: GeneratedSecret, qrCode: string -> QrOutcome)
    returns (setup: Response, verify: Response, status: Response)
    requires store.Valid() && 0.0 <= random < 1.0
    requires id in store.users && !store.users[id].is2FAEmailEnabled && store.users[id].isEmailVerified
    requires sentAt <= verifyAt <= sentAt + 60000
    modifies store
    ensures setup == Response(200, EmailSetup("2FA setup code sent to email."))
    ensures verify == Response(200, Success)
    ensures status.status == 200 && status.body.TwoFAStatus? && status.body.is2FAEmailEnabled
    ensures status.body.is2FAAuthenticatorEnabled == old(store.users[id].is2FAAuthenticatorEnabled)
  {
    var sent;
    setup, sent := Setup2FA(store, id, Str("email"), random, sentAt, secret, qrCode, Delivered);
    assert !store.users[id].is2FAEmailEnabled;
    verify := VerifyEmailCode(store, id, Str(EmailCode(random)), verifyAt);
    status := Status(store, id);
  }

  /** Authenticator setup, then `/2fa/verify` with a token the TOTP check
      accepts for the new secret: the flag is set by the second request only.
      The secret is saved before the QR code is rendered, so the confirmation
      succeeds even when rendering failed and setup answered 500. */
  method SetupThenVerifyAuthenticator(store: UserStore, id: UserId, secret: GeneratedSecret,
                                      qrCode: string -> QrOutcome, token: JsValue, now: Millis,
                                      totpOk: (string, JsValue, Millis) -> bool)
    returns (setup: Response, verify: Response)
    requires store.Valid()
    requires id in store.users && !store.users[id].is2FAAuthenticatorEnabled
    requires secret.base32 != "" && totpOk(secret.base32, token, now)
    modifies store
    ensures setup == match qrCode(secret.otpauthUrl)
                     case Rendered(qr) => Response(200, AuthenticatorSetup(qr, secret.base32))
                     case RenderFailed(m) => Response(500, Message(OrElse(m, "2FA setup failed")))
    ensures verify == Response(200, Success)
    ensures id in store.users
    ensures store.users[id].is2FAAuthenticatorEnabled && store.users[id].twoFASecret == Some(secret.base32)
    ensures store.users[id].is2FAEmailEnabled == old(store.users[id].is2FAEmailEnabled)
  {
    var sent;
    setup, sent := Setup2FA(store, id, Str("authenticator"), 0.0, now, secret, qrCode, Delivered);
    verify := VerifyAuthenticator(store, id, token, now, totpOk);
  }

  /** With both methods on, disabling one leaves the other on. */
  method DisableOneOfTwo(store: UserStore, id: UserId) returns (disable: Response, status: Response)
    requires store.Valid()
    requires id in store.users && store.users[id].is2FAEmailEnabled && store.users[id].is2FAAuthenticatorEnabled
    modifies store
    ensures disable == Response(200, SuccessMessage("Email 2FA disabled."))
    ensures status.status == 200 && status.body.TwoFAStatus?
    ensures !status.body.is2FAEmailEnabled && status.body.is2FAAuthenticatorEnabled
  {
    disable := Disable2FA(store, id, Str("email"));
    status := Status(store, id);
  }

  /** Disabling email 2FA clears the code but keeps its send time, so within
      the minute `/2fa/email/verify` with `{ "code": null }` turns email 2FA
      back on without any code. */
  method NullCodeAfterDisable(store: UserStore, id: UserId, random: real, sentAt: Millis, verifyAt: Millis)
    returns (send: Response, disable: Response, verify: Response)
    requires store.Valid() && 0.0 <= random < 1.0
    requires id in store.users && store.users[id].email != ""
    requires store.users[id].is2FAEmailEnabled && store.users[id].isEmailVerified
    requires sentAt <= verifyAt <= sentAt + 60000
    modifies store
    ensures send.status == 200 && disable.status == 200
    ensures verify == Response(200, Success)
    ensures id in store.users && store.users[id].is2FAEmailEnabled
  {
    var email := store.users[id].email;
    FindByOwnEmail(store.users, id);
    var sent;
    send, sent := SendEmailCode(store, Str(email), random, sentAt, Delivered);
    disable := Disable2FA(store, id, Str("email"));
    assert store.users[id].twoFAEmailCode.None? && store.users[id].twoFAEmailCodeSentAt == Some(sentAt);
    verify := VerifyEmailCode(store, id, Null, verifyAt);
  }

  /** `/resend-verification`, then `/verify-email` with the mailed token, then
      the same token again: the address is verified once and the token is
      spent. */
  method ResendThenVerify(store: UserStore, id: UserId, randomBytes: seq<byte>, frontendUrl: string)
    returns (resend: Response, verify: Response, reuse: Response)
    requires store.Valid() && |randomBytes| == 32
    requires id in store.users && store.users[id].email != "" && !store.users[id].isEmailVerified
    requires forall k :: k in store.users && k != id ==>
               store.users[k].emailVerificationToken != Some(VerificationToken(randomBytes))
    modifies store
    ensures resend == Response(200, SuccessMessage("Verification email resent."))
    ensures verify == Response(200, SuccessMessage("Email verified!"))
    ensures reuse == Response(400, Message("Invalid or expired token"))
    ensures id in store.users
    ensures store.users[id].isEmailVerified && store.users[id].emailVerificationToken.None?
  {
    var email := store.users[id].email;
    FindByOwnEmail(store.users, id);
    var token := VerificationToken(randomBytes);
    var sent;
    resend, sent := ResendVerification(store, Str(email), randomBytes, frontendUrl, Delivered);
    assert HoldsToken(store.users, id, token);
    assert forall k :: HoldsToken(store.users, k, token) ==> k == id;
    verify := VerifyEmailAddress(store, Some(token));
    assert forall k :: !HoldsToken(store.users, k, token);
    reuse := VerifyEmailAddress(store, Some(token));
  }

  /** Nothing makes verification tokens unique. When two rows hold the same
      token, `/verify-email` with it succeeds twice in a row, verifying one
      holder each time. */
  method SharedTokenVerifiesTwice(store: UserStore, a: UserId, b: UserId, token: string)
    returns (first: Response, second: Response)
    requires store.Valid() && token != "" && a != b
    requires HoldsToken(store.users, a, token) && HoldsToken(store.users, b, token)
    modifies store
    ensures first == Response(200, SuccessMessage("Email verified!"))
    ensures second == Response(200, SuccessMessage("Email verified!"))
  {
    first := VerifyEmailAddress(store, Some(token));
    assert HoldsToken(store.users, a, token) || HoldsToken(store.users, b, token);
    second := VerifyEmailAddress(store, Some(token));
  }

  /** `/register` then `/login` with the same credentials: the login answers
      200 with a token signed over the new row's claims. */
  method RegisterThenLogin(store: UserStore, bcrypt: AuthService.Bcrypt, sign: AuthService.Signer,
                           body: AuthController.RequestBody, salt: string, now: Millis)
    returns (register: AuthController.Outcome, login: AuthController.Outcome)
    requires store.Valid() && AuthService.CompareAcceptsHash(bcrypt)
    requires body.name.Str? && body.email.Str? && body.password.Str?
    requires body.email.s != "" && body.password.s != "" && store.isEmail(body.email.s)
    requires FindByEmail(store.users, body.email).None?
    modifies store
    ensures register.Respond? && register.status == 201
    ensures old(store.nextId) in store.users
    ensures login == AuthController.Respond(200, AuthController.TokenJson(
                       sign(AuthService.TokenPayload(store.users[old(store.nextId)], now))))
    ensures store.users[old(store.nextId)].email == body.email.s
    ensures store.users[old(store.nextId)].role == DEFAULT_ROLE
  {
    register := AuthController.Register(store, bcrypt, body, salt);
    var id := old(store.nextId);
    AuthService.LoginAfterRegister(store.users, bcrypt, sign, id, body.password.s, salt, now);
    login := AuthController.Login(store.users, bcrypt, sign, body, now);
  }

  /** `/register` with a number as the name: the row is created with the
      number's text as its name, and the answer echoes the number. */
  method RegisterNumericName(store: UserStore, bcrypt: AuthService.Bcrypt, email: string, password: string,
                             salt: string)
    returns (register: AuthController.Outcome)
    requires store.Valid() && email != "" && password != "" && store.isEmail(email)
    requires FindByEmail(store.users, Str(email)).None?
    modifies store
    ensures register == AuthController.Respond(201, AuthController.UserJson(
                          AuthService.PublicUser(old(store.nextId), Num(42), Str(email))))
    ensures old(store.nextId) in store.users && store.users[old(store.nextId)].name == "42"
  {
    StringFormExamples();
    register := AuthController.Register(store, bcrypt, AuthController.RequestBody(Num(42), Str(email), Str(password)), salt);
  }

  /** A Google sign-in for an address nobody has registered yields a
      verified row, and a second sign-in with the same profile saves
      nothing. */
  method GoogleSignInTwice(store: UserStore, profile: Passport.Profile, mail: MailOutcome)
    returns (first: Result<User, Passport.GoogleError>, second: Result<User, Passport.GoogleError>, savedAgain: bool)
    requires store.Valid() && profile.emails != [] && store.isEmail(profile.emails[0])
    requires FindByEmail(store.users, Str(profile.emails[0])).None?
    modifies store
    ensures first.Ok? && first.value.isEmailVerified && first.value.role == DEFAULT_ROLE
    ensures first.value.password == Passport.GOOGLE_PASSWORD
    ensures second == first && !savedAgain
  {
    Passport.GoogleRowCreated(store.nextId, profile, profile.emails[0], store.isEmail);
    var saved, sent;
    first, saved, sent := Passport.GoogleVerify(store, profile, mail);
    assert FindByEmail(store.users, Str(profile.emails[0])) == Some(first.value.id);
    second, savedAgain, sent := Passport.GoogleVerify(store, profile, mail);
  }
}
