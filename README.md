# Auth service credential and two-factor model

A Dafny model of the auth service's per-user credential state. The model covers:

- password registration and login (service and controller);
- email verification and resending the verification mail;
- two-factor authentication by emailed 6-digit code and by authenticator app (TOTP), each set up, confirmed, disabled and reported on its own;
- Google sign-in find-or-create;
- the three input validators;
- the `User` table schema.

Every handler loads one row, checks flags, fields and times, assigns fields and saves. The model follows that:

- The table is a class `UserModel.UserStore`. It holds `users: map<UserId, User>` and the next auto-increment key.
- Its invariant `Valid()` says:
  - each map key is its row's id;
  - emails are unique;
  - every stored row has an email the validator accepts;
  - an emailed code is only stored with its send time and is always six digits;
  - a verification token is always 64 hexadecimal digits.
- Each handler is a method that `modifies` the store. Its `ensures` gives the HTTP status and body, and the whole new map, for every branch of the handler, error branches included.
- Pure parts are functions with their properties proved as lemmas:
  - the validators;
  - code and token generation;
  - the login decision;
  - the controller guard.
- `Scenarios` composes the handlers into request sequences and proves what each sequence leads to: replay refusal, expiry, setup then confirm, independent disabling, single-use verification tokens, register then login, and a repeated Google sign-in.

Modules follow the source files:

- `Js`: JSON values, truthiness, `===` against a nullable column, `||` on strings, the `\s`/`trim` whitespace set, `.length` in UTF-16 code units.
- `Validators`: `utils/validators.js`.
- `OneTimeCodes`: the 6-digit code drawn from `Math.random()`, and the hex token from `crypto.randomBytes(32)`.
- `UserModel`: `models/User.js` plus the `findOne`/`findByPk`/`create`/`save` operations the handlers use.
- `AuthService`, `AuthController`, `AuthRoutes` and `Passport`: the corresponding files.
- `Scenarios`: multi-request properties.

External behaviour enters as parameters:

- the clock: `now`, in milliseconds;
- `Math.random()`: a real in [0, 1);
- `crypto.randomBytes`: a sequence of 32 bytes;
- mail delivery: a `MailOutcome`;
- bcrypt: `hash` and `compare`, with `compare(p, hash(p, …))` assumed by the lemmas that need it;
- `jwt.sign`: a `Signer` over the payload;
- speakeasy's secret generation and TOTP check;
- `QRCode.toDataURL`;
- validator.js `isEmail`, which the store holds as a constant;
- the token issuer used by `/2fa/email/login`: `Some(token)`, or `None` for a throw.

Behaviour the model keeps exactly as written:

- A failed `/2fa/email/verify` echoes the stored code, the send time and the time difference in its `debug` field.
- Every handler saves before it mails. A failed delivery therefore answers 500 while the new code or token is already stored.
- An authenticated handler whose row is gone reads a property of `null`. Its `catch` answers 500: with the handler's fixed message, or, in `/2fa/setup` and `/2fa/disable`, with the `TypeError`'s own message. Those two handlers test `method` before they touch the row, so an unknown method on a missing row still answers 400.
- Disabling email 2FA clears the code but keeps `twoFAEmailCodeSentAt`. A column reading `null` is strictly equal to a JSON `null`. So within a minute of the last send, `/2fa/email/verify` with `{"code": null}` turns email 2FA back on without any code (`Scenarios.NullCodeAfterDisable`).
- `/2fa/email/login` does not check `isEmailVerified`; `/2fa/email/send` does.
- `/login` checks neither a verified email nor 2FA. It tells an unknown email apart from a wrong password (`AuthService.LoginRevealsUnknownEmail`).
- `/2fa/email/login` takes `generateToken` from the controller module, which exports only `register` and `login`, so it is `undefined` and calling it throws. With every handler treated as mounted (see "Left out"), an accepted code is cleared and saved first, and the answer is then always 500 "2FA email login failed" (`Scenarios.SendThenLoginAsWritten`).
- The `name`, `email` and `password` columns are Sequelize `STRING`s. Only `null` and a missing value are refused. A number or a boolean is accepted and stored as its JavaScript `String()` text (`UserModel.StringForm`), and the validator of `email` sees that text. `/register` answers with name and email as the request gave them (see "Left out" for databases that return the stored row).
- `/2fa/setup` saves the new authenticator secret before it renders the QR code. A rendering failure therefore answers 500 while the new secret is already stored.

The client expects more of the server than the server's code does; the model follows the server's code:

- After a successful registration the client tells the user to follow a mailed verification link (`client/src/pages/Register.jsx:51`, `:79-86`). `register` (`AuthService.js:5-12`) creates no verification token and sends no mail.
- The login page handles a `twoFARequired` answer and the error "Please verify your email before logging in." (`client/src/pages/Login.jsx:81-83`, `:223`). `login` (`AuthService.js:14-28`) checks neither 2FA nor a verified email.
- A Google sign-in (`config/passport.js:46-58`) marks an existing row verified but leaves a pending `emailVerificationToken` in place, so the old link still verifies it.

## Model

| member | source | states |
|---|---|---|
| Js.OrElse | auth-service/routes/authRoutes.js:21 | JavaScript's logical or on two strings gives the first unless it is empty, and is empty only when both are |
| Js.Truthy | auth-service/controllers/AuthController.js:8 | `!x` is true exactly for `undefined`, `null`, `false`, `0` and the empty string |
| Js.StrictEqualsColumn | auth-service/routes/authRoutes.js:107 | a nullable string column is strictly equal to a request value exactly when both are `null` or both are the same string |
| Js.IsWhitespace | auth-service/utils/validators.js:1-13 | the characters `\s` and `trim()` treat as white space: ECMAScript's WhiteSpace and LineTerminator sets |
| Js.Utf16LengthAppend | auth-service/utils/validators.js:4-13 | `.length` of a concatenation is the sum of the lengths |
| Js.Utf16LengthBounds | auth-service/utils/validators.js:4-13 | `.length` counts each character once, or twice outside the Basic Multilingual Plane, so it lies between the number of characters and twice that |
| Validators.ValidateEmail | auth-service/utils/validators.js:1-2 | true exactly for a string of the form local `@` domain `.` tld with three non-empty runs free of whitespace; false for every non-string |
| Validators.EmailShapeMatchesPattern | auth-service/utils/validators.js:1-2 | that pattern is equivalent to: no whitespace, an `@` at some i >= 1 and a `.` at some j with i + 2 <= j <= length - 2 |
| Validators.EmailExamples | auth-service/utils/validators.js:1-2 | `a@b.c` is accepted; an empty local part, an empty domain, an empty tld, an inner space, `null` and a number are refused |
| Validators.ValidatePassword | auth-service/utils/validators.js:4-10 | a password passes only as a string of at least eight UTF-16 code units, hence at least four characters, that is not blank; which strings pass is pinned by `PasswordExamples` and `PasswordExtension` |
| Validators.PasswordExtension | auth-service/utils/validators.js:4-10 | appending any characters to a valid password keeps it valid |
| Validators.PasswordExamples | auth-service/utils/validators.js:4-10 | 8 characters with all four classes pass; 7 characters, a missing upper-case letter, a missing symbol, or a number fail |
| Validators.TrimStart | auth-service/utils/validators.js:13 | the result is a suffix of the input, what was removed is all whitespace, and the result does not start with whitespace |
| Validators.TrimEnd | auth-service/utils/validators.js:13 | the result is a prefix of the input, what was removed is all whitespace, and the result does not end with whitespace |
| Validators.Trim | auth-service/utils/validators.js:13 | `trim()` is empty exactly when the input is all whitespace |
| Validators.ValidateString | auth-service/utils/validators.js:12-13 | true exactly for a string that is not all whitespace and whose UTF-16 length is at most `max` (100 by default); false for non-strings; an accepted string has between 1 and `max` characters |
| Validators.StringExamples | auth-service/utils/validators.js:12-13 | a padded name passes; blank, empty, over-long and missing values fail |
| OneTimeCodes.Decimal | auth-service/routes/authRoutes.js:56 | `toString()` of a number yields digits only, without a leading zero |
| OneTimeCodes.DecimalRoundTrip | auth-service/routes/authRoutes.js:56 | reading the rendered digits back gives the number |
| OneTimeCodes.DecimalLength | auth-service/routes/authRoutes.js:56 | a number in [10^k, 10^(k+1)) renders as k + 1 digits |
| OneTimeCodes.CodeNumber | auth-service/routes/authRoutes.js:56 | `Math.floor(100000 + r * 900000)` for r in [0, 1) lies in 100000..999999 |
| OneTimeCodes.EmailCode | auth-service/routes/authRoutes.js:56 | the code is six decimal digits, the first not `0`; its value is in 100000..999999 and it is that value's rendering |
| OneTimeCodes.Hex | auth-service/routes/authRoutes.js:15 | hex encoding yields two lower-case hexadecimal digits per byte |
| OneTimeCodes.HexRoundTrip | auth-service/routes/authRoutes.js:15 | decoding the hex string gives back the bytes |
| OneTimeCodes.VerificationToken | auth-service/routes/authRoutes.js:15 | the token is 64 hexadecimal digits and encodes exactly the 32 random bytes |
| UserModel.ColumnViolations | auth-service/models/User.js:11-18 | a required STRING column refuses exactly a null or missing value; a number, boolean or string passes |
| UserModel.Violations | auth-service/models/User.js:5-18 | a new row is accepted exactly when email, name and password are all present and non-null and the validator accepts the email's string form |
| UserModel.Build | auth-service/models/User.js:4-56 | the row built from accepted attributes holds the string forms of email, name and password; role defaults to "user"; both 2FA flags and `isEmailVerified` default to false; every nullable column starts null |
| UserModel.StringForm | auth-service/models/User.js:5-18 | a STRING column stores a string as given, a boolean as `true`/`false`, and an integer as its decimal digits, with a `-` and no leading zero for a negative one |
| UserModel.StringFormExamples | auth-service/models/User.js:11-14 | 42, -7, 0, `true` and `"Bob"` are stored as `42`, `-7`, `0`, `true` and `Bob` |
| UserModel.ScalarNameStored | auth-service/models/User.js:11-14 | a number or boolean name with a valid email is accepted, and the row holds its text |
| UserModel.FindByEmail | auth-service/models/User.js:5-10 | the lookup by email finds the one row holding that email, and finds nothing exactly when no row holds it |
| UserModel.FindByOwnEmail | auth-service/models/User.js:8 | with unique emails, every row is found by its own email |
| UserModel.UserStore.Valid | auth-service/models/User.js:5-10 | the table's invariant: each row stored under its own id below the next key, emails unique and accepted by the validator, an emailed code only with its send time and always six digits, a verification token always 64 hexadecimal digits |
| UserModel.UserStore.Create | auth-service/models/User.js:4-56 | `create` inserts the built row under the next key exactly when the schema accepts it and no row holds the email's string form; otherwise it reports why and changes nothing |
| UserModel.UserStore.Save | auth-service/routes/authRoutes.js:17 | `save()` replaces exactly the saved row and keeps the store invariant |
| AuthService.ErrorMessage | auth-service/services/AuthService.js:5-19 | exactly the three errors the service throws itself carry its own message; errors raised by bcrypt or the schema carry none (the texts are stated in `Register` and `Login`) |
| AuthService.RegisterAttrs | auth-service/services/AuthService.js:9-10 | `create` is asked for the request's name and email and the bcrypt hash with 10 rounds; role and verification are left to the schema's defaults |
| AuthService.TokenPayload | auth-service/services/AuthService.js:21-25 | the signed claims are exactly the row's id, name, email and role; the issue time is the current second, and the expiry is one hour later |
| AuthService.Register | auth-service/services/AuthService.js:5-12 | a taken email gives "User already exists" with no change. Otherwise the row is added exactly when the password is a string and the schema and the unique constraint accept it; it holds the string forms and the hashed password, and the result is the new id with name and email as given. Every failure leaves the store unchanged |
| AuthService.Login | auth-service/services/AuthService.js:14-28 | "User not found" exactly when no row has the email, "Invalid password" when `compare` refuses. Success exactly when a row has it and `compare` accepts the password, and then the token is the signature over that row's payload. Being a function of the store, it cannot change it |
| AuthService.LoginAfterRegister | auth-service/services/AuthService.js:14-28 | a row holding `hash(p)` logs in with `p` and receives the token for its own claims |
| AuthService.LoginRevealsUnknownEmail | auth-service/services/AuthService.js:15-19 | a wrong password on a known email and any password on an unknown email give different errors |
| AuthController.Guard | auth-service/controllers/AuthController.js:8-10 | a falsy email or password, and only that, produces 400 "Email and password are required" |
| AuthController.Register | auth-service/controllers/AuthController.js:3-17 | a guarded request gets a 400 and the store, next key included, is unchanged. Otherwise 201 with the new row's id and the request's name and email, exactly when the service succeeds; or the service's error (duplicate, bcrypt argument or schema refusal) goes to `next`, with unchanged store and key, and no response |
| AuthController.Login | auth-service/controllers/AuthController.js:19-33 | a guarded request gets a 400. Otherwise 200 with the service's token, or the service's error goes to `next`; a 200 carries the token of a row with the request's email |
| AuthRoutes.CodeAccepted | auth-service/routes/authRoutes.js:107-108 | a value is accepted only with a stored send time at most 60 000 ms before now, and only as the stored code's string, or as `null` when no code is stored; a number, boolean or missing field is never accepted |
| AuthRoutes.IssuedCodeAcceptance | auth-service/routes/authRoutes.js:107-108 | an issued code is accepted exactly when submitted as that string at most 60 000 ms after it was sent |
| AuthRoutes.ConsumedCodeRejected | auth-service/routes/authRoutes.js:111-112 | once code and send time are cleared, no value is accepted at any time |
| AuthRoutes.AcceptedValues | auth-service/routes/authRoutes.js:146-147 | on a stored row, an accepted value is the stored 6-digit code, or JSON `null` on a row with a send time but no code |
| AuthRoutes.ResendVerification | auth-service/routes/authRoutes.js:5-33 | a falsy email, unknown user or verified user gives 400 with no change. Otherwise the token is replaced by the fresh hex token, and the mail links to `FRONTEND_URL` (or the localhost default) with it. Delivery decides 200 or 500 |
| AuthRoutes.SendEmailCode | auth-service/routes/authRoutes.js:42-71 | 400 exactly for a falsy email, an unknown email, email 2FA off or an unverified email, each with its message and no change. Otherwise a fresh 6-digit code and the send time are stored and mailed. Delivery decides 200 or 500 |
| AuthRoutes.EmailAvailable | auth-service/routes/authRoutes.js:74-87 | reports the row's email and verification flag, and `canUseEmail2FA` equal to that flag; 500 for a missing row |
| AuthRoutes.VerifyEmailCode | auth-service/routes/authRoutes.js:90-131 | 200 exactly when the code is accepted. Then email 2FA is on and code and send time are cleared, so no value is accepted afterwards. Otherwise 400 with the debug echo and no change; 500 for a missing row |
| AuthRoutes.EmailLogin | auth-service/routes/authRoutes.js:135-164 | an unknown email or email 2FA off gives 400 "not available"; a refused code gives 400 "Invalid or expired 2FA code"; neither changes anything. An accepted code is cleared with its send time, and the issuer's token or a 500 follows; a 200 needs an accepted code and leaves none |
| AuthRoutes.VerifyEmailAddress | auth-service/routes/authRoutes.js:166-176 | a missing token or one no row holds gives 400 with no change. Otherwise one holder of the token becomes verified and its token is cleared, and no other row changes; tokens are not unique, so the token is gone afterwards exactly when that row was its only holder |
| AuthRoutes.Setup2FA | auth-service/routes/authRoutes.js:189-235 | email: already enabled or unverified gives 400; otherwise a fresh code and send time are stored with the flag still off, mailed, and delivery decides 200 or 500 with the error's message. Authenticator: already enabled gives 400; otherwise the new secret overwrites the old with the flag still off, and then the QR and secret are returned, or a rendering failure gives 500 with its message or "2FA setup failed". Any other method gives 400 with no change |
| AuthRoutes.Disable2FA | auth-service/routes/authRoutes.js:237-268 | a method that is not enabled gives 400 with no change. Otherwise that method's flag is cleared with its code or secret, and the other method's flag never changes. An unknown method gives 400 with no change |
| AuthRoutes.VerifyAuthenticator | auth-service/routes/authRoutes.js:271-295 | 200, with the authenticator flag set, exactly when a non-empty secret is stored and the TOTP check accepts the token for it. A missing secret or a refused token gives 400 with no change |
| AuthRoutes.Status | auth-service/routes/authRoutes.js:297-309 | reports the row's two 2FA flags, verification flag and email; 500 for a missing row |
| Passport.GoogleAttrs | auth-service/config/passport.js:19-25 | the row asked for has the profile's email, the placeholder password, role "user" and verified true, and a non-empty name: the display name when there is one |
| Passport.WelcomeMail | auth-service/config/passport.js:30-35 | the welcome mail goes to the new user's email under the subject "Welcome to Finmark!" and opens with "Hi" and the display name, or "Hi there" without one |
| Passport.GoogleUpdated | auth-service/config/passport.js:46-55 | an existing row becomes verified, takes the display name only when that is non-empty, and keeps every other field |
| Passport.GoogleRowCreated | auth-service/config/passport.js:19-25 | the created row has the display name or "user", role "user", the placeholder password, verified true and every 2FA field at its default; only an email the validator refuses stops it |
| Passport.GoogleUpdatedIdempotent | auth-service/config/passport.js:46-58 | applying the update twice equals applying it once |
| Passport.GoogleVerify | auth-service/config/passport.js:13-63 | no email gives `done(err)` with no change. An unknown email creates one verified row and asks for the welcome mail, whose outcome changes nothing. A known email gets the update, saved exactly when it changes the row. Every user handed to `done` is verified, holds the profile's email and is what the store holds |
| Scenarios.SendThenLoginTwice | auth-service/routes/authRoutes.js:42-164 | for any token issuer, a code sent and used within the minute is consumed by the first login, which answers 200 with a token or 500; the same code is then refused |
| Scenarios.SendThenLoginAsWritten | auth-service/routes/authRoutes.js:148-162 | with the undefined `generateToken`, an accepted code answers 500 "2FA email login failed" and is already cleared, so the replay gets 400 |
| Scenarios.SendThenLoginLate | auth-service/routes/authRoutes.js:135-164 | a code used more than 60 000 ms after sending is refused and stays stored |
| Scenarios.SetupThenVerifyEmail | auth-service/routes/authRoutes.js:90-235 | email setup followed by verify with the mailed code within the minute turns email 2FA on, as status then reports, without touching the authenticator flag |
| Scenarios.SetupThenVerifyAuthenticator | auth-service/routes/authRoutes.js:218-290 | authenticator setup answers with the QR or a 500, and in both cases a TOTP-accepted token then turns the authenticator on with the new secret, without touching email 2FA |
| Scenarios.DisableOneOfTwo | auth-service/routes/authRoutes.js:241-248 | with both methods on, disabling email leaves the authenticator on, as status reports |
| Scenarios.NullCodeAfterDisable | auth-service/routes/authRoutes.js:245-246 | send, then disable email 2FA, then verify with `null` within the minute: email 2FA is on again |
| Scenarios.ResendThenVerify | auth-service/routes/authRoutes.js:5-176 | a resent token verifies the address once and is refused afterwards |
| Scenarios.SharedTokenVerifiesTwice | auth-service/routes/authRoutes.js:166-176 | two rows holding the same token: `/verify-email` with it answers 200 twice in a row |
| Scenarios.RegisterThenLogin | auth-service/controllers/AuthController.js:3-33 | registering then logging in with the same credentials answers 201 then 200 with the token for the new row, whose role is "user" |
| Scenarios.RegisterNumericName | auth-service/services/AuthService.js:5-12 | `/register` with the number 42 as name answers 201 echoing 42, and the new row's name is `42` |
| Scenarios.GoogleSignInTwice | auth-service/config/passport.js:13-63 | a first Google sign-in creates a verified row; a second one returns the same user and saves nothing |

## Left out

- HTTP wiring, the `validateToken` middleware and `/me` are not modelled. The authenticated handlers take the id the middleware would have put in `req.user.id`.
- `/2fa/login`, `login2FA` and `generateToken` are not modelled: the controller file does not export them. `/2fa/email/login` takes token issuance as a parameter, where `None` stands for a throw.
- Every handler is treated as mounted. As written, `router.post("/2fa/login", login2FA)` (`routes/authRoutes.js:181`) is handed `undefined`, and Express refuses a non-function handler while the routes module loads, so `index.js:6` would throw before the server listens. The model describes each handler as if loading had succeeded.
- The forgot-password, reset-password and admin routes are not part of this model.
- The HTML mail bodies and `console.log` output are not modelled. Neither affects a response or the store.
- The mail transport, bcrypt, jsonwebtoken, speakeasy, QR generation, `crypto.randomBytes`, `Math.random` and the clock are parameters, not implementations.
- Database failures other than the schema's refusals are not modelled: connection errors, or a `save` that is rejected. In the model `save` always succeeds.
- Concurrent requests for the same user are not modelled. Each handler runs to completion before the next starts.
- JSON numbers are integers in the model. Fractions and `NaN` cannot occur in a request field, and `JSON.parse` rounding integers beyond 2^53 is not modelled.
- Request fields that are arrays or objects are not modelled: `JsValue` has no such case. Sequelize turns an array `where` value into `IN (...)`, which could select one of several rows, and refuses an array or an object in a `STRING` column. Neither behaviour is captured.
- UserModel.StringForm: a boolean is stored as JavaScript's `String()` text. A database driver may store it in another form, such as `1` on MySQL. Every integer is written out in full, while `String()` switches to exponent form from 10^21 (`1e+21`), and a request integer beyond 2^53 has already been rounded by `JSON.parse`.
- AuthService.Register: the result carries name and email as the request gave them, because the instance keeps the values it was created with. Sequelize asks PostgreSQL to return the inserted row and copies it into the instance, so there a number or boolean would come back as its stored text. The database configuration is not part of this model.
- Email comparisons are exact. A case-insensitive database collation, under which `A@b.co` and `a@b.co` would collide, is not modelled.
- Dates are milliseconds since the epoch. A clock that goes backwards is allowed by the model, as by the code, since `now - sentAt` may be negative.
- `twoFAMethod` is a column that no handler writes. It stays at its default.
- UserModel.FindByEmail: a `where` value of `undefined`, a number or a boolean matches no row in the model. For `undefined`, recent Sequelize versions refuse the query with an error instead; a number or boolean is compared after the database's own coercion or refused, depending on the database. Where such a value reaches a lookup, an error would give a 500 rather than the modelled 400, and a coercion could find the row holding the value's text.
- UserModel.UserStore.Save: the stored email never changes, so the model does not re-check the unique constraint on save.
- Passport.GoogleVerify: the display name of a profile without one is the empty string; `undefined` and `""` are equally falsy.
