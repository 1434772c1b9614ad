/** The Google OAuth strategy's verify callback: find the row for the
    profile's first email, create a verified row when there is none, and
    otherwise mark the row verified and take over the Google display name. */
module Passport {
  import opened Js
  import opened UserModel
  import opened AuthRoutes

  /** The part of the Google profile the callback reads. A missing
      `displayName` is the empty string, which is just as falsy. */
  datatype Profile = Profile(displayName: string, emails: seq<string>)

  /** The placeholder password of rows created from a Google sign-in. */
  const GOOGLE_PASSWORD := "GOOGLE_OAUTH"

  /** Why the callback calls `done(err, null)`. */
  datatype GoogleError =
    | NoEmail                           // `profile.emails[0]` is undefined
    | CreateRefused(violations: seq<Violation>)

  /** The welcome mail sent to a newly created Google user. */
  function WelcomeMail(email: string, displayName: string): (m: Mail)
    ensures m.to == email && m.subject == "Welcome to Finmark!"
    ensures displayName != "" ==> "Hi " + displayName + "," <= m.text
    ensures displayName == "" ==> "Hi there," <= m.text
  {
    var greeting := "Hi " + OrElse(displayName, "there") + ",";
    var rest := "\n\nWelcome to Finmark! You have successfully signed up using your Google account.";
    assert (greeting + rest)[..|greeting|] == greeting;
    Mail(email, "Welcome to Finmark!", greeting + rest)
  }

  /** The attributes the callback hands to `User.create`. */
  function GoogleAttrs(profile: Profile, email: string): (a: CreateAttrs)
    ensures a.email == Str(email) && a.password == Str(GOOGLE_PASSWORD)
    ensures a.role == Some(DEFAULT_ROLE) && a.isEmailVerified == Some(true)
    // The name is never empty: the display name when there is one, otherwise "user".
    ensures a.name.Str? && a.name.s != ""
    ensures profile.displayName != "" ==> a.name == Str(profile.displayName)
  {
    CreateAttrs(Str(OrElse(profile.displayName, "user")), Str(email), Str(GOOGLE_PASSWORD),
                Some(DEFAULT_ROLE), Some(true))
  }

  /** The row an existing user becomes: verified, and renamed when Google
      supplies a non-empty display name. */
  function GoogleUpdated(u: User, displayName: string): (v: User)
    ensures v.isEmailVerified
    ensures v.name == (if displayName != "" then displayName else u.name)
    ensures v == u.(isEmailVerified := true, name := v.name)
  {
    var v := if !u.isEmailVerified then u.(isEmailVerified := true) else u;
    if displayName != "" && v.name != displayName then v.(name := displayName) else v
  }

  /** A row created from a Google sign-in: named after the profile (or
      "user"), role "user", verified, the placeholder password, and every
      two-factor field at its default. Only an email the validator refuses
      stops it. */
  lemma GoogleRowCreated(id: UserId, profile: Profile, email: string, isEmail: string -> bool)
    ensures Build(id, GoogleAttrs(profile, email), isEmail).Ok? <==> isEmail(email)
    ensures isEmail(email) ==>
      Build(id, GoogleAttrs(profile, email), isEmail).value
      == User(id := id, email := email, name := OrElse(profile.displayName, "user"),
              password := GOOGLE_PASSWORD, isEmailVerified := true)
  {
  }

  /** Signing in again with the same profile changes nothing. */
  lemma GoogleUpdatedIdempotent(u: User, displayName: string)
    ensures GoogleUpdated(GoogleUpdated(u, displayName), displayName) == GoogleUpdated(u, displayName)
  {
  }

  /** The verify callback. `done` is what is passed to `done(err, user)`,
      `saved` whether `user.save()` ran and `sent` the welcome mail asked for.
      `mail` is how that delivery ended; the callback catches and logs a
      failure, so nothing below depends on it. */
  method GoogleVerify(store: UserStore, profile: Profile, mail: MailOutcome)
    returns (done: Result<User, GoogleError>, saved: bool, sent: Option<Mail>)
    requires store.Valid()
    modifies store
    ensures store.Valid()
    ensures profile.emails == [] ==>
      done == Err(NoEmail) && !saved && sent.None?
      && store.users == old(store.users) && store.nextId == old(store.nextId)
    ensures profile.emails != [] ==>
      var email := profile.emails[0];
      match FindByEmail(old(store.users), Str(email))
      case None =>
        && !saved
        && var built := Build(old(store.nextId), GoogleAttrs(profile, email), store.isEmail);
           if built.Ok? then
             && done == Ok(built.value)
             && store.users == old(store.users)[old(store.nextId) := built.value]
             && store.nextId == old(store.nextId) + 1
             && sent == Some(WelcomeMail(email, profile.displayName))
           else
             && done == Err(CreateRefused(built.error)) && sent.None?
             && store.users == old(store.users) && store.nextId == old(store.nextId)
      case Some(id) =>
        var u := old(store.users)[id];
        && done == Ok(GoogleUpdated(u, profile.displayName))
        && saved == (GoogleUpdated(u, profile.displayName) != u)
        && store.users == old(store.users)[id := GoogleUpdated(u, profile.displayName)]
        && store.nextId == old(store.nextId)
        && sent.None?
    // Whoever signs in with Google ends up with a verified row holding that email.
    ensures done.Ok? ==>
      && profile.emails != []
      && done.value.email == profile.emails[0]
      && done.value.isEmailVerified
      && done.value.id in store.users && store.users[done.value.id] == done.value
  {
    saved, sent := false, None;
    if profile.emails == [] {
      return Err(NoEmail), saved, sent;
    }
    var email := profile.emails[0];
    var found := FindByEmail(store.users, Str(email));
    if found.None? {
      var created := store.Create(GoogleAttrs(profile, email));
      if created.Err? {
        return Err(CreateRefused(created.error)), saved, sent;
      }
      sent := Some(WelcomeMail(email, profile.displayName));
      done := Ok(created.value);
    } else {
      var user := store.users[found.value];
      var updated := false;
      if !user.isEmailVerified {
        user := user.(isEmailVerified := true);
        updated := true;
      }
      if profile.displayName != "" && user.name != profile.displayName {
        user := user.(name := profile.displayName);
        updated := true;
      }
      if updated {
        store.Save(user);
        saved := true;
      }
      done := Ok(user);
    }
  }
}
