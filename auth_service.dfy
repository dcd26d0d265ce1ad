/** src/auth/auth.service.ts: looking users up for the guards, the Google
    find-or-create, and the two steps of a password reset. Tokens are
    opaque strings; the email a token names (what `parseJwt` reads out of
    it) is passed in, the clock is the `now` parameter, and the outcome of
    sending the recovery mail is the `mailSent` parameter. */
module AuthService {
  import opened Common
  import opened UserSchema
  import opened Store
  import Users = UsersService

  /** `validateUser(email)`: the stored user with that email. */
  function ValidateUser(users: seq<User>, email: string): (r: Result<User>)
    ensures r.Ok? <==> exists i :: 0 <= i < |users| && users[i].email == Lower(email)
    ensures r.Ok? ==> r.value in users && r.value.email == Lower(email)
    ensures r.Err? ==> r.failure == AppError(400, "There is  no user with such email")
  {
    match FindUserByEmail(users, email)
    case None => Err(AppError(400, "There is  no user with such email"))
    case Some(u) => Ok(u)
  }

  /** `validateUserForGoogle({ name, email, image })`: the stored user with
      that email, unchanged; when there is none, a new one created through
      `createUser` (with `friends: []`). */
  method ValidateUserForGoogle(db: Database, name: string, email: string, image: Option<string>, id: Id)
    returns (r: Result<User>)
    requires db.Valid()
    modifies db
    ensures db.Valid()
    ensures FindUserByEmail(old(db.users), email).Some? ==>
              r == Ok(FindUserByEmail(old(db.users), email).value) && db.users == old(db.users)
    ensures FindUserByEmail(old(db.users), email).None? ==>
              (r.Ok? <==> FindUserById(old(db.users), id).None?)
    ensures FindUserByEmail(old(db.users), email).None? && r.Ok? ==>
              r.value == NewUser(id, UserDraft(name, email, image, "", "")) && r.value.friends == [] &&
              db.users == old(db.users) + [r.value]
    ensures r.Err? ==> r.failure == DuplicateKey && db.users == old(db.users)
    ensures r.Ok? ==> r.value.email == Lower(email) && FindUserByEmail(db.users, email) == Some(r.value)
    ensures db.requests == old(db.requests) && db.chats == old(db.chats) && db.messages == old(db.messages)
  {
    var user := FindUserByEmail(db.users, email);
    if user.Some? {
      return Ok(user.value);
    }
    r := Users.CreateUser(db, name, email, image, id);
    if r.Ok? {
      FindUserByEmailAt(db.users, |db.users| - 1, email);
    }
  }

  /** `forgotPassword(email)`: rejects an unknown email without changing
      anything. Otherwise stamps the issued token and an expiry ten minutes
      after `now` on the user, exactly as `createPasswordResetToken` would,
      and clears both again when the recovery mail cannot be sent; it
      succeeds either way. */
  method ForgotPassword(db: Database, email: string, token: string, now: int, mailSent: bool)
    returns (r: Result<()>)
    requires db.Valid()
    modifies db
    ensures db.Valid()
    ensures r.Err? <==> FindUserByEmail(old(db.users), email).None?
    ensures r.Err? ==> r.failure == HttpError(400, "There is no user with this email!!") &&
                       db.users == old(db.users)
    ensures r.Ok? ==>
              var k := UserIndexByEmail(old(db.users), email).value;
              var u := old(db.users)[k];
              db.users == old(db.users)[k := if mailSent then CreatePasswordResetToken(u, token, now).0
                                             else u.(resetPasswordToken := None, resetPasswordExpires := None)]
    ensures r.Ok? ==> FindUserByEmail(db.users, email).Some?
    ensures r.Ok? && mailSent ==>
              var u := FindUserByEmail(db.users, email).value;
              u.resetPasswordToken == Some(token) && u.resetPasswordExpires == Some(now + 600000)
    ensures r.Ok? && !mailSent ==>
              var u := FindUserByEmail(db.users, email).value;
              u.resetPasswordToken.None? && u.resetPasswordExpires.None?
    ensures db.requests == old(db.requests) && db.chats == old(db.chats) && db.messages == old(db.messages)
  {
    var k := UserIndexByEmail(db.users, email);
    if k.None? {
      return Err(HttpError(400, "There is no user with this email!!"));
    }
    var user := db.users[k.value];
    user := user.(resetPasswordToken := Some(token));
    user := user.(resetPasswordExpires := Some(now + 10 * 60 * 1000));
    db.SaveUser(k.value, user);
    if !mailSent {
      user := user.(resetPasswordToken := None);
      user := user.(resetPasswordExpires := None);
      db.SaveUser(k.value, user);
    }
    FindUserByEmailAt(db.users, k.value, email);
    r := Ok(());
  }

  /** `resetPassword({ token, newPassword, confirmPassword })`, where
      `tokenEmail` is the email the token names (`None` when `parseJwt`
      throws on it). The supplied token is never compared with the stored
      one. The checks run in the order: a stored token at all, its expiry
      (an expiry equal to `now` still passes), the two passwords agreeing.
      On success both passwords are set and both reset fields cleared. */
  method ResetPassword(db: Database, tokenEmail: Option<string>, newPassword: string,
                       confirmPassword: string, now: int)
    returns (r: Result<()>)
    requires db.Valid()
    modifies db
    ensures db.Valid()
    ensures tokenEmail.None? ==> r == Err(RuntimeError(MalformedToken))
    ensures tokenEmail.Some? && FindUserByEmail(old(db.users), tokenEmail.value).None? ==>
              r == Err(RuntimeError(NullRead))
    ensures tokenEmail.Some? && FindUserByEmail(old(db.users), tokenEmail.value).Some? ==>
              var u := FindUserByEmail(old(db.users), tokenEmail.value).value;
              && (u.resetPasswordToken.None? || u.resetPasswordToken == Some("") ==>
                    r == Err(HttpError(400, "Token is invalid or has expired!")))
              && (u.resetPasswordToken.Some? && u.resetPasswordToken != Some("") &&
                  u.resetPasswordExpires.Some? && u.resetPasswordExpires.value < now ==>
                    r == Err(HttpError(400, "Token is invalid or has expired!")))
              && (r.Ok? <==> ResetAllowed(u, now) && newPassword == confirmPassword)
              && (ResetAllowed(u, now) && newPassword != confirmPassword ==>
                    r == Err(HttpError(403, "Passwords must be same!")))
    ensures r.Ok? ==>
              var k := UserIndexByEmail(old(db.users), tokenEmail.value).value;
              db.users == old(db.users)[k := old(db.users)[k].(password := newPassword,
                                                               confirmPassword := confirmPassword,
                                                               resetPasswordToken := None,
                                                               resetPasswordExpires := None)]
    ensures r.Ok? ==> FindUserByEmail(db.users, tokenEmail.value).Some? &&
                      !ResetAllowed(FindUserByEmail(db.users, tokenEmail.value).value, now)
    ensures r.Err? ==> db.users == old(db.users)
    ensures db.requests == old(db.requests) && db.chats == old(db.chats) && db.messages == old(db.messages)
  {
    if tokenEmail.None? {
      return Err(RuntimeError(MalformedToken));
    }
    var k := UserIndexByEmail(db.users, tokenEmail.value);
    if k.None? {
      return Err(RuntimeError(NullRead));
    }
    var user := db.users[k.value];
    if user.resetPasswordToken.None? || user.resetPasswordToken.value == "" {
      return Err(HttpError(400, "Token is invalid or has expired!"));
    }
    if user.resetPasswordExpires.Some? && user.resetPasswordExpires.value < now {
      return Err(HttpError(400, "Token is invalid or has expired!"));
    }
    if newPassword != confirmPassword {
      return Err(HttpError(403, "Passwords must be same!"));
    }
    user := user.(password := newPassword);
    user := user.(confirmPassword := confirmPassword);
    user := user.(resetPasswordToken := None);
    user := user.(resetPasswordExpires := None);
    db.SaveUser(k.value, user);
    FindUserByEmailAt(db.users, k.value, tokenEmail.value);
    r := Ok(());
  }

  /** What `parseJwt` throws on a token that is not a JWT. */
  const MalformedToken := "Unexpected token in JSON"

  /** The first two checks of `resetPassword` pass for `u` at time `now`: a
      non-empty stored token, and no expiry before `now` (an `undefined`
      expiry compares as not less than `now`). */
  predicate ResetAllowed(u: User, now: int)
  {
    u.resetPasswordToken.Some? && u.resetPasswordToken.value != "" &&
    !(u.resetPasswordExpires.Some? && u.resetPasswordExpires.value < now)
  }

  /** A reset stamp passes the checks for exactly ten minutes: from the
      stamping time up to and including its expiry, and no later. */
  lemma ResetWindow(u: User, token: string, stampedAt: int, now: int)
    requires token != ""
    ensures ResetAllowed(CreatePasswordResetToken(u, token, stampedAt).0, now) <==> now <= stampedAt + 600000
  {
  }
}
