/** src/auth/guards/registration.guard.ts: the guard in front of the
    registration route. */
module RegistrationGuard {
  import opened Common
  import opened UserSchema
  import opened Store
  import Auth = AuthService

  /** `canActivate(context)` for a request body carrying `email`: an unknown
      email makes `validateUser` throw, and a known one makes the guard
      throw, so the guard never lets a request through. It only reads the
      store. */
  function CanActivate(users: seq<User>, email: string): (r: Result<bool>)
    ensures r.Err?
    ensures FindUserByEmail(users, email).None? ==> r == Err(AppError(400, "There is  no user with such email"))
    ensures FindUserByEmail(users, email).Some? ==>
              r == Err(HttpError(401, "User with this email:" + email + " exists"))
  {
    match Auth.ValidateUser(users, email)
    case Err(e) => Err(e)
    case Ok(_) => Err(HttpError(401, "User with this email:" + email + " exists"))
  }
}
