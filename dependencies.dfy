/**
  The authentication dependencies of app/core/dependencies.py.  Decoding
  the token and looking the user up are calls into other code; they are
  parameters here.
 */
module Dependencies {

  import opened Wrappers
  import opened Http

  /** The stored user, as far as these checks look at it. */
  datatype User = User(username: string, isActive: bool)

  /** A decoded token's payload: the "sub" claim, if present. */
  datatype Payload = Payload(sub: Option<string>)

  /** HTTPException(401, "Could not validate credentials", WWW-Authenticate: Bearer). */
  const CredentialsError := HttpError(401, Message("Could not validate credentials"), [Header("WWW-Authenticate", "Bearer")])

  const InactiveError := HttpError(400, Message("Inactive user"), [])

  /** The user a token names: decodable, with a "sub" claim, naming a stored user. */
  predicate Authenticates(token: string, decode: string -> Option<Payload>, lookup: string -> Option<User>) {
    decode(token).Some? && decode(token).value.sub.Some? && lookup(decode(token).value.sub.value).Some?
  }

  /**
    get_current_user: a token that does not decode (a JWTError), a payload
    without "sub" and a name with no stored user all give the same 401;
    otherwise the stored user is returned as it is.
   */
  function GetCurrentUser(token: string, decode: string -> Option<Payload>, lookup: string -> Option<User>): (r: Outcome<User>)
    ensures r.Returned? <==> Authenticates(token, decode, lookup)
    ensures r.Returned? ==> r.value == lookup(decode(token).value.sub.value).value
    ensures r.Raised? ==> r.error == CredentialsError
  {
    match decode(token)
    case None => Raised(CredentialsError)
    case Some(payload) =>
      match payload.sub
      case None => Raised(CredentialsError)
      case Some(username) =>
        match lookup(username)
        case None => Raised(CredentialsError)
        case Some(user) => Returned(user)
  }

  /** get_current_active_user: an inactive user is 400 "Inactive user"; an active one is returned as it is. */
  function GetCurrentActiveUser(current: Outcome<User>): (r: Outcome<User>)
    ensures r.Returned? <==> current.Returned? && current.value.isActive
    ensures r.Returned? || current.Raised? ==> r == current
    ensures r.Raised? && current.Returned? ==> r.error == InactiveError
  {
    match current
    case Raised(e) => Raised(e)
    case Returned(user) => if !user.isActive then Raised(InactiveError) else Returned(user)
  }

  /**
    Both dependencies together let a request through exactly when the
    token names a stored, active user, and then hand on that user; an
    authentication failure is always the 401, never the 400.
   */
  lemma ActiveUserAdmitted(token: string, decode: string -> Option<Payload>, lookup: string -> Option<User>)
    ensures var r := GetCurrentActiveUser(GetCurrentUser(token, decode, lookup));
      && (r.Returned? <==> Authenticates(token, decode, lookup) && lookup(decode(token).value.sub.value).value.isActive)
      && (r.Returned? ==> r.value == lookup(decode(token).value.sub.value).value)
      && (!Authenticates(token, decode, lookup) ==> r == Raised(CredentialsError))
  {
  }
}
