/**
  The external JWT library (dk.bugelhartmann.TokenSecurity) as seen by the
  controllers.  Its internals are not part of this model: each operation is a
  function value supplied by the caller, and every property below holds for
  every choice of them.
 */
module TokenSecurity {
  import opened Exceptions

  /** The authenticated-user record carried by a token: a name and role names. */
  datatype UserDTO = UserDTO(username: string, roles: set<string>)

  /** A library call returns a value or throws one of its two checked exceptions. */
  datatype LibResult<+T> = Returned(value: T) | ParseFailure | VerificationFailure

  datatype TokenLibrary = TokenLibrary(
    /** tokenIsValid(token, secret): signature check */
    tokenIsValid: (string, string) -> LibResult<bool>,
    /** tokenNotExpired(token): expiry check */
    tokenNotExpired: string -> LibResult<bool>,
    /** getUserWithRolesFromToken(token): the user in the claims, possibly null */
    getUserWithRolesFromToken: string -> LibResult<Option<UserDTO>>,
    /** createToken(user, issuer, lifetime, secret) with the configuration fixed;
        None when the library fails */
    createToken: UserDTO -> Option<string>
  )

  /** A library result as the Java caller sees it: a value or a thrown exception. */
  function Raise<T>(r: LibResult<T>): (res: Result<T>)
    ensures res.Ok? <==> r.Returned?
    ensures res.Ok? ==> res.value == r.value
    ensures res.Throw? ==> res.error == ParseException || res.error == TokenVerificationException
  {
    match r
    case Returned(v) => Ok(v)
    case ParseFailure => Throw(ParseException)
    case VerificationFailure => Throw(TokenVerificationException)
  }
}
