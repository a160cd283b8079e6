/**
  dk.security.rest.SecurityController: the same gate built as handler
  factories.  `login` answers a token for verified credentials and
  `authenticate` attaches the user from a bearer token; `register` and
  `authorize` give no handler at all, so this variant never checks roles.

  Unlike the other variant, a token that fails the validity or expiry check
  raises UnauthorizedResponse("Token not valid"), which its catch clause does
  not catch; only the library's ParseException and
  TokenVerificationException become ApiException(401).
 */
module RestSecurityController {
  import opened Exceptions
  import opened TokenSecurity
  import opened Http
  import opened RouteAccess
  import opened SecurityEntities

  const TokenNotValid := "Token not valid"
  const CouldNotCreateToken := "Could not create token"
  const LoginFailed := "login failed. Wrong username or password"

  /** The four handler factories of the controller. */
  datatype Factory = LoginFactory | RegisterFactory | AuthenticateFactory | AuthorizeFactory

  /** The handlers this controller hands out: the bodies of Login and Authenticate below. */
  datatype Handler = LoginHandler | AuthenticateHandler

  /**
    What each factory returns: login() and authenticate() a handler,
    register() and authorize() null, so this variant never checks roles.
   */
  function HandlerOf(factory: Factory): (h: Option<Handler>)
    ensures h.None? <==> factory == RegisterFactory || factory == AuthorizeFactory
    ensures h == Some(LoginHandler) <==> factory == LoginFactory
    ensures h == Some(AuthenticateHandler) <==> factory == AuthenticateFactory
  {
    match factory
    case LoginFactory => Some(LoginHandler)
    case RegisterFactory => None
    case AuthenticateFactory => Some(AuthenticateHandler)
    case AuthorizeFactory => None
  }

  /** createToken: the library's token, or ApiException(500) when the library fails. */
  function CreateToken(lib: TokenLibrary, user: UserDTO): (r: Result<string>)
    ensures r.Ok? <==> lib.createToken(user).Some?
    ensures r.Ok? ==> r.value == lib.createToken(user).value
    ensures r.Throw? ==> r.error == ApiException(500, CouldNotCreateToken)
  {
    match lib.createToken(user)
    case Some(token) => Ok(token)
    case None => Throw(ApiException(500, CouldNotCreateToken))
  }

  /**
    verifyToken: the user from the token when it is valid and not expired;
    a rejected token raises UnauthorizedResponse, a library exception
    becomes ApiException(401).
   */
  function VerifyToken(lib: TokenLibrary, secret: string, token: string): (r: Result<Option<UserDTO>>)
    ensures r.Ok? <==> TokenAccepted(lib, secret, token) && lib.getUserWithRolesFromToken(token).Returned?
    ensures r.Ok? ==> Returned(r.value) == lib.getUserWithRolesFromToken(token)
    ensures r == Throw(UnauthorizedResponse(TokenNotValid)) <==> TokenRejected(lib, secret, token)
    ensures r.Throw? && !TokenRejected(lib, secret, token) ==> r.error == ApiException(401, CouldNotVerify)
  {
    var attempt := TokenCheck(lib, secret, token, UnauthorizedResponse(TokenNotValid));
    if attempt.Throw? && (attempt.error.ParseException? || attempt.error.TokenVerificationException?)
    then Throw(ApiException(401, CouldNotVerify))
    else attempt
  }

  /** validateAndGetUserFromToken: the token from the header, verified; no user, no entry. */
  function ValidateAndGetUserFromToken(lib: TokenLibrary, secret: string, header: Option<string>)
    : (r: Result<UserDTO>)
    ensures header.None? ==> r == Throw(UnauthorizedResponse(HeaderMissing))
    ensures r.Ok? ==> GetToken(header).Ok? && TokenAccepted(lib, secret, GetToken(header).value)
                      && lib.getUserWithRolesFromToken(GetToken(header).value) == Returned(Some(r.value))
    ensures GetToken(header).Ok? && TokenAccepted(lib, secret, GetToken(header).value)
            && lib.getUserWithRolesFromToken(GetToken(header).value).Returned?
            && lib.getUserWithRolesFromToken(GetToken(header).value).value.Some?
            ==> r == Ok(lib.getUserWithRolesFromToken(GetToken(header).value).value.value)
    ensures GetToken(header).Ok? && TokenAccepted(lib, secret, GetToken(header).value)
            && lib.getUserWithRolesFromToken(GetToken(header).value) == Returned(None)
            ==> r == Throw(UnauthorizedResponse(InvalidUserOrToken))
    ensures GetToken(header).Ok? && TokenRejected(lib, secret, GetToken(header).value) ==>
              r == Throw(UnauthorizedResponse(TokenNotValid))
    ensures GetToken(header).Throw? ==> r == Throw(GetToken(header).error)
    ensures GetToken(header).Ok?
            && !(TokenAccepted(lib, secret, GetToken(header).value)
                 && lib.getUserWithRolesFromToken(GetToken(header).value).Returned?)
            && !TokenRejected(lib, secret, GetToken(header).value)
            ==> r == Throw(ApiException(401, CouldNotVerify))
    ensures r.Throw? ==> r.error in {UnauthorizedResponse(HeaderMissing), ArrayIndexOutOfBoundsException,
                                     UnauthorizedResponse(TokenNotValid), ApiException(401, CouldNotVerify),
                                     UnauthorizedResponse(InvalidUserOrToken)}
  {
    var token :- GetToken(header);
    var verified :- VerifyToken(lib, secret, token);
    if verified.None? then Throw(UnauthorizedResponse(InvalidUserOrToken))
    else Ok(verified.value)
  }

  /**
    The authenticate handler: a preflight request gets status 200; an open
    route passes untouched; on any other route the verified user is stored
    under "user" whatever its roles, and a request that cannot be verified
    is rejected with the context left as it was.  It never answers 403.
   */
  method Authenticate(lib: TokenLibrary, secret: string, ctx: Context) returns (r: Outcome)
    modifies ctx
    ensures ctx.httpMethod == Preflight ==>
      r == Done && ctx.status == 200 && ctx.attributes == old(ctx.attributes) && ctx.json == old(ctx.json)
    ensures ctx.httpMethod != Preflight && IsOpenEndpoint(Uppercased(ctx.routeRoles)) ==>
      r == Done && unchanged(ctx)
    ensures ctx.httpMethod != Preflight && !IsOpenEndpoint(Uppercased(ctx.routeRoles)) && ctx.authorization.None? ==>
      r == Threw(UnauthorizedResponse(HeaderMissing)) && unchanged(ctx)
    ensures ctx.httpMethod != Preflight && !IsOpenEndpoint(Uppercased(ctx.routeRoles)) ==>
      var verified := ValidateAndGetUserFromToken(lib, secret, ctx.authorization);
      (verified.Ok? ==>
         r == Done && ctx.attributes == old(ctx.attributes)[UserAttribute := verified.value]
         && ctx.status == old(ctx.status) && ctx.json == old(ctx.json))
      && (verified.Throw? ==> r == Threw(verified.error) && unchanged(ctx))
    ensures r.Threw? ==> !r.error.ForbiddenResponse?
  {
    if ctx.httpMethod == Preflight {
      ctx.status := 200;
      return Done;
    }
    var allowedRoles := Uppercased(ctx.routeRoles);
    if IsOpenEndpoint(allowedRoles) {
      return Done;
    }
    var verified := ValidateAndGetUserFromToken(lib, secret, ctx.authorization);
    if verified.Throw? {
      return Threw(verified.error);
    }
    ctx.attributes := ctx.attributes[UserAttribute := verified.value];
    r := Done;
  }

  /**
    The login handler: verified credentials get status 200 and a body with
    the token, made from the user name and the names of the user's roles,
    and the user name; a ValidationException gets status 401 and the
    failure message; anything else propagates with the context untouched.
   */
  method Login(lib: TokenLibrary, getVerifiedUser: (string, string) -> Result<User>, ctx: Context)
    returns (r: Outcome)
    modifies ctx
    ensures var lookup := getVerifiedUser(ctx.body.username, ctx.body.password);
      && (lookup.Ok? ==>
            var dto := UserDTO(lookup.value.username, RoleNames(lookup.value));
            && (lib.createToken(dto).Some? ==>
                  r == Done && ctx.status == 200
                  && ctx.json == map["token" := lib.createToken(dto).value, "username" := dto.username]
                  && ctx.attributes == old(ctx.attributes))
            && (lib.createToken(dto).None? ==>
                  r == Threw(ApiException(500, CouldNotCreateToken)) && unchanged(ctx)))
      && (lookup.Throw? && lookup.error.ValidationException? ==>
            r == Done && ctx.status == 401 && ctx.json == map["msg" := LoginFailed]
            && ctx.attributes == old(ctx.attributes))
      && (lookup.Throw? && !lookup.error.ValidationException? ==>
            r == Threw(lookup.error) && unchanged(ctx))
  {
    var lookup := getVerifiedUser(ctx.body.username, ctx.body.password);
    match lookup
    case Throw(e) =>
      if e.ValidationException? {
        ctx.json := map["msg" := LoginFailed];
        ctx.status := 401;
        r := Done;
      } else {
        r := Threw(e);
      }
    case Ok(verified) =>
      var stringRoles := RoleNames(verified);
      var userDTO := UserDTO(verified.username, stringRoles);
      var token := CreateToken(lib, userDTO);
      if token.Throw? {
        return Threw(token.error);
      }
      ctx.json := map["token" := token.value, "username" := userDTO.username];
      ctx.status := 200;
      r := Done;
  }
}
