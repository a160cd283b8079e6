/**
  The security gate of dk.ek.security.SecurityController: `authenticate`
  runs before a route's handler and attaches the user from the bearer token
  to the request, `authorize` then compares that user's roles with the
  route's, and `verify` answers whether a token is valid.

  The JWT library is a parameter (`lib`), and so is the signing secret that
  the source reads from the environment or a properties file.  Java's
  `Set.toString` is the parameter `render`.
 */
module EkSecurityController {
  import opened Exceptions
  import opened JavaStrings
  import opened TokenSecurity
  import opened Http
  import opened RouteAccess

  const TokenIsNotValid := "Token is not valid"
  const NoUserAdded := "No user was added from the token"
  const TokenIsValid := "Token is valid"

  /** The exceptions verifyToken's catch clause names. */
  predicate Caught(e: Exception) {
    e.ParseException? || e.NotAuthorizedException? || e.TokenVerificationException?
  }

  /**
    verifyToken: the user from the token when it is valid and not expired.
    A failed check throws NotAuthorizedException(403), which the method's own
    catch clause turns, like the library's exceptions, into ApiException(401).
   */
  function VerifyToken(lib: TokenLibrary, secret: string, token: string): (r: Result<Option<UserDTO>>)
    ensures r.Ok? <==> TokenAccepted(lib, secret, token) && lib.getUserWithRolesFromToken(token).Returned?
    ensures r.Ok? ==> Returned(r.value) == lib.getUserWithRolesFromToken(token)
    ensures r.Throw? ==> r.error == ApiException(401, CouldNotVerify)
  {
    var attempt := TokenCheck(lib, secret, token, NotAuthorizedException(403, TokenIsNotValid));
    if attempt.Throw? && Caught(attempt.error) then Throw(ApiException(401, CouldNotVerify))
    else attempt
  }

  /**
    validateAndGetUserFromToken: the token from the header, verified; a
    verified token without a user is rejected.
   */
  function ValidateAndGetUserFromToken(lib: TokenLibrary, secret: string, header: Option<string>)
    : (r: Result<UserDTO>)
    ensures header.None? ==> r == Throw(UnauthorizedResponse(HeaderMissing))
    ensures r.Ok? ==> GetToken(header).Ok? && TokenAccepted(lib, secret, GetToken(header).value)
                      && lib.getUserWithRolesFromToken(GetToken(header).value) == Returned(Some(r.value))
    ensures GetToken(header).Ok? && TokenAccepted(lib, secret, GetToken(header).value)
            && lib.getUserWithRolesFromToken(GetToken(header).value).Returned?
            && lib.getUserWithRolesFromToken(GetToken(header).value).value.Some?
            ==> r == Ok(lib.getUserWithRolesFromToken(GetToken(header).value).value.value)
    ensures GetToken(header).Ok? && TokenAccepted(lib, secret, GetToken(header).value)
            && lib.getUserWithRolesFromToken(GetToken(header).value) == Returned(None)
            ==> r == Throw(UnauthorizedResponse(InvalidUserOrToken))
    ensures GetToken(header).Throw? ==> r == Throw(GetToken(header).error)
    ensures GetToken(header).Ok?
            && !(TokenAccepted(lib, secret, GetToken(header).value)
                 && lib.getUserWithRolesFromToken(GetToken(header).value).Returned?)
            ==> r == Throw(ApiException(401, CouldNotVerify))
    ensures r.Throw? ==> r.error in {UnauthorizedResponse(HeaderMissing), ArrayIndexOutOfBoundsException,
                                     ApiException(401, CouldNotVerify), UnauthorizedResponse(InvalidUserOrToken)}
  {
    var token :- GetToken(header);
    var verified :- VerifyToken(lib, secret, token);
    if verified.None? then Throw(UnauthorizedResponse(InvalidUserOrToken))
    else Ok(verified.value)
  }

  /**
    authenticate: a preflight request gets status 200; an open route passes
    untouched; on any other route the verified user is stored under "user",
    and a request that cannot be verified is rejected with the context left
    as it was.
   */
  method Authenticate(lib: TokenLibrary, secret: string, ctx: Context) returns (r: Outcome)
    modifies ctx
    ensures ctx.httpMethod == Preflight ==>
      r == Done && ctx.status == 200 && ctx.attributes == old(ctx.attributes) && ctx.json == old(ctx.json)
    ensures ctx.httpMethod != Preflight && IsOpenEndpoint(Uppercased(ctx.routeRoles)) ==>
      r == Done && unchanged(ctx)
    ensures ctx.httpMethod != Preflight && !IsOpenEndpoint(Uppercased(ctx.routeRoles)) && ctx.authorization.None? ==>
      r == Threw(UnauthorizedResponse(HeaderMissing)) && unchanged(ctx)
    ensures ctx.httpMethod != Preflight && !IsOpenEndpoint(Uppercased(ctx.routeRoles)) ==>
      var verified := ValidateAndGetUserFromToken(lib, secret, ctx.authorization);
      (verified.Ok? ==>
         r == Done && ctx.attributes == old(ctx.attributes)[UserAttribute := verified.value]
         && ctx.status == old(ctx.status) && ctx.json == old(ctx.json))
      && (verified.Throw? ==> r == Threw(verified.error) && unchanged(ctx))
  {
    if ctx.httpMethod == Preflight {
      ctx.status := 200;
      return Done;
    }
    var allowedRoles := Uppercased(ctx.routeRoles);
    if IsOpenEndpoint(allowedRoles) {
      return Done;
    }
    var verified := ValidateAndGetUserFromToken(lib, secret, ctx.authorization);
    if verified.Throw? {
      return Threw(verified.error);
    }
    ctx.attributes := ctx.attributes[UserAttribute := verified.value];
    r := Done;
  }

  /** Some role name, upper-cased, is allowed exactly when the upper-cased names meet the allowed set. */
  lemma AnyMatchIsIntersection(roles: set<string>, allowedRoles: set<string>)
    ensures (exists role | role in roles :: ToUpper(role) in allowedRoles)
            <==> Uppercased(roles) * allowedRoles != {}
  {
    if exists role | role in roles :: ToUpper(role) in allowedRoles {
      var role :| role in roles && ToUpper(role) in allowedRoles;
      assert ToUpper(role) in Uppercased(roles) * allowedRoles;
    }
    if Uppercased(roles) * allowedRoles != {} {
      var name :| name in Uppercased(roles) * allowedRoles;
      var role :| role in roles && ToUpper(role) == name;
    }
  }

  /**
    userHasAllowedRole: some role of the user, upper-cased, is allowed; that
    is, the user's upper-cased roles and the allowed roles have a common name.
   */
  function UserHasAllowedRole(user: UserDTO, allowedRoles: set<string>): (allowed: bool)
    ensures allowed <==> Uppercased(user.roles) * allowedRoles != {}
  {
    AnyMatchIsIntersection(user.roles, allowedRoles);
    exists role | role in user.roles :: ToUpper(role) in allowedRoles
  }

  /** The letter case of the user's role names does not matter. */
  lemma RoleMatchIgnoresCase(user: UserDTO, allowedRoles: set<string>)
    ensures UserHasAllowedRole(user, allowedRoles)
        <==> UserHasAllowedRole(UserDTO(user.username, Uppercased(user.roles)), allowedRoles)
  {
    var upper := UserDTO(user.username, Uppercased(user.roles));
    if UserHasAllowedRole(user, allowedRoles) {
      var role :| role in user.roles && ToUpper(role) in allowedRoles;
      ToUpperIdempotent(role);
      assert ToUpper(role) in upper.roles;
    }
    if UserHasAllowedRole(upper, allowedRoles) {
      var name :| name in upper.roles && ToUpper(name) in allowedRoles;
      var role :| role in user.roles && ToUpper(role) == name;
      ToUpperIdempotent(role);
    }
  }

  /** A user role and a route role that agree up to letter case always match. */
  lemma RolesEqualUpToCaseMatch(user: UserDTO, routeRoles: set<string>, role: string, routeRole: string)
    requires role in user.roles && routeRole in routeRoles && ToUpper(role) == ToUpper(routeRole)
    ensures UserHasAllowedRole(user, Uppercased(routeRoles))
  {
    assert ToUpper(routeRole) in Uppercased(routeRoles);
  }

  /**
    The Forbidden message: a fixed prefix, the user's roles as stored, a fixed
    middle, then the upper-cased allowed roles; each role set sits at a place
    fixed by the lengths of what precedes it.
   */
  function ForbiddenMessage(render: set<string> -> string, userRoles: set<string>, allowedRoles: set<string>)
    : (m: string)
    ensures var prefix := "User was not authorized with roles: ";
            && |m| == |prefix| + |render(userRoles)| + |". Needed roles are: "| + |render(allowedRoles)|
            && m[..|prefix|] == prefix
            && m[|prefix|..|prefix| + |render(userRoles)|] == render(userRoles)
            && m[|prefix| + |render(userRoles)|..|m| - |render(allowedRoles)|] == ". Needed roles are: "
            && m[|m| - |render(allowedRoles)|..] == render(allowedRoles)
  {
    "User was not authorized with roles: " + render(userRoles) + ". Needed roles are: " + render(allowedRoles)
  }

  /**
    authorize: an open route passes; otherwise the request needs a user in
    the "user" attribute with a role that, upper-cased, the route allows.
    It never writes the context.
   */
  method Authorize(ctx: Context, render: set<string> -> string) returns (r: Outcome)
    ensures r.Done? <==>
      IsOpenEndpoint(Uppercased(ctx.routeRoles))
      || (UserAttribute in ctx.attributes
          && Uppercased(ctx.attributes[UserAttribute].roles) * Uppercased(ctx.routeRoles) != {})
    ensures !IsOpenEndpoint(Uppercased(ctx.routeRoles)) && UserAttribute !in ctx.attributes ==>
      r == Threw(ForbiddenResponse(NoUserAdded))
    ensures !IsOpenEndpoint(Uppercased(ctx.routeRoles)) && UserAttribute in ctx.attributes && r.Threw? ==>
      r == Threw(ForbiddenResponse(
             ForbiddenMessage(render, ctx.attributes[UserAttribute].roles, Uppercased(ctx.routeRoles))))
  {
    var allowedRoles := Uppercased(ctx.routeRoles);
    if IsOpenEndpoint(allowedRoles) {
      return Done;
    }
    if UserAttribute !in ctx.attributes {
      return Threw(ForbiddenResponse(NoUserAdded));
    }
    var user := ctx.attributes[UserAttribute];
    if !UserHasAllowedRole(user, allowedRoles) {
      return Threw(ForbiddenResponse(ForbiddenMessage(render, user.roles, allowedRoles)));
    }
    r := Done;
  }

  /**
    verify: a request whose token verifies gets status 200 and the message
    "Token is valid"; any other request is rejected, with the context left as
    it was.  No role check and no preflight exception.
   */
  method Verify(lib: TokenLibrary, secret: string, ctx: Context) returns (r: Outcome)
    modifies ctx
    ensures var verified := ValidateAndGetUserFromToken(lib, secret, ctx.authorization);
      (verified.Ok? ==>
         r == Done && ctx.status == 200 && ctx.json == map["msg" := TokenIsValid]
         && ctx.attributes == old(ctx.attributes))
      && (verified.Throw? ==> r == Threw(verified.error) && unchanged(ctx))
  {
    var verified := ValidateAndGetUserFromToken(lib, secret, ctx.authorization);
    if verified.Throw? {
      return Threw(verified.error);
    }
    ctx.status := 200;
    ctx.json := map["msg" := TokenIsValid];
    r := Done;
  }

  /** Upper-casing the route roles "ADMIN" and "USER" changes nothing. */
  lemma UppercasedUpperSingleton(name: string)
    requires IsUpper(name)
    ensures Uppercased({name}) == {name}
  {
    ToUpperOfUpper(name);
  }

  lemma UserRoleUppercase()
    ensures ToUpper("user") == "USER"
  {
    var upper := ToUpper("user");
    assert upper[0] == 'U' && upper[1] == 'S' && upper[2] == 'E' && upper[3] == 'R';
  }

  /**
    The login test's scenario, part one: a token for user "user" with role
    "user" fails the role check of a route for "ADMIN" ...
   */
  lemma UserTokenOnAdminRoute()
    ensures !UserHasAllowedRole(UserDTO("user", {"user"}), Uppercased({"ADMIN"}))
  {
    UppercasedUpperSingleton("ADMIN");
    UserRoleUppercase();
  }

  /** ... part two: with exactly the message the test expects ... */
  lemma ForbiddenMessageOnAdminRoute(render: set<string> -> string)
    requires render({"user"}) == "[user]" && render({"ADMIN"}) == "[ADMIN]"
    ensures ForbiddenMessage(render, {"user"}, Uppercased({"ADMIN"}))
            == "User was not authorized with roles: " + "[user]" + ". Needed roles are: " + "[ADMIN]"
  {
    UppercasedUpperSingleton("ADMIN");
  }

  /** ... part three: the same token passes a route for "USER". */
  lemma UserTokenOnUserRoute()
    ensures UserHasAllowedRole(UserDTO("user", {"user"}), Uppercased({"USER"}))
  {
    UppercasedUpperSingleton("USER");
    UserRoleUppercase();
  }
}
