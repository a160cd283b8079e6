/**
  The decisions both SecurityController variants make in the same way:
  the upper-cased role set of a route, whether a route is open, how the
  token is taken from the Authorization header, and the validity-and-expiry
  test that guards the token library.  The two controllers' `isOpenEndpoint`
  and `getToken` are the same code; each is modelled once, here.
 */
module RouteAccess {
  import opened Exceptions
  import opened JavaStrings
  import opened TokenSecurity

  /** The sentinel role that opens a route to everybody. */
  const Anyone := "ANYONE"

  const HeaderMissing := "Authorization header is missing"
  const HeaderMalformed := "Authorization header is malformed"

  /** The method name of a CORS preflight request. */
  const Preflight := "OPTIONS"
  /** The message of the 401 ApiException a failed token verification becomes. */
  const CouldNotVerify := "Unauthorized. Could not verify token"
  /** The message when a verified token carries no user. */
  const InvalidUserOrToken := "Invalid user or token"

  /** The role names, each upper-cased, collected into a set. */
  function Uppercased(names: set<string>): (upper: set<string>)
    ensures forall u :: u in upper ==> IsUpper(u)
  {
    set n | n in names :: ToUpper(n)
  }

  /** isOpenEndpoint: no roles at all, or the ANYONE sentinel among them. */
  function IsOpenEndpoint(allowedRoles: set<string>): (open: bool)
    ensures allowedRoles == {} ==> open
    ensures Anyone in allowedRoles ==> open
    ensures open && allowedRoles != {} ==> Anyone in allowedRoles
    ensures !open ==> exists role :: role in allowedRoles && role != Anyone
  {
    if allowedRoles == {} then true
    else if Anyone in allowedRoles then true
    else false
  }

  /**
    A route is open exactly when it was registered with no roles, or with a
    role whose name is "anyone" in any letter case.
   */
  lemma OpenEndpointOfRouteRoles(routeRoles: set<string>)
    ensures IsOpenEndpoint(Uppercased(routeRoles)) <==>
            routeRoles == {} || exists r :: r in routeRoles && ToUpper(r) == Anyone
  {
    if routeRoles != {} {
      var r :| r in routeRoles;
      assert ToUpper(r) in Uppercased(routeRoles);
    }
    if Anyone in Uppercased(routeRoles) {
      var r :| r in routeRoles && ToUpper(r) == Anyone;
    }
  }

  /**
    getToken: the second field of the Authorization header split on single
    spaces.  A header whose split has fewer than two fields makes the Java
    array read fail; the field read is never null, so the "malformed" branch
    cannot be taken.
   */
  function GetToken(header: Option<string>): (r: Result<string>)
    ensures header.None? ==> r == Throw(UnauthorizedResponse(HeaderMissing))
    ensures header.Some? && ' ' !in header.value ==> r == Throw(ArrayIndexOutOfBoundsException)
    ensures r != Throw(UnauthorizedResponse(HeaderMalformed))
    ensures r.Ok? ==> header.Some? && |SplitAll(header.value, ' ')| >= 2
                      && r.value == SplitAll(header.value, ' ')[1]
    ensures r.Ok? ==> ' ' !in r.value
  {
    match header
    case None => Throw(UnauthorizedResponse(HeaderMissing))
    case Some(h) =>
      var parts := JavaSplit(h, ' ');
      if |parts| < 2 then Throw(ArrayIndexOutOfBoundsException)
      else
        var token: Option<string> := Some(parts[1]);
        if token.None? then Throw(UnauthorizedResponse(HeaderMalformed))
        else Ok(token.value)
  }

  /**
    A header yields a token exactly when some field after the first one is
    non-empty; otherwise the array read fails.
   */
  lemma GetTokenSucceedsIff(h: string)
    ensures GetToken(Some(h)).Ok? <==>
            exists i :: 1 <= i < |SplitAll(h, ' ')| && SplitAll(h, ' ')[i] != ""
    ensures !GetToken(Some(h)).Ok? ==> GetToken(Some(h)) == Throw(ArrayIndexOutOfBoundsException)
  {
    var fields := SplitAll(h, ' ');
    var parts := JavaSplit(h, ' ');
    if ' ' in h {
      if |parts| >= 2 {
        assert fields[|parts| - 1] != "";
      }
    } else {
      SplitAllNoSep(h, ' ');
    }
  }

  /** "Bearer <token>" yields the token, for every non-empty token without a space. */
  lemma BearerToken(scheme: string, token: string)
    requires ' ' !in scheme && ' ' !in token && token != ""
    ensures GetToken(Some(scheme + " " + token)) == Ok(token)
  {
    var h := scheme + " " + token;
    assert h == Join([scheme, token], ' ');
    SplitAllJoin([scheme, token], ' ');
    assert ' ' in h by { assert h[|scheme|] == ' '; }
  }

  /** "Bearer " with nothing after the space has no second field. */
  lemma BearerWithoutToken(scheme: string)
    requires ' ' !in scheme
    ensures GetToken(Some(scheme + " ")) == Throw(ArrayIndexOutOfBoundsException)
  {
    var h := scheme + " ";
    assert h == Join([scheme, ""], ' ');
    SplitAllJoin([scheme, ""], ' ');
    assert ' ' in h by { assert h[|scheme|] == ' '; }
  }

  /** The token passed both library checks: a valid signature and not expired. */
  predicate TokenAccepted(lib: TokenLibrary, secret: string, token: string) {
    lib.tokenIsValid(token, secret) == Returned(true) && lib.tokenNotExpired(token) == Returned(true)
  }

  /** The library answered both checks, and one of them with "no". */
  predicate TokenRejected(lib: TokenLibrary, secret: string, token: string) {
    || lib.tokenIsValid(token, secret) == Returned(false)
    || (lib.tokenIsValid(token, secret) == Returned(true) && lib.tokenNotExpired(token) == Returned(false))
  }

  /**
    The try block of verifyToken: the user from the token when it is both
    valid and not expired, otherwise `rejection`; library exceptions pass
    through.  Java's `&&` does not ask about expiry once validity fails.
   */
  function TokenCheck(lib: TokenLibrary, secret: string, token: string, rejection: Exception)
    : (r: Result<Option<UserDTO>>)
    ensures r.Ok? <==> TokenAccepted(lib, secret, token) && lib.getUserWithRolesFromToken(token).Returned?
    ensures r.Ok? ==> Returned(r.value) == lib.getUserWithRolesFromToken(token)
    ensures TokenRejected(lib, secret, token) ==> r == Throw(rejection)
    ensures r.Throw? && !TokenRejected(lib, secret, token) ==>
              r.error == ParseException || r.error == TokenVerificationException
  {
    var valid :- Raise(lib.tokenIsValid(token, secret));
    if !valid then Throw(rejection)
    else
      var notExpired :- Raise(lib.tokenNotExpired(token));
      if !notExpired then Throw(rejection)
      else Raise(lib.getUserWithRolesFromToken(token))
  }
}
