# Security gate, Person DTO and user/role association of sem3base

sem3base is a small Javalin REST API with JWT login and role-based access.
This project models three parts of it:

- **The request security gate.** Both `SecurityController` variants have one.
  - `dk.ek.security.SecurityController` provides `authenticate`, `authorize`
    and `verify`.
  - `dk.security.rest.SecurityController` hands out handlers for `login` and
    `authenticate`. Its `register` and `authorize` return null.
  - A preflight `OPTIONS` request is answered 200.
  - A route is open when its upper-cased role set is empty or contains
    `ANYONE`.
  - On any other route, the token is the second space-separated field of the
    `Authorization` header.
  - The token must pass the JWT library's validity and expiry checks. The
    user it carries is then stored in the request attribute `"user"`.
  - `authorize` lets the request through when some role of that user,
    upper-cased, is among the route's roles. Otherwise it answers 403 with a
    message that names both role sets.
- **The Person DTO.** `PersonDTO` is built from a `Person` entity, converts
  back with `toEntity`, has a setter for the id, and has a hand-written
  `equals` over the five data fields.
- **The User/Role association.** `User.addRole` inserts into both sides of a
  many-to-many link. The password is stored as a hash and checked against a
  hash.

Modules, one per file:

- `Exceptions` (exceptions.dfy): the Java exceptions as a datatype, plus
  `Result`/`Outcome` for "returns or throws".
- `JavaStrings` (java_strings.dfy): ASCII `toUpperCase` and the semantics of
  `String.split(" ")`.
- `TokenSecurity` (token_security.dfy): the JWT library as a record of
  function values.
- `Http` (http.dfy): the request context as a class with mutable status,
  attributes and JSON body.
- `RouteAccess` (route_access.dfy): what the two controllers do alike.
  `isOpenEndpoint` and `getToken` are the same code in both. The try blocks
  of `verifyToken` agree up to the exception a rejected token raises, so
  that exception is a parameter of `TokenCheck`.
- `EkSecurityController` and `RestSecurityController`: the two controllers.
- `PersonDtos`: the Person record and the `PersonDTO` class.
- `SecurityEntities`: the `User` and `Role` classes.

These parts become parameters, so every property holds for every choice of
them:

- the JWT library (`lib`);
- the signing secret that `verifyToken` uses (`secret`), which the source
  reads from the environment or from config.properties;
- Java's `Set.toString` (`render`);
- BCrypt's `hashpw`/`checkpw` and its salt;
- the DAO's `getVerifiedUser`.

A thrown exception is a `Throw`/`Threw` value. A handler that throws leaves
the context exactly as it was.

## Model

| member | source | states |
|---|---|---|
| JavaStrings.ToUpper | src/main/java/dk/ek/security/SecurityController.java:94 | upper-casing keeps the length and maps every character through the ASCII upper-case map |
| JavaStrings.ToUpperIsUpper | src/main/java/dk/ek/security/SecurityController.java:94 | an upper-cased name has no lower-case letter left |
| JavaStrings.ToUpperIdempotent | src/main/java/dk/ek/security/SecurityController.java:165 | upper-casing twice is upper-casing once, so upper-casing a user role and comparing with an upper-cased route role is stable |
| JavaStrings.ToUpperOfUpper | src/main/java/dk/ek/security/SecurityController.java:175 | a name already in upper case, such as ANYONE or ADMIN, is unchanged by upper-casing |
| JavaStrings.SplitAll | src/main/java/dk/ek/security/SecurityController.java:154 | splitting gives at least one field, and no field contains the separator |
| JavaStrings.JoinSplitAll | src/main/java/dk/ek/security/SecurityController.java:154 | joining the fields of a split with the separator gives back the original string |
| JavaStrings.SplitAllNoSep | src/main/java/dk/ek/security/SecurityController.java:154 | a string without the separator splits into exactly itself |
| JavaStrings.SplitAllFirstField | src/main/java/dk/ek/security/SecurityController.java:154 | a separator-free prefix followed by a separator becomes the first field, and the rest is split on its own |
| JavaStrings.SplitAllJoin | src/main/java/dk/ek/security/SecurityController.java:154 | splitting a join of separator-free fields gives back those fields |
| JavaStrings.DropTrailingEmpty | src/main/java/dk/ek/security/SecurityController.java:154 | the result is the longest prefix whose last field is non-empty, and every field removed is empty |
| JavaStrings.JavaSplit | src/main/java/dk/ek/security/SecurityController.java:154 | Java's split is the full split with trailing empty fields removed; a string without the separator gives itself as the only field |
| TokenSecurity.Raise | src/main/java/dk/ek/security/SecurityController.java:208-213 | a library call returns its value, or throws ParseException or TokenVerificationException |
| RouteAccess.Uppercased | src/main/java/dk/ek/security/SecurityController.java:94 | every role name in the upper-cased route role set is in upper case |
| RouteAccess.IsOpenEndpoint | src/main/java/dk/ek/security/SecurityController.java:169-179 | a route with no roles or with ANYONE among them is open; an open route with roles has ANYONE among them; a closed route has a role other than ANYONE |
| RouteAccess.OpenEndpointOfRouteRoles | src/main/java/dk/ek/security/SecurityController.java:169-179 | a route is open exactly when it has no roles or has a role that is "anyone" in some letter case |
| RouteAccess.GetToken | src/main/java/dk/ek/security/SecurityController.java:146-161 | a missing header is Unauthorized "Authorization header is missing"; a header without a space is an index failure; "malformed" is never raised; a token is the second field and contains no space |
| RouteAccess.GetTokenSucceedsIff | src/main/java/dk/security/rest/SecurityController.java:116-128 | a header yields a token exactly when some field after the first is non-empty; otherwise the array read fails |
| RouteAccess.BearerToken | src/main/java/dk/security/rest/SecurityController.java:123 | "Bearer " followed by a non-empty token without spaces yields exactly that token |
| RouteAccess.BearerWithoutToken | src/main/java/dk/security/rest/SecurityController.java:123 | "Bearer " with nothing after the space is an index failure, not a 401 |
| RouteAccess.TokenCheck | src/main/java/dk/ek/security/SecurityController.java:207-212 | the user lookup's answer exactly when the token is valid and not expired; the rejection when the library says no to either; otherwise one of the library's two exceptions |
| EkSecurityController.VerifyToken | src/main/java/dk/ek/security/SecurityController.java:203-217 | a user only when the token is valid and not expired; every failure, the internal 403 included, is ApiException(401, "Unauthorized. Could not verify token") |
| EkSecurityController.ValidateAndGetUserFromToken | src/main/java/dk/ek/security/SecurityController.java:136-144 | a user only from an accepted token whose lookup names that user, and always when it does; a getToken failure (missing header, index failure) passes through unchanged; any other failed verification is ApiException(401, "Unauthorized. Could not verify token"); an accepted token whose lookup gives null is Unauthorized "Invalid user or token" |
| EkSecurityController.Authenticate | src/main/java/dk/ek/security/SecurityController.java:87-101 | preflight sets status 200; an open route changes nothing; a missing header is Unauthorized and changes nothing; a verified user is stored under "user" and nothing else changes; any failure leaves the context as it was |
| EkSecurityController.AnyMatchIsIntersection | src/main/java/dk/ek/security/SecurityController.java:163-166 | some role name, upper-cased, is allowed exactly when the upper-cased role names and the allowed roles have a common name |
| EkSecurityController.UserHasAllowedRole | src/main/java/dk/ek/security/SecurityController.java:163-166 | the role check holds exactly when the user's upper-cased roles and the allowed roles meet |
| EkSecurityController.RoleMatchIgnoresCase | src/main/java/dk/ek/security/SecurityController.java:163-166 | upper-casing the user's roles beforehand does not change the outcome of the role check |
| EkSecurityController.RolesEqualUpToCaseMatch | src/main/java/dk/ek/security/SecurityController.java:111-126 | a user role and a route role that are equal up to letter case always grant access |
| EkSecurityController.ForbiddenMessage | src/main/java/dk/ek/security/SecurityController.java:126 | the Forbidden message is "User was not authorized with roles: ", the user's roles as stored, ". Needed roles are: ", then the upper-cased allowed roles, each at the place the lengths before it fix |
| EkSecurityController.Authorize | src/main/java/dk/ek/security/SecurityController.java:110-127 | access is granted exactly when the route is open, or the "user" attribute is present and one of its roles, upper-cased, is allowed; no user is Forbidden "No user was added from the token"; any other refusal is Forbidden with the message naming both role sets |
| EkSecurityController.Verify | src/main/java/dk/ek/security/SecurityController.java:130-133 | a verified token gives status 200 and msg "Token is valid"; any failure leaves the context as it was |
| EkSecurityController.UppercasedUpperSingleton | src/main/java/dk/ek/security/SecurityController.java:111-114 | a route registered with one upper-case role has exactly that role as its allowed set |
| EkSecurityController.UserRoleUppercase | src/main/java/dk/ek/security/SecurityController.java:165 | the role name "user" upper-cases to "USER" |
| EkSecurityController.UserTokenOnAdminRoute | src/test/java/rest/SecurityTest.java:119-128 | a token for "user" with the role "user" fails the role check of a route for ADMIN |
| EkSecurityController.ForbiddenMessageOnAdminRoute | src/test/java/rest/SecurityTest.java:128 | with the usual rendering of one-element sets, that refusal's message is "User was not authorized with roles: [user]. Needed roles are: [ADMIN]" |
| EkSecurityController.UserTokenOnUserRoute | src/test/java/rest/SecurityTest.java:104-113 | the same token passes the role check of a route for USER |
| RestSecurityController.HandlerOf | src/main/java/dk/security/rest/SecurityController.java:30-84 | login() and authenticate() give their handlers; register() and authorize() give none, so this variant never checks roles |
| RestSecurityController.CreateToken | src/main/java/dk/security/rest/SecurityController.java:92-112 | the library's token when it makes one; otherwise ApiException(500, "Could not create token") |
| RestSecurityController.VerifyToken | src/main/java/dk/security/rest/SecurityController.java:130-144 | a user only when the token is valid and not expired; a token the library rejects raises Unauthorized "Token not valid" uncaught, and only then; a library exception becomes ApiException(401) |
| RestSecurityController.ValidateAndGetUserFromToken | src/main/java/dk/security/rest/SecurityController.java:146-153 | a user only from an accepted token whose lookup names that user, and always when it does; a getToken failure passes through unchanged; a token the library rejects gives Unauthorized "Token not valid"; a library exception gives ApiException(401, "Unauthorized. Could not verify token"); an accepted token whose lookup gives null is Unauthorized "Invalid user or token" |
| RestSecurityController.Authenticate | src/main/java/dk/security/rest/SecurityController.java:62-78 | as in the other variant: preflight sets 200, an open route and every failure leave the context as it was, a verified user is stored under "user"; it never answers Forbidden |
| RestSecurityController.Login | src/main/java/dk/security/rest/SecurityController.java:31-54 | verified credentials give status 200 and a body with the token, made from the user name and the user's role names, and the user name; a ValidationException gives status 401 and msg "login failed. Wrong username or password"; a token failure or any other exception leaves the context as it was |
| PersonDtos.PersonDTO.constructor | src/main/java/dk/ek/dtos/PersonDTO.java:31-37 | the five given fields are stored, and address and hobbies are null |
| PersonDtos.PersonDTO.FromPerson | src/main/java/dk/ek/dtos/PersonDTO.java:38-45 | the DTO copies the person's id, names, email and birth date, and address and hobbies are null |
| PersonDtos.PersonDTO.SetId | src/main/java/dk/ek/dtos/PersonDTO.java:47-49 | the id is the given one, and nothing else may change |
| PersonDtos.PersonDTO.ToEntity | src/main/java/dk/ek/dtos/PersonDTO.java:50-60 | the entity has the DTO's id, names, email and birth date |
| PersonDtos.PersonDTO.Equals | src/main/java/dk/ek/dtos/PersonDTO.java:78-90 | false for null and other classes; true exactly for a DTO with the same five data fields when none of the receiver's is null; a throw only when one of the receiver's is null, and then it is a NullPointerException |
| PersonDtos.EntityRoundTrip | src/main/java/dk/ek/dtos/PersonDTO.java:38-60 | the entity of a DTO made from a person is that person |
| PersonDtos.DtoRoundTrip | src/main/java/dk/ek/dtos/PersonDTO.java:38-60 | a DTO made from a DTO's entity has the same five data fields |
| PersonDtos.SetIdKeepsData | src/main/java/dk/ek/dtos/PersonDTO.java:47-49 | after setId, every field except the id is as it was |
| PersonDtos.CopiesAreEqual | src/test/java/rest/PersonHandlerTest.java:272-274 | two DTOs with the data of one person, whatever their address and hobbies, are equal both ways |
| PersonDtos.EqualsSymmetric | src/main/java/dk/ek/dtos/PersonDTO.java:84-89 | equals is symmetric between DTOs without null data fields |
| PersonDtos.GetEntities | src/main/java/dk/ek/dtos/PersonDTO.java:61-63 | every DTO in the result is new and a copy of some input person, and every input person has a copy in the result |
| SecurityEntities.Role.constructor | src/main/java/dk/security/Role.java:30-32 | a new role has its name and no users |
| SecurityEntities.User.constructor | src/main/java/dk/security/User.java:34-38 | a new user has its name, the hash of its password rather than the password, and no roles |
| SecurityEntities.RoleNames | src/main/java/dk/security/rest/SecurityController.java:36-39 | a name is in the result exactly when some role of the user has that name |
| SecurityEntities.User.CheckPassword | src/main/java/dk/security/User.java:40-45 | the answer is the hash check of the candidate against the stored hash |
| SecurityEntities.User.AddRole | src/main/java/dk/security/User.java:47-50 | the role joins the user's roles, the user joins the role's users, and nothing else changes |
| SecurityEntities.CheckPasswordAcceptsExactlyThePassword | src/main/java/dk/security/User.java:34-45 | when the hash check agrees with hashing, a new user accepts exactly the password it was made with |
| SecurityEntities.AddRoleKeepsAssociation | src/main/java/dk/security/Role.java:24-25 | addRole keeps both sides of the user/role association consistent |
| SecurityEntities.AddRoleTwice | src/main/java/dk/security/User.java:47-50 | adding the same role twice leaves the state that adding it once leaves |

## Left out

- The JWT library's internals (signing, parsing, expiry against the clock) are not part of this model. `tokenIsValid`, `tokenNotExpired`, `getUserWithRolesFromToken` and `createToken` are function-valued parameters. Their checked exceptions are two failure values.
- Unchecked exceptions from the JWT library and the DAO beyond those named are not modelled.
- The configuration lookup (environment variables or config.properties) is not modelled. The secret `verifyToken` uses is a parameter. For `createToken`, the issuer, lifetime and secret are all fixed inside the library function `createToken`.
- BCrypt is not modelled. `hashpw`, `checkpw` and the salt from `gensalt(12)` are parameters.
- JSON binding of the login body is not modelled. The body is given as `Credentials`. Writing JSON is modelled as a string map.
- JavaStrings.ToUpper: only ASCII letters are upper-cased, not Java's full Unicode case mapping.
- `Set.toString` is the parameter `render`. The order in which Java prints a set is not modelled.
- PersonDtos.GetEntities: the result is a set of distinct new objects, one per person. `PersonDTO` does not override `hashCode`, so Java's hash set keeps equal DTOs apart as the model does. The model does not represent a hash collision, where Java would consult `equals`. That call can merge two DTOs or throw on a null field.
- `PersonDTO.toString`, its getters and Lombok's other generated members are not modelled.
- `Person.getAge` is left out because it reads the wall clock.
- The DAOs, `Populator`, route registration, `Main`, the demo classes and the `getInstance` singletons are framework and database glue, and are left out.
- The `dk.ek` controller's `login`, `register` and `createToken` are not modelled. Only the operations listed above are.
- Whether the application calls `authorize` for `OPTIONS` requests depends on route configuration that is not part of this model.
- The request context holds only what the handlers use: the method, route roles, Authorization header, login body, status, attributes and JSON body.

Where the code and its documented intent differ, the model follows the code:

- A header with no second field fails with `ArrayIndexOutOfBoundsException`, a server error, rather than 401 "Authorization header is malformed". That branch is unreachable.
- In `dk.security.rest`, a token rejected by the library raises Unauthorized "Token not valid", which the catch clause does not turn into a 401 ApiException.
