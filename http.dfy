/**
  The part of Javalin's request context that the security handlers read and
  write.  What the request brings is constant; what a handler may set is a
  field: the response status, the request attributes and the JSON body.
 */
module Http {
  import opened Exceptions
  import opened TokenSecurity

  /** The request attribute under which the verified user is stored. */
  const UserAttribute := "user"

  /** The login request body, as bound from JSON. */
  datatype Credentials = Credentials(username: string, password: string)

  class Context {
    /** the HTTP method, e.g. "GET" or "OPTIONS" */
    const httpMethod: string
    /** the role names the matched route was registered with */
    const routeRoles: set<string>
    /** the Authorization header; None when the request has none */
    const authorization: Option<string>
    /** the request body */
    const body: Credentials

    var status: int
    var attributes: map<string, UserDTO>
    var json: map<string, string>

    /** A fresh request: status 200, no attributes, empty body. */
    constructor (httpMethod: string, routeRoles: set<string>, authorization: Option<string>, body: Credentials)
      ensures this.httpMethod == httpMethod && this.routeRoles == routeRoles
      ensures this.authorization == authorization && this.body == body
      ensures status == 200 && attributes == map[] && json == map[]
    {
      this.httpMethod := httpMethod;
      this.routeRoles := routeRoles;
      this.authorization := authorization;
      this.body := body;
      status := 200;
      attributes := map[];
      json := map[];
    }
  }
}
