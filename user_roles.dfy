/**
  The account entities of dk.security: a User holds a set of Roles and each
  Role holds the set of its Users, the two sides of one many-to-many
  association.  `addRole` writes both sides.

  BCrypt is not part of this model: hashing is the parameter `hashpw`
  (with the random salt as the parameter `salt`) and the password check is
  the parameter `checkpw`.
 */
module SecurityEntities {

  class Role {
    var rolename: string
    var users: set<User>

    /** new Role(name): the name, and no users yet. */
    constructor (rolename: string)
      ensures this.rolename == rolename && users == {}
    {
      this.rolename := rolename;
      users := {};
    }
  }

  class User {
    var username: string
    var password: string
    var roles: set<Role>

    /** new User(name, password): the name, the hash of the password, and no roles yet. */
    constructor (username: string, password: string, hashpw: (string, string) -> string, salt: string)
      ensures this.username == username && this.password == hashpw(password, salt)
      ensures roles == {}
    {
      var hashed := hashpw(password, salt);
      this.username := username;
      this.password := hashed;
      roles := {};
    }

    /** checkPassword: the hash check applied to the candidate and the stored hash. */
    function CheckPassword(candidate: string, checkpw: (string, string) -> bool): (ok: bool)
      reads this
      ensures ok <==> checkpw(candidate, password)
    {
      if checkpw(candidate, password) then true else false
    }

    /** addRole: the role joins this user's roles and this user joins the role's users. */
    method AddRole(role: Role)
      modifies this`roles, role`users
      ensures roles == old(roles) + {role}
      ensures role.users == old(role.users) + {this}
      ensures username == old(username) && password == old(password)
      ensures role.rolename == old(role.rolename)
    {
      roles := roles + {role};
      role.users := role.users + {this};
    }
  }

  /** The names of a user's roles, as a set. */
  function RoleNames(user: User): (names: set<string>)
    reads user, user.roles
    ensures forall name :: name in names <==> exists role :: role in user.roles && role.rolename == name
  {
    set role | role in user.roles :: role.rolename
  }

  /** What BCrypt promises: a candidate checks against a hash exactly when it is the hashed password. */
  ghost predicate HashCheckAgrees(hashpw: (string, string) -> string, checkpw: (string, string) -> bool) {
    forall candidate, plain, salt :: checkpw(candidate, hashpw(plain, salt)) <==> candidate == plain
  }

  /** A user whose stored password is a hash of `plain` accepts exactly `plain`. */
  lemma CheckPasswordAcceptsExactlyThePassword(
    user: User, plain: string, salt: string, candidate: string,
    hashpw: (string, string) -> string, checkpw: (string, string) -> bool)
    requires HashCheckAgrees(hashpw, checkpw)
    requires user.password == hashpw(plain, salt)
    ensures user.CheckPassword(candidate, checkpw) <==> candidate == plain
  {
  }

  /**
    The association invariant: every role a user in `users` holds is in
    `roles` and lists that user, and every user a role in `roles` lists is in
    `users` and holds that role.
   */
  ghost predicate Associated(users: set<User>, roles: set<Role>)
    reads users, roles
  {
    && (forall u, r :: u in users && r in u.roles ==> r in roles && u in r.users)
    && (forall r, u :: r in roles && u in r.users ==> u in users && r in u.roles)
  }

  /** addRole keeps both sides of the association in step. */
  method AddRoleKeepsAssociation(users: set<User>, roles: set<Role>, user: User, role: Role)
    requires Associated(users, roles) && user in users && role in roles
    modifies user`roles, role`users
    ensures Associated(users, roles)
    ensures user.roles == old(user.roles) + {role} && role.users == old(role.users) + {user}
  {
    user.AddRole(role);
  }

  /** Adding the same role a second time changes nothing. */
  method AddRoleTwice(user: User, role: Role)
    modifies user`roles, role`users
    ensures user.roles == old(user.roles) + {role} && role.users == old(role.users) + {user}
  {
    user.AddRole(role);
    ghost var once, onceUsers := user.roles, role.users;
    user.AddRole(role);
    assert user.roles == once && role.users == onceUsers;
  }
}
