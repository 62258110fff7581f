/** The authentication middleware: it takes the second space-separated part of the
    Authorization header as the token, verifies it (the parameter `verify`, standing for
    `jwt.verify` with the server's secret; `None` for any failure, expiry included), looks the user
    up by the id in the claims and, on success, attaches a summary of that user to the request and
    passes control on. The block flag is never read. */
module Middleware {
  import opened Common
  import opened Roles
  import opened Users
  import opened Auth

  /** `req.user` as the middleware builds it. */
  datatype AuthUser = AuthUser(id: Id, name: string, email: Option<string>, role: string, permissions: Option<Role>)

  /** The middleware's accept/reject decision. */
  datatype Decision = Admit(user: AuthUser) | Reject(code: int, message: string)

  /** `header?.split(' ')[1]`, where an absent or empty second part counts as no token. */
  function ExtractToken(header: Option<string>): (r: Option<string>)
    ensures r.Some? <==> header.Some? && |Split(header.value, ' ')| >= 2 && Split(header.value, ' ')[1] != ""
    ensures r.Some? ==> r.value == Split(header.value, ' ')[1] && ' ' !in r.value
  {
    if header.None? then None
    else
      var parts := Split(header.value, ' ');
      if |parts| >= 2 && parts[1] != "" then Some(parts[1]) else None
  }

  /** The summary attached to the request for user `id`. */
  function Attach(id: Id, u: User, roles: map<Id, Role>): (a: AuthUser)
    ensures a.id == id && a.name == u.name && a.email == u.email
    ensures a.permissions == ResolveRole(u, roles) && a.role == RoleName(a.permissions)
  {
    var role := ResolveRole(u, roles);
    AuthUser(id, u.name, u.email, RoleName(role), role)
  }

  /** The decision: 401 without a token, 401 when verification fails, 404 when the user the token
      names no longer exists, otherwise admission with that user's summary. */
  function Decide(header: Option<string>, verify: string -> Option<Claims>,
                  users: map<Id, User>, roles: map<Id, Role>): (d: Decision)
    ensures ExtractToken(header).None? ==> d == Reject(401, "No token provided, access denied")
    ensures ExtractToken(header).Some? && verify(ExtractToken(header).value).None?
            ==> d == Reject(401, "Invalid or expired token")
    ensures ExtractToken(header).Some? && verify(ExtractToken(header).value).Some?
            && verify(ExtractToken(header).value).value.id !in users
            ==> d == Reject(404, "User not found or deleted")
    ensures d.Admit? <==>
            ExtractToken(header).Some? && verify(ExtractToken(header).value).Some?
            && verify(ExtractToken(header).value).value.id in users
    ensures d.Admit? ==>
            var id := verify(ExtractToken(header).value).value.id;
            d.user == Attach(id, users[id], roles)
  {
    match ExtractToken(header)
    case None => Reject(401, "No token provided, access denied")
    case Some(token) =>
      match verify(token)
      case None => Reject(401, "Invalid or expired token")
      case Some(claims) =>
        if claims.id !in users then Reject(404, "User not found or deleted")
        else Admit(Attach(claims.id, users[claims.id], roles))
  }

  /** The block flag plays no part in the decision: blocking or unblocking a user changes nothing. */
  lemma {:induction false} BlockIgnored(header: Option<string>, verify: string -> Option<Claims>,
                                        users: map<Id, User>, roles: map<Id, Role>, k: Id, b: bool)
    requires k in users
    ensures Decide(header, verify, users[k := users[k].(block := b)], roles) == Decide(header, verify, users, roles)
  {
    var users' := users[k := users[k].(block := b)];
    assert users'.Keys == users.Keys;
    forall j | j in users
      ensures Attach(j, users'[j], roles) == Attach(j, users[j], roles)
    {
      assert ResolveRole(users'[j], roles) == ResolveRole(users[j], roles);
    }
  }

  /** The request as the middleware sees and changes it. */
  class Request {
    var authorization: Option<string>
    var user: Option<AuthUser>
    /** How many times the next handler has been called. */
    var nextCalls: nat

    constructor (authorization: Option<string>)
      ensures this.authorization == authorization && user.None? && nextCalls == 0
    {
      this.authorization := authorization;
      user := None;
      nextCalls := 0;
    }

    /** `auth(req, res, next)`: on admission sets `req.user` and calls next exactly once; on
        rejection answers with the decision's status and message and changes nothing. */
    method Authenticate(verify: string -> Option<Claims>, users: UserTable, roles: RoleTable)
      returns (response: Option<(int, string)>)
      modifies this
      ensures authorization == old(authorization)
      ensures var d := Decide(old(authorization), verify, users.rows, roles.rows);
              if d.Admit? then
                response.None? && user == Some(d.user) && nextCalls == old(nextCalls) + 1
              else
                response == Some((d.code, d.message)) && user == old(user) && nextCalls == old(nextCalls)
    {
      var d := Decide(authorization, verify, users.rows, roles.rows);
      if d.Reject? {
        return Some((d.code, d.message));
      }
      user := Some(d.user);
      nextCalls := nextCalls + 1;
      response := None;
    }
  }
}
