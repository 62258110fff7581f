/** The login decision: a chain of guarded early returns over a read-only lookup of the
    backend users by email. bcrypt's compare is `hash(password) == stored`, with the same `hash`
    the user store applies; `jwt.sign` is the parameter `sign`, given the claims and the expiry. */
module Auth {
  import opened Common
  import opened Roles
  import opened Users

  /** The token payload. */
  datatype Claims = Claims(id: Id, email: Option<string>, role: string)

  /** The `user` object of the login response. */
  datatype UserSummary = UserSummary(id: Id, name: string, email: Option<string>, role: string)

  /** The payload of a successful login: the token, the user summary and the full resolved role record. */
  datatype LoginData = LoginData(token: string, user: UserSummary, roleAndPermission: Option<Role>)

  /** `findOne({ email })`: the one user holding exactly this email, if any. */
  function FindByEmail(users: map<Id, User>, email: string): (r: Option<Id>)
    requires EmailsUnique(users)
    ensures r.Some? ==> r.value in users && users[r.value].email == Some(email)
    ensures r.None? <==> forall k :: k in users ==> users[k].email != Some(email)
  {
    if exists k :: k in users && users[k].email == Some(email) then
      var k :| k in users && users[k].email == Some(email);
      Some(k)
    else None
  }

  /** `populate`: the referenced role record, or `None` when the reference is null or dangling. */
  function ResolveRole(u: User, roles: map<Id, Role>): (r: Option<Role>)
    ensures r.Some? <==> u.role.Some? && u.role.value in roles
    ensures r.Some? ==> r.value == roles[u.role.value]
  {
    if u.role.Some? && u.role.value in roles then Some(roles[u.role.value]) else None
  }

  /** `roleAndPermissionModel?.role || "No Role"`. */
  function RoleName(role: Option<Role>): (r: string)
    ensures r == "No Role" <==> role.None? || role.value.name == "" || role.value.name == "No Role"
    ensures role.Some? && role.value.name != "" ==> r == role.value.name
  {
    if role.Some? && role.value.name != "" then role.value.name else "No Role"
  }

  /** `process.env.JWT_EXPIRES_IN || "7d"`. */
  function ExpiresIn(env: Option<string>): (r: string)
    ensures Present(env) ==> r == env.value
    ensures !Present(env) ==> r == "7d"
  {
    if Present(env) then env.value else "7d"
  }

  /** The login handler. */
  function Login(users: map<Id, User>, roles: map<Id, Role>, email: Option<string>, password: Option<string>,
                 hash: string -> string, sign: (Claims, string) -> string, expiresEnv: Option<string>): (r: Reply<LoginData>)
    requires EmailsUnique(users)
    // a missing email or password is rejected before any lookup
    ensures !Present(email) || !Present(password) ==> r == Fail(400, "Email and password are required")
    // an unknown email and a wrong password are indistinguishable
    ensures r == Fail(400, "Invalid email or password") <==>
            && Present(email) && Present(password)
            && (FindByEmail(users, email.value).None?
                || hash(password.value) != users[FindByEmail(users, email.value).value].password)
    // the block flag is consulted only once the password has matched
    ensures r == Fail(403, "User is blocked") <==>
            && Present(email) && Present(password) && FindByEmail(users, email.value).Some?
            && hash(password.value) == users[FindByEmail(users, email.value).value].password
            && users[FindByEmail(users, email.value).value].block
    // success only for the unblocked holder of exactly this email whose password hashes to the stored one
    ensures r.Done? ==>
            && Present(email) && Present(password)
            && r.code == 200 && r.message == "Login successful"
            && r.value.user.id in users
            && var u := users[r.value.user.id];
            && u.email == email && hash(password.value) == u.password && !u.block
            && r.value.user == UserSummary(r.value.user.id, u.name, u.email, RoleName(ResolveRole(u, roles)))
            && r.value.roleAndPermission == ResolveRole(u, roles)
            && r.value.token == sign(Claims(r.value.user.id, u.email, r.value.user.role), ExpiresIn(expiresEnv))
    ensures r.Fail? ==> r.code in {400, 403}
  {
    if !Present(email) || !Present(password) then Fail(400, "Email and password are required")
    else
      match FindByEmail(users, email.value)
      case None => Fail(400, "Invalid email or password")
      case Some(id) =>
        var u := users[id];
        if hash(password.value) != u.password then Fail(400, "Invalid email or password")
        else if u.block then Fail(403, "User is blocked")
        else
          var role := ResolveRole(u, roles);
          var name := RoleName(role);
          var token := sign(Claims(id, u.email, name), ExpiresIn(expiresEnv));
          Done(200, "Login successful", LoginData(token, UserSummary(id, u.name, u.email, name), role))
  }

  /** A user without an email never logs in: the lookup is by email only. */
  lemma PhoneOnlyNeverLogsIn(users: map<Id, User>, roles: map<Id, Role>, email: Option<string>, password: Option<string>,
                             hash: string -> string, sign: (Claims, string) -> string, expiresEnv: Option<string>, k: Id)
    requires EmailsUnique(users)
    requires k in users && users[k].email.None?
    ensures var r := Login(users, roles, email, password, hash, sign, expiresEnv);
            !(r.Done? && r.value.user.id == k)
  {
  }

  /** The unblocked holder of an email logs in with any password that hashes to the stored one,
      and the token and the summary carry the same role name. */
  lemma {:induction false} HolderLogsIn(users: map<Id, User>, roles: map<Id, Role>, k: Id, password: string,
                                        hash: string -> string, sign: (Claims, string) -> string, expiresEnv: Option<string>)
    requires EmailsUnique(users)
    requires k in users && Present(users[k].email) && password != ""
    requires hash(password) == users[k].password && !users[k].block
    ensures var r := Login(users, roles, users[k].email, Some(password), hash, sign, expiresEnv);
            && r.Done? && r.value.user.id == k
            && r.value.user.role == RoleName(ResolveRole(users[k], roles))
            && r.value.token == sign(Claims(k, users[k].email, r.value.user.role), ExpiresIn(expiresEnv))
  {
    var found := FindByEmail(users, users[k].email.value);
    assert found == Some(k) by {
      assert found.Some?;
      assert users[found.value].email == users[k].email;
    }
  }

  /** A blocked user is told so only after giving the right password; with a wrong one the
      reply is the same as for an unknown email. */
  lemma {:induction false} BlockedUserReplies(users: map<Id, User>, roles: map<Id, Role>, k: Id, password: string,
                                              hash: string -> string, sign: (Claims, string) -> string, expiresEnv: Option<string>)
    requires EmailsUnique(users)
    requires k in users && Present(users[k].email) && password != "" && users[k].block
    ensures var r := Login(users, roles, users[k].email, Some(password), hash, sign, expiresEnv);
            r == (if hash(password) == users[k].password then Fail(403, "User is blocked")
                  else Fail(400, "Invalid email or password"))
  {
    var found := FindByEmail(users, users[k].email.value);
    assert found == Some(k) by {
      assert found.Some?;
      assert users[found.value].email == users[k].email;
    }
  }
}
