/** The backend-user store: the user record (name, optional email and phone, hashed password,
    nullable role reference, block flag) and the create, list, get, update and delete handlers.
    The password hash (bcrypt) is the parameter `hash`; salting is not modelled. */
module Users {
  import opened Common
  import opened Roles

  datatype User = User(
    name: string,
    email: Option<string>,
    phone: Option<string>,
    password: string,
    role: Option<Id>,
    block: bool)

  /** The body of the create handler. */
  datatype UserInput = UserInput(
    name: Option<string>,
    email: Option<string>,
    phone: Option<string>,
    password: Option<string>,
    roleId: Option<Id>)

  /** The body of the update handler: the create fields and the block flag as sent. */
  datatype UserPatch = UserPatch(
    name: Option<string>,
    email: Option<string>,
    phone: Option<string>,
    password: Option<string>,
    roleId: Option<Id>,
    block: Json)

  /** The fields of a role that the list and get handlers populate. */
  datatype RoleView = RoleView(
    role: string, dashboard: int, bookingManagement: int, blogManagement: int, contactUsManagement: int)

  /** A user as the list and get handlers return it: every field but the password, with the role
      reference resolved (`None` when it is null or names a role that no longer exists). */
  datatype UserView = UserView(
    id: Id, name: string, email: Option<string>, phone: Option<string>, role: Option<RoleView>, block: bool)

  /** The body of the list handler. `role` is matched against the role name by a
      case-insensitive regular expression, which the model takes as the predicate `roleMatches`;
      the regular-expression filters on name, email and phone are not modelled. */
  datatype UserQuery = UserQuery(role: Option<string>, block: Json)

  /** `populate`: the referenced role's selected fields, or `None` when the reference is null or dangling. */
  function PopulateRole(ref: Option<Id>, roles: map<Id, Role>): (r: Option<RoleView>)
    ensures r.Some? <==> ref.Some? && ref.value in roles
    ensures r.Some? ==> r.value.role == roles[ref.value].name
  {
    if ref.Some? && ref.value in roles then
      var x := roles[ref.value];
      Some(RoleView(x.name, x.dashboard, x.bookingManagement, x.blogManagement, x.contactUsManagement))
    else None
  }

  /** `select('-password')`. */
  function View(id: Id, u: User, roles: map<Id, Role>): (v: UserView)
    ensures v.id == id && v.name == u.name && v.email == u.email && v.phone == u.phone && v.block == u.block
  {
    UserView(id, u.name, u.email, u.phone, PopulateRole(u.role, roles), u.block)
  }

  /** The list handler's block filter: absent means no filter, "true" or true selects blocked
      users, and any other value selects unblocked users. */
  function BlockFilter(v: Json): (r: Option<bool>)
    ensures v == Undefined <==> r.None?
    ensures (v == Str("true") || v == Bool(true)) ==> r == Some(true)
    ensures v != Undefined && v != Str("true") && v != Bool(true) ==> r == Some(false)
  {
    if v == Undefined then None else Some(v == Str("true") || v == Bool(true))
  }

  /** The value stored for an optional contact field: trimmed when supplied, absent otherwise. */
  function Contact(o: Option<string>): (r: Option<string>)
    ensures r.Some? <==> Present(o)
    ensures r.Some? ==> r.value == Trim(o.value)
  {
    if Present(o) then Some(Trim(o.value)) else None
  }

  /** The update handler's lookup, made only for a truthy email: some user holds it. */
  predicate EmailHeld(rows: map<Id, User>, email: Option<string>)
  {
    Present(email) && exists k :: k in rows && rows[k].email == email
  }

  /** The update handler's lookup, made only for a truthy phone: some user holds it. */
  predicate PhoneHeld(rows: map<Id, User>, phone: Option<string>)
  {
    Present(phone) && exists k :: k in rows && rows[k].phone == phone
  }

  /** The create handler's `{ email }` inside its `$or` lookup: some user holds exactly the value
      sent. An empty string matches a stored empty string, and an omitted field is sent as null
      (the connection sets no `ignoreUndefined`), which matches every user lacking that field. */
  predicate EmailFound(rows: map<Id, User>, email: Option<string>)
  {
    exists k :: k in rows && rows[k].email == email
  }

  /** The create handler's `{ phone }` inside its `$or` lookup, as for `EmailFound`. */
  predicate PhoneFound(rows: map<Id, User>, phone: Option<string>)
  {
    exists k :: k in rows && rows[k].phone == phone
  }

  /** What the schema and its sparse unique indexes accept when `u` is saved under `id`:
      a non-empty name, and no other user holding the same email or the same phone. */
  predicate Saveable(rows: map<Id, User>, id: Id, u: User)
  {
    && u.name != ""
    && (forall k :: k in rows && k != id && u.email.Some? ==> rows[k].email != u.email)
    && (forall k :: k in rows && k != id && u.phone.Some? ==> rows[k].phone != u.phone)
  }

  /** The update handler's record after its field-by-field assignments. */
  function PatchedUser(u: User, req: UserPatch, hash: string -> string): (r: User)
    ensures r.role == (if req.roleId.Some? then req.roleId else u.role)
    ensures r.name == (if Present(req.name) then Trim(req.name.value) else u.name)
    ensures r.password == (if Present(req.password) then hash(req.password.value) else u.password)
    ensures r.block == (if req.block.Bool? then req.block.b else u.block)
    ensures r.email == (if Present(req.email) then Some(Trim(req.email.value)) else u.email)
    ensures r.phone == (if Present(req.phone) then Some(Trim(req.phone.value)) else u.phone)
    ensures u.email.Some? || u.phone.Some? ==> r.email.Some? || r.phone.Some?
  {
    u.(
      role := if req.roleId.Some? then req.roleId else u.role,
      password := if Present(req.password) then hash(req.password.value) else u.password,
      name := if Present(req.name) then Trim(req.name.value) else u.name,
      email := if Present(req.email) then Some(Trim(req.email.value)) else u.email,
      phone := if Present(req.phone) then Some(Trim(req.phone.value)) else u.phone,
      block := if req.block.Bool? then req.block.b else u.block)
  }

  /** The create handler's record: the trimmed name, email and phone stored only when truthy,
      the hashed password, the role when given, not blocked. */
  function NewUser(req: UserInput, hash: string -> string): User
    requires Present(req.password) && req.name.Some?
  {
    User(Trim(req.name.value), Contact(req.email), Contact(req.phone), hash(req.password.value), req.roleId, false)
  }

  /** The create handler's checks before the save: a non-blank name and a password, an email or a
      phone, no user found by the email or the phone as sent, and a role id that resolves when one is given. */
  predicate CreateChecksPass(rows: map<Id, User>, roles: map<Id, Role>, req: UserInput)
  {
    && !(req.name.None? || Blank(req.name.value) || !Present(req.password))
    && (Present(req.email) || Present(req.phone))
    && !EmailFound(rows, req.email) && !PhoneFound(rows, req.phone)
    && (req.roleId.Some? ==> req.roleId.value in roles)
  }

  /** The update handler's checks before the save: the user exists, a changed email and a
      changed phone are not held as sent, and a role id that is given resolves. */
  predicate UpdateChecksPass(rows: map<Id, User>, roles: map<Id, Role>, id: Id, req: UserPatch)
  {
    && id in rows
    && !(Present(req.email) && req.email != rows[id].email && EmailHeld(rows, req.email))
    && !(Present(req.phone) && req.phone != rows[id].phone && PhoneHeld(rows, req.phone))
    && (req.roleId.Some? ==> req.roleId.value in roles)
  }

  /** Ids are below the allocation counter; every user has a name and an email or a phone;
      email and phone are each unique among the users that have one. */
  ghost predicate Consistent(rows: map<Id, User>, nextId: Id)
  {
    && (forall k :: k in rows ==> k < nextId)
    && (forall k :: k in rows ==> rows[k].name != "" && (rows[k].email.Some? || rows[k].phone.Some?))
    && EmailsUnique(rows)
    && (forall a, b :: a in rows && b in rows && a != b && rows[a].phone.Some? ==> rows[a].phone != rows[b].phone)
  }

  /** The sparse unique index on email: no two users share an email. */
  predicate EmailsUnique(rows: map<Id, User>)
  {
    forall a, b :: a in rows && b in rows && a != b && rows[a].email.Some? ==> rows[a].email != rows[b].email
  }

  /** Saving a record the schema accepts, under an allocated id, keeps the collection consistent. */
  lemma SaveKeepsConsistent(rows: map<Id, User>, nextId: Id, id: Id, u: User)
    requires Consistent(rows, nextId) && id < nextId
    requires Saveable(rows, id, u) && (u.email.Some? || u.phone.Some?)
    ensures Consistent(rows[id := u], nextId)
  {
  }

  /** The backend-users collection. */
  class UserTable {
    var rows: map<Id, User>
    var nextId: Id

    /** Ids are below the allocation counter; every user has a name and an email or a phone;
        email and phone are each unique among the users that have one. */
    ghost predicate Valid()
      reads this
    {
      Consistent(rows, nextId)
    }

    constructor ()
      ensures Valid() && rows == map[] && nextId == 0
    {
      rows := map[];
      nextId := 0;
    }

    /** createBackendUser. Error precedence: 400 without a non-blank name or a password, 400 with
        neither email nor phone, 409 when the lookup finds a user by the email or the phone as sent
        (an omitted one finding the users that lack it), naming email when that user's email
        equals the one sent, 404 for a role id that does not resolve, 500 when the store's
        validation rejects the record;
        otherwise a new user with the password hashed, role null unless given, and not blocked. */
    method Create(req: UserInput, roles: RoleTable, hash: string -> string) returns (reply: Reply<Id>)
      requires Valid()
      modifies this
      ensures Valid()
      ensures req.name.None? || Blank(req.name.value) || !Present(req.password)
              ==> reply == Fail(400, "Name and password are required")
      ensures !(req.name.None? || Blank(req.name.value) || !Present(req.password))
              && !Present(req.email) && !Present(req.phone)
              ==> reply == Fail(400, "Either email or phone is required")
      ensures reply.Fail? && reply.code == 409 <==>
              && !(req.name.None? || Blank(req.name.value) || !Present(req.password))
              && (Present(req.email) || Present(req.phone))
              && (EmailFound(old(rows), req.email) || PhoneFound(old(rows), req.phone))
      ensures reply.Fail? && reply.code == 409 ==>
              && reply.message in {"Email already exists", "Phone already exists"}
              && (reply.message == "Email already exists" ==> EmailFound(old(rows), req.email))
              && (!EmailFound(old(rows), req.email) ==> reply.message == "Phone already exists")
              && (!PhoneFound(old(rows), req.phone) ==> reply.message == "Email already exists")
      ensures !(req.name.None? || Blank(req.name.value) || !Present(req.password))
              && (Present(req.email) || Present(req.phone))
              && !EmailFound(old(rows), req.email) && !PhoneFound(old(rows), req.phone)
              && req.roleId.Some? && req.roleId.value !in old(roles.rows)
              ==> reply == Fail(404, "Invalid role ID")
      ensures CreateChecksPass(old(rows), old(roles.rows), req) && !Saveable(old(rows), old(nextId), NewUser(req, hash))
              ==> reply == Fail(500, "Server error while creating backend user")
      ensures reply.Done? <==>
              CreateChecksPass(old(rows), old(roles.rows), req) && Saveable(old(rows), old(nextId), NewUser(req, hash))
      ensures reply.Done? ==>
              && reply.code == 201 && reply.message == "Backend user created successfully"
              && reply.value == old(nextId) && reply.value !in old(rows)
              && rows == old(rows)[reply.value := NewUser(req, hash)]
      ensures reply.Fail? ==> rows == old(rows) && nextId == old(nextId)
    {
      if req.name.None? || Blank(req.name.value) || !Present(req.password) {
        return Fail(400, "Name and password are required");
      }
      if !Present(req.email) && !Present(req.phone) {
        return Fail(400, "Either email or phone is required");
      }
      if EmailFound(rows, req.email) || PhoneFound(rows, req.phone) {
        var k :| k in rows && (rows[k].email == req.email || rows[k].phone == req.phone);
        var message := if rows[k].email == req.email then "Email already exists" else "Phone already exists";
        return Fail(409, message);
      }
      if req.roleId.Some? && req.roleId.value !in roles.rows {
        return Fail(404, "Invalid role ID");
      }
      var user := NewUser(req, hash);
      var id := nextId;
      if !Saveable(rows, id, user) {
        return Fail(500, "Server error while creating backend user");
      }
      SaveKeepsConsistent(rows, nextId + 1, id, user);
      rows := rows[id := user];
      nextId := nextId + 1;
      reply := Done(201, "Backend user created successfully", id);
    }

    /** getAllBackendUsers, without the regular-expression filters: the block filter selects on
        the flag, a role filter drops users whose role does not resolve to a matching role, no
        password is returned, and `total` is the number of users returned. */
    method List(query: UserQuery, roles: RoleTable, roleMatches: string -> bool)
      returns (users: map<Id, UserView>, total: nat)
      ensures total == |users|
      ensures users.Keys <= rows.Keys
      ensures forall k :: k in users ==> users[k] == View(k, rows[k], roles.rows)
      ensures forall k :: k in users ==> BlockFilter(query.block).None? || rows[k].block == BlockFilter(query.block).value
      ensures query.block == Str("true") || query.block == Bool(true) ==> forall k :: k in users ==> rows[k].block
      ensures Present(query.role) ==> forall k :: k in users ==>
                rows[k].role.Some? && rows[k].role.value in roles.rows && roleMatches(roles.rows[rows[k].role.value].name)
      ensures query.block == Undefined && !Present(query.role) ==> users.Keys == rows.Keys
      ensures forall k :: k in rows && (BlockFilter(query.block).None? || rows[k].block == BlockFilter(query.block).value)
                && (!Present(query.role) || (rows[k].role.Some? && rows[k].role.value in roles.rows
                                             && roleMatches(roles.rows[rows[k].role.value].name)))
                ==> k in users
    {
      var block := BlockFilter(query.block);
      var byRole := Present(query.role);
      users := map k | k in rows
                       && (block.None? || rows[k].block == block.value)
                       && (!byRole || (rows[k].role.Some? && rows[k].role.value in roles.rows
                                       && roleMatches(roles.rows[rows[k].role.value].name)))
                     :: View(k, rows[k], roles.rows);
      total := |users|;
    }

    /** getBackendUserById: the user without its password, role populated. */
    method Get(id: Id, roles: RoleTable) returns (reply: Reply<UserView>)
      ensures reply.Done? <==> id in rows
      ensures id in rows ==> reply == Done(200, "Backend user fetched successfully", View(id, rows[id], roles.rows))
      ensures id !in rows ==> reply == Fail(404, "Backend user not found")
    {
      if id !in rows {
        return Fail(404, "Backend user not found");
      }
      reply := Done(200, "Backend user fetched successfully", View(id, rows[id], roles.rows));
    }

    /** updateBackendUserById. Error precedence: 404 for an unknown id, 409 when a changed email
        (then a changed phone) is held by a user, 404 for a role id that does not resolve, 500 when
        the store's validation rejects the record; otherwise the fields are assigned one by one:
        role when given, password re-hashed when given, name, email and phone when non-empty,
        block only when it is a boolean. */
    method Update(id: Id, req: UserPatch, roles: RoleTable, hash: string -> string) returns (reply: Reply<User>)
      requires Valid()
      modifies this
      ensures Valid()
      ensures nextId == old(nextId)
      ensures id !in old(rows) ==> reply == Fail(404, "Backend user not found")
      ensures id in old(rows) && Present(req.email) && req.email != old(rows)[id].email && EmailHeld(old(rows), req.email)
              ==> reply == Fail(409, "Email already exists")
      ensures id in old(rows) && !(Present(req.email) && req.email != old(rows)[id].email && EmailHeld(old(rows), req.email))
              && Present(req.phone) && req.phone != old(rows)[id].phone && PhoneHeld(old(rows), req.phone)
              ==> reply == Fail(409, "Phone already exists")
      ensures id in old(rows) && !(Present(req.email) && req.email != old(rows)[id].email && EmailHeld(old(rows), req.email))
              && !(Present(req.phone) && req.phone != old(rows)[id].phone && PhoneHeld(old(rows), req.phone))
              && req.roleId.Some? && req.roleId.value !in old(roles.rows)
              ==> reply == Fail(404, "Invalid role ID")
      ensures UpdateChecksPass(old(rows), old(roles.rows), id, req)
              && !Saveable(old(rows), id, PatchedUser(old(rows)[id], req, hash))
              ==> reply == Fail(500, "Server error while updating backend user")
      ensures reply.Done? <==>
              UpdateChecksPass(old(rows), old(roles.rows), id, req)
              && Saveable(old(rows), id, PatchedUser(old(rows)[id], req, hash))
      ensures reply.Done? ==>
              && reply == Done(200, "Backend user updated successfully", PatchedUser(old(rows)[id], req, hash))
              && rows == old(rows)[id := reply.value]
      ensures reply.Fail? ==> rows == old(rows)
    {
      if id !in rows {
        return Fail(404, "Backend user not found");
      }
      var user := rows[id];
      if Present(req.email) && req.email != user.email && EmailHeld(rows, req.email) {
        return Fail(409, "Email already exists");
      }
      if Present(req.phone) && req.phone != user.phone && PhoneHeld(rows, req.phone) {
        return Fail(409, "Phone already exists");
      }
      if req.roleId.Some? && req.roleId.value !in roles.rows {
        return Fail(404, "Invalid role ID");
      }
      user := PatchedUser(user, req, hash);
      if !Saveable(rows, id, user) {
        return Fail(500, "Server error while updating backend user");
      }
      SaveKeepsConsistent(rows, nextId, id, user);
      rows := rows[id := user];
      reply := Done(200, "Backend user updated successfully", user);
    }

    /** deleteBackendUserById. */
    method Delete(id: Id) returns (reply: Reply<()>)
      requires Valid()
      modifies this
      ensures Valid()
      ensures nextId == old(nextId)
      ensures id !in old(rows) ==> reply == Fail(404, "Backend user not found") && rows == old(rows)
      ensures id in old(rows) ==> reply == Done(200, "Backend user deleted successfully", ()) && rows == old(rows) - {id}
    {
      if id !in rows {
        return Fail(404, "Backend user not found");
      }
      rows := rows - {id};
      reply := Done(200, "Backend user deleted successfully", ());
    }
  }
}
