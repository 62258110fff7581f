/** The role registry: the role-and-permission record (seven categories, each holding a
    level 0 none, 1 view, 2 edit, 3 delete, 4 all) and the create, get, update and delete
    handlers over the roles collection. */
module Roles {
  import opened Common

  datatype Category =
    | Dashboard
    | BookingManagement
    | BlogManagement
    | ContactUsManagement
    | SuggestionsManagement
    | BackendUserManagement
    | RoleAndPermissionManagement

  /** A stored role: its name (`role` in the schema) and one level per category. */
  datatype Role = Role(
    name: string,
    dashboard: int,
    bookingManagement: int,
    blogManagement: int,
    contactUsManagement: int,
    suggestionsManagement: int,
    backendUserManagement: int,
    roleAndPermissionManagement: int)

  /** The body the create and update handlers read: a name and four of the seven levels. */
  datatype RoleInput = RoleInput(
    role: Option<string>,
    dashboard: Option<int>,
    bookingManagement: Option<int>,
    blogManagement: Option<int>,
    contactUsManagement: Option<int>)

  /** The schema's enum [0, 1, 2, 3, 4]. */
  predicate IsLevel(x: int)
  {
    0 <= x <= 4
  }

  function LevelOf(r: Role, c: Category): int
  {
    match c
    case Dashboard => r.dashboard
    case BookingManagement => r.bookingManagement
    case BlogManagement => r.blogManagement
    case ContactUsManagement => r.contactUsManagement
    case SuggestionsManagement => r.suggestionsManagement
    case BackendUserManagement => r.backendUserManagement
    case RoleAndPermissionManagement => r.roleAndPermissionManagement
  }

  /** What the schema accepts: a non-empty name and each of the seven levels in the enum. */
  predicate RoleValid(r: Role)
  {
    && r.name != ""
    && IsLevel(r.dashboard) && IsLevel(r.bookingManagement) && IsLevel(r.blogManagement)
    && IsLevel(r.contactUsManagement) && IsLevel(r.suggestionsManagement)
    && IsLevel(r.backendUserManagement) && IsLevel(r.roleAndPermissionManagement)
  }

  /** A valid role holds a level in the enum for every category: none is missing. */
  lemma ValidRoleLevels(r: Role, c: Category)
    requires RoleValid(r)
    ensures IsLevel(LevelOf(r, c))
  {
  }

  /** The create handler's record: the four levels it writes, and the schema default 0 for
      suggestions, backend users and roles. */
  function NewRole(name: string, dashboard: int, booking: int, blog: int, contact: int): (r: Role)
    ensures r.name == name
    ensures LevelOf(r, Dashboard) == dashboard && LevelOf(r, BookingManagement) == booking
    ensures LevelOf(r, BlogManagement) == blog && LevelOf(r, ContactUsManagement) == contact
    ensures LevelOf(r, SuggestionsManagement) == 0
    ensures LevelOf(r, BackendUserManagement) == 0
    ensures LevelOf(r, RoleAndPermissionManagement) == 0
    ensures name != "" && IsLevel(dashboard) && IsLevel(booking) && IsLevel(blog) && IsLevel(contact)
            ==> RoleValid(r)
  {
    Role(name, dashboard, booking, blog, contact, 0, 0, 0)
  }

  /** `validatePermission`, both copies: an omitted level becomes `fallback` (0 on create,
      the stored level on update), a supplied level is kept only when it is in the enum, and
      anything else is rejected (`None`, where the source throws). */
  function CheckLevel(value: Option<int>, fallback: int): (r: Option<int>)
    ensures r.None? <==> value.Some? && !IsLevel(value.value)
    ensures value.None? ==> r == Some(fallback)
    ensures value.Some? && IsLevel(value.value) ==> r == value
    ensures IsLevel(fallback) && r.Some? ==> IsLevel(r.value)
  {
    match value
    case None => Some(fallback)
    case Some(v) => if IsLevel(v) then Some(v) else None
  }

  /** A level that `validatePermission` lets through: omitted, or in the enum. */
  predicate LevelOk(value: Option<int>)
  {
    value.None? || IsLevel(value.value)
  }

  /** The message of the error `validatePermission` throws. */
  function LevelError(field: string): string
  {
    field + " must be one of: 0 (none), 1 (view), 2 (edit), 3 (delete), 4 (all)"
  }

  /** The name of the first of the four supplied levels that is outside the enum, in the
      order the handlers validate them; `None` when all four pass. */
  function FirstInvalid(req: RoleInput): (r: Option<string>)
    ensures r.None? <==>
      LevelOk(req.dashboard) && LevelOk(req.bookingManagement) && LevelOk(req.blogManagement)
      && LevelOk(req.contactUsManagement)
    ensures r == Some("dashboard") <==> !LevelOk(req.dashboard)
    ensures r == Some("bookingManagement") <==> LevelOk(req.dashboard) && !LevelOk(req.bookingManagement)
    ensures r == Some("blogManagement") <==>
      LevelOk(req.dashboard) && LevelOk(req.bookingManagement) && !LevelOk(req.blogManagement)
    ensures r == Some("contactUsManagement") <==>
      LevelOk(req.dashboard) && LevelOk(req.bookingManagement) && LevelOk(req.blogManagement)
      && !LevelOk(req.contactUsManagement)
  {
    if CheckLevel(req.dashboard, 0).None? then Some("dashboard")
    else if CheckLevel(req.bookingManagement, 0).None? then Some("bookingManagement")
    else if CheckLevel(req.blogManagement, 0).None? then Some("blogManagement")
    else if CheckLevel(req.contactUsManagement, 0).None? then Some("contactUsManagement")
    else None
  }

  /** A role name that is missing, empty or only whitespace (`!role || !role.trim()`). */
  predicate NameMissing(o: Option<string>)
  {
    o.None? || Blank(o.value)
  }

  predicate NameTaken(rows: map<Id, Role>, name: string)
  {
    exists k :: k in rows && rows[k].name == name
  }

  /** The update handler's record: an absent or blank name keeps the old name, an omitted level
      keeps the old level. */
  function Patched(old_: Role, req: RoleInput): (r: Role)
    requires FirstInvalid(req).None?
    ensures r.name == KeepOr(req.role, old_.name)
    ensures RoleValid(old_) ==> RoleValid(r)
    ensures LevelOf(r, Dashboard) == (if req.dashboard.Some? then req.dashboard.value else old_.dashboard)
    ensures LevelOf(r, BookingManagement)
            == (if req.bookingManagement.Some? then req.bookingManagement.value else old_.bookingManagement)
    ensures LevelOf(r, BlogManagement) == (if req.blogManagement.Some? then req.blogManagement.value else old_.blogManagement)
    ensures LevelOf(r, ContactUsManagement)
            == (if req.contactUsManagement.Some? then req.contactUsManagement.value else old_.contactUsManagement)
    ensures forall c :: c in {SuggestionsManagement, BackendUserManagement, RoleAndPermissionManagement}
              ==> LevelOf(r, c) == LevelOf(old_, c)
  {
    old_.(
      name := KeepOr(req.role, old_.name),
      dashboard := CheckLevel(req.dashboard, old_.dashboard).value,
      bookingManagement := CheckLevel(req.bookingManagement, old_.bookingManagement).value,
      blogManagement := CheckLevel(req.blogManagement, old_.blogManagement).value,
      contactUsManagement := CheckLevel(req.contactUsManagement, old_.contactUsManagement).value)
  }

  /** Every stored role is schema-valid, ids are below the allocation counter, and no two
      roles share a name (kept only by the handlers' pre-checks: the schema has no unique index). */
  ghost predicate RolesConsistent(rows: map<Id, Role>, nextId: Id)
  {
    && (forall k :: k in rows ==> k < nextId)
    && (forall k :: k in rows ==> RoleValid(rows[k]))
    && (forall a, b :: a in rows && b in rows && rows[a].name == rows[b].name ==> a == b)
  }

  /** Saving a valid role under an allocated id, with a name no other role holds, keeps the
      collection consistent. */
  lemma SaveKeepsRolesConsistent(rows: map<Id, Role>, nextId: Id, id: Id, r: Role)
    requires RolesConsistent(rows, nextId) && id < nextId && RoleValid(r)
    requires forall k :: k in rows && k != id ==> rows[k].name != r.name
    ensures RolesConsistent(rows[id := r], nextId)
  {
  }

  /** The roles collection. */
  class RoleTable {
    var rows: map<Id, Role>
    var nextId: Id

    ghost predicate Valid()
      reads this
    {
      RolesConsistent(rows, nextId)
    }

    constructor ()
      ensures Valid() && rows == map[] && nextId == 0
    {
      rows := map[];
      nextId := 0;
    }

    /** createRoleAndPermission. Error precedence: 400 for a blank name, then 409 for a role
        already holding exactly the trimmed name, then 500 for an out-of-range level (the thrown
        error reaches the generic catch); otherwise one new role under a fresh id. */
    method Create(req: RoleInput) returns (reply: Reply<Id>)
      requires Valid()
      modifies this
      ensures Valid()
      ensures NameMissing(req.role) ==> reply == Fail(400, "Role name is required")
      ensures !NameMissing(req.role) && NameTaken(old(rows), Trim(req.role.value))
              ==> reply == Fail(409, "Role already exists")
      ensures !NameMissing(req.role) && !NameTaken(old(rows), Trim(req.role.value)) && FirstInvalid(req).Some?
              ==> reply == Fail(500, "Server error while creating role")
      ensures reply.Done? <==>
              !NameMissing(req.role) && !NameTaken(old(rows), Trim(req.role.value)) && FirstInvalid(req).None?
      ensures reply.Done? ==>
              && reply.code == 201 && reply.value == old(nextId) && reply.value !in old(rows)
              && rows == old(rows)[reply.value := NewRole(Trim(req.role.value),
                   CheckLevel(req.dashboard, 0).value, CheckLevel(req.bookingManagement, 0).value,
                   CheckLevel(req.blogManagement, 0).value, CheckLevel(req.contactUsManagement, 0).value)]
      ensures reply.Fail? ==> rows == old(rows) && nextId == old(nextId)
    {
      if NameMissing(req.role) {
        return Fail(400, "Role name is required");
      }
      var name := Trim(req.role.value);
      if exists k :: k in rows && rows[k].name == name {
        return Fail(409, "Role already exists");
      }
      var dashboard := CheckLevel(req.dashboard, 0);
      var booking := CheckLevel(req.bookingManagement, 0);
      var blog := CheckLevel(req.blogManagement, 0);
      var contact := CheckLevel(req.contactUsManagement, 0);
      if dashboard.None? || booking.None? || blog.None? || contact.None? {
        return Fail(500, "Server error while creating role");
      }
      var role := NewRole(name, dashboard.value, booking.value, blog.value, contact.value);
      var id := nextId;
      SaveKeepsRolesConsistent(rows, nextId + 1, id, role);
      rows := rows[id := role];
      nextId := nextId + 1;
      reply := Done(201, "New role created successfully", id);
    }

    /** getRolePermissionById. */
    method Get(id: Id) returns (reply: Reply<Role>)
      ensures reply.Done? <==> id in rows
      ensures id in rows ==> reply == Done(200, "Role fetched successfully", rows[id])
      ensures id !in rows ==> reply == Fail(404, "Role not found")
    {
      if id !in rows {
        return Fail(404, "Role not found");
      }
      reply := Done(200, "Role fetched successfully", rows[id]);
    }

    /** updateRolePermissionById. Error precedence: 404 for an unknown id, then 409 when a
        supplied name trims to another role's name (an unchanged name skips the check), then 400
        naming the first out-of-range level; otherwise the role is patched in place. */
    method Update(id: Id, req: RoleInput) returns (reply: Reply<Role>)
      requires Valid()
      modifies this
      ensures Valid()
      ensures nextId == old(nextId)
      ensures id !in old(rows) ==> reply == Fail(404, "Role not found")
      ensures id in old(rows) && Present(req.role) && Trim(req.role.value) != old(rows)[id].name
              && NameTaken(old(rows), Trim(req.role.value))
              ==> reply == Fail(409, "Role name already in use")
      ensures id in old(rows) && FirstInvalid(req).Some?
              && !(Present(req.role) && Trim(req.role.value) != old(rows)[id].name
                   && NameTaken(old(rows), Trim(req.role.value)))
              ==> reply == Fail(400, LevelError(FirstInvalid(req).value))
      ensures reply.Done? <==>
              && id in old(rows) && FirstInvalid(req).None?
              && !(Present(req.role) && Trim(req.role.value) != old(rows)[id].name
                   && NameTaken(old(rows), Trim(req.role.value)))
      ensures reply.Done? ==>
              && id in old(rows) && FirstInvalid(req).None?
              && reply == Done(200, "Role updated successfully", Patched(old(rows)[id], req))
              && rows == old(rows)[id := reply.value]
      ensures reply.Fail? ==> rows == old(rows)
    {
      if id !in rows {
        return Fail(404, "Role not found");
      }
      var existing := rows[id];
      if Present(req.role) && Trim(req.role.value) != existing.name {
        var name := Trim(req.role.value);
        if exists k :: k in rows && rows[k].name == name {
          return Fail(409, "Role name already in use");
        }
      }
      var invalid := FirstInvalid(req);
      if invalid.Some? {
        return Fail(400, LevelError(invalid.value));
      }
      var updated := existing;
      updated := updated.(name := KeepOr(req.role, existing.name));
      updated := updated.(dashboard := CheckLevel(req.dashboard, existing.dashboard).value);
      updated := updated.(bookingManagement := CheckLevel(req.bookingManagement, existing.bookingManagement).value);
      updated := updated.(blogManagement := CheckLevel(req.blogManagement, existing.blogManagement).value);
      updated := updated.(contactUsManagement := CheckLevel(req.contactUsManagement, existing.contactUsManagement).value);
      assert updated == Patched(existing, req);
      SaveKeepsRolesConsistent(rows, nextId, id, updated);
      rows := rows[id := updated];
      reply := Done(200, "Role updated successfully", updated);
    }

    /** deleteRolePermissionById: removes the role when present; users referring to it are not
        looked at (they keep a dangling reference). */
    method Delete(id: Id) returns (reply: Reply<()>)
      requires Valid()
      modifies this
      ensures Valid()
      ensures nextId == old(nextId)
      ensures id !in old(rows) ==> reply == Fail(404, "Role not found") && rows == old(rows)
      ensures id in old(rows) ==> reply == Done(200, "Role deleted successfully", ()) && rows == old(rows) - {id}
    {
      if id !in rows {
        return Fail(404, "Role not found");
      }
      rows := rows - {id};
      reply := Done(200, "Role deleted successfully", ());
    }
  }
}
