/** The programs a booking refers to: a name and an active flag, with create, list, get,
    update and delete handlers. The duplicate lookup matches names case-insensitively (an anchored
    case-insensitive regular expression, modelled as equality after ASCII lower-casing), so names
    are kept unique up to case. The program schema is taken to be a required String `name` and a
    Boolean `status`, as for services. */
module Programs {
  import opened Common

  datatype Program = Program(name: string, status: bool)

  /** The body of the create and update handlers. */
  datatype ProgramInput = ProgramInput(name: Option<string>, status: Json)

  /** `findOne({ name: /^name$/i })` finds something. */
  predicate NameTaken(rows: map<Id, Program>, name: string)
  {
    exists k :: k in rows && EqualsIgnoreCase(rows[k].name, name)
  }

  predicate NamesUnique(rows: map<Id, Program>)
  {
    forall a, b :: a in rows && b in rows && EqualsIgnoreCase(rows[a].name, rows[b].name) ==> a == b
  }

  /** Adding a record under a fresh id, with a name no record holds in any case, keeps names
      unique up to case. */
  lemma InsertKeepsUnique(rows: map<Id, Program>, id: Id, p: Program)
    requires NamesUnique(rows) && id !in rows && !NameTaken(rows, p.name)
    ensures NamesUnique(rows[id := p])
  {
  }

  /** Replacing a record by one that keeps its name exactly, or takes a name no record holds in
      any case, keeps names unique up to case. */
  lemma ReplaceKeepsUnique(rows: map<Id, Program>, id: Id, p: Program)
    requires NamesUnique(rows) && id in rows
    requires p.name == rows[id].name || !NameTaken(rows, p.name)
    ensures NamesUnique(rows[id := p])
  {
  }

  /** The update handler's status rule: a boolean is taken as is, the strings "true" and "false"
      as the boolean they spell, and anything else leaves the status unchanged. */
  function NewStatus(v: Json, current: bool): (r: bool)
    ensures v.Bool? ==> r == v.b
    ensures v == Str("true") ==> r
    ensures v == Str("false") ==> !r
    ensures !v.Bool? && v != Str("true") && v != Str("false") ==> r == current
  {
    if v.Bool? then v.b
    else if v == Str("true") || v == Str("false") then v == Str("true")
    else current
  }

  predicate Listed(p: Program, filter: Option<bool>)
  {
    filter.None? || p.status == filter.value
  }

  class ProgramTable {
    var rows: map<Id, Program>
    var nextId: Id

    /** Ids are below the allocation counter, every name is non-empty, and no two programs share
        a name up to case. */
    ghost predicate Valid()
      reads this
    {
      && (forall k :: k in rows ==> k < nextId && rows[k].name != "")
      && NamesUnique(rows)
    }

    constructor ()
      ensures Valid() && rows == map[] && nextId == 0
    {
      rows := map[];
      nextId := 0;
    }

    /** createProgram. Error precedence: 400 for a blank name, 409 for a program whose name
        equals the trimmed name up to case, 500 when the status (defaulted to true only when null
        or undefined) does not cast to a boolean; otherwise one new program. */
    method Create(req: ProgramInput) returns (reply: Reply<Id>)
      requires Valid()
      modifies this
      ensures Valid()
      ensures req.name.None? || Blank(req.name.value) ==> reply == Fail(400, "Program name is required")
      ensures !(req.name.None? || Blank(req.name.value)) && NameTaken(old(rows), Trim(req.name.value))
              ==> reply == Fail(409, "Program with this name already exists")
      ensures !(req.name.None? || Blank(req.name.value)) && !NameTaken(old(rows), Trim(req.name.value))
              && CastBoolean(Coalesce(req.status, Bool(true))).None?
              ==> reply == Fail(500, "Server error while creating program")
      ensures reply.Done? <==>
              && !(req.name.None? || Blank(req.name.value)) && !NameTaken(old(rows), Trim(req.name.value))
              && CastBoolean(Coalesce(req.status, Bool(true))).Some?
      ensures reply.Done? ==>
              && reply.code == 201 && reply.message == "Program created successfully"
              && reply.value == old(nextId) && reply.value !in old(rows)
              && rows == old(rows)[reply.value := Program(Trim(req.name.value), CastBoolean(Coalesce(req.status, Bool(true))).value)]
      ensures reply.Done? && Nullish(req.status) ==> rows[reply.value].status
      ensures reply.Done? && req.status == Bool(false) ==> !rows[reply.value].status
      ensures reply.Fail? ==> rows == old(rows) && nextId == old(nextId)
    {
      if req.name.None? || Blank(req.name.value) {
        return Fail(400, "Program name is required");
      }
      var name := Trim(req.name.value);
      if exists k :: k in rows && EqualsIgnoreCase(rows[k].name, name) {
        return Fail(409, "Program with this name already exists");
      }
      var status := CastBoolean(Coalesce(req.status, Bool(true)));
      if status.None? {
        return Fail(500, "Server error while creating program");
      }
      var id := nextId;
      InsertKeepsUnique(rows, id, Program(name, status.value));
      rows := rows[id := Program(name, status.value)];
      nextId := nextId + 1;
      reply := Done(201, "Program created successfully", id);
    }

    /** getAllPrograms, without the regular-expression filters on name: the status filter
        selects on the flag, and `total` is the number of programs returned. */
    method List(status: Json) returns (programs: map<Id, Program>, total: nat)
      ensures total == |programs|
      ensures programs.Keys <= rows.Keys
      ensures forall k :: k in programs ==> programs[k] == rows[k]
      ensures forall k :: k in rows ==> (k in programs <==> Listed(rows[k], StatusFilter(status)))
    {
      var filter: Option<bool> := None;
      if status != Undefined && status != Str("") {
        filter := Some(status == Str("true") || status == Bool(true));
      }
      programs := map k | k in rows && Listed(rows[k], filter) :: rows[k];
      total := |programs|;
    }

    /** getProgramById. */
    method Get(id: Id) returns (reply: Reply<Program>)
      ensures reply.Done? <==> id in rows
      ensures id in rows ==> reply == Done(200, "Program fetched successfully", rows[id])
      ensures id !in rows ==> reply == Fail(404, "Program not found")
    {
      if id !in rows {
        return Fail(404, "Program not found");
      }
      reply := Done(200, "Program fetched successfully", rows[id]);
    }

    /** updateProgramById. Error precedence: 404 for an unknown id, 409 when a supplied name trims
        to something other than the program's exact name and some program, this one included,
        holds it up to case; otherwise a blank name keeps the old one and the status follows
        `NewStatus`. */
    method Update(id: Id, req: ProgramInput) returns (reply: Reply<Program>)
      requires Valid()
      modifies this
      ensures Valid()
      ensures nextId == old(nextId)
      ensures id !in old(rows) ==> reply == Fail(404, "Program not found")
      ensures id in old(rows) && Present(req.name) && Trim(req.name.value) != old(rows)[id].name
              && NameTaken(old(rows), Trim(req.name.value))
              ==> reply == Fail(409, "Program name already exists")
      // a rename that only changes the case of the program's own name is refused
      ensures id in old(rows) && Present(req.name) && Trim(req.name.value) != old(rows)[id].name
              && EqualsIgnoreCase(Trim(req.name.value), old(rows)[id].name)
              ==> reply == Fail(409, "Program name already exists")
      ensures reply.Done? <==>
              id in old(rows) && !(Present(req.name) && Trim(req.name.value) != old(rows)[id].name
                                   && NameTaken(old(rows), Trim(req.name.value)))
      ensures reply.Done? ==>
              && id in old(rows) && reply.code == 200 && reply.message == "Program updated successfully"
              && reply.value == Program(KeepOr(req.name, old(rows)[id].name), NewStatus(req.status, old(rows)[id].status))
              && rows == old(rows)[id := reply.value]
      ensures reply.Fail? ==> rows == old(rows)
    {
      if id !in rows {
        return Fail(404, "Program not found");
      }
      var existing := rows[id];
      if Present(req.name) && Trim(req.name.value) != existing.name {
        var name := Trim(req.name.value);
        if exists k :: k in rows && EqualsIgnoreCase(rows[k].name, name) {
          return Fail(409, "Program name already exists");
        }
      }
      existing := Program(KeepOr(req.name, existing.name), NewStatus(req.status, existing.status));
      ReplaceKeepsUnique(rows, id, existing);
      rows := rows[id := existing];
      reply := Done(200, "Program updated successfully", existing);
    }

    /** deleteProgramById: removes the program; bookings referring to it are not touched. */
    method Delete(id: Id) returns (reply: Reply<()>)
      requires Valid()
      modifies this
      ensures Valid()
      ensures nextId == old(nextId)
      ensures id !in old(rows) ==> reply == Fail(404, "Program not found") && rows == old(rows)
      ensures id in old(rows) ==> reply == Done(200, "Program deleted successfully", ()) && rows == old(rows) - {id}
    {
      if id !in rows {
        return Fail(404, "Program not found");
      }
      rows := rows - {id};
      reply := Done(200, "Program deleted successfully", ());
    }
  }
}
