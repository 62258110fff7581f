/** The services a booking refers to: a name and an active flag, with create, list, get,
    update and delete handlers. Names are kept unique (exact match) by the handlers' pre-checks;
    the schema has no unique index. */
module Services {
  import opened Common

  datatype Service = Service(name: string, status: bool)

  /** The body of the create and update handlers. */
  datatype ServiceInput = ServiceInput(name: Option<string>, status: Json)

  predicate NameTaken(rows: map<Id, Service>, name: string)
  {
    exists k :: k in rows && rows[k].name == name
  }

  predicate NamesUnique(rows: map<Id, Service>)
  {
    forall a, b :: a in rows && b in rows && rows[a].name == rows[b].name ==> a == b
  }

  /** Replacing a record by one that keeps its name, or takes a name no record holds, keeps names unique. */
  lemma ReplaceKeepsUnique(rows: map<Id, Service>, id: Id, s: Service)
    requires NamesUnique(rows) && id in rows
    requires s.name == rows[id].name || !NameTaken(rows, s.name)
    ensures NamesUnique(rows[id := s])
  {
  }

  /** The records a list with this status filter returns. */
  predicate Listed(s: Service, filter: Option<bool>)
  {
    filter.None? || s.status == filter.value
  }

  class ServiceTable {
    var rows: map<Id, Service>
    var nextId: Id

    /** Ids are below the allocation counter, every name is non-empty, and no two services share a name. */
    ghost predicate Valid()
      reads this
    {
      && (forall k :: k in rows ==> k < nextId && rows[k].name != "")
      && NamesUnique(rows)
    }

    constructor ()
      ensures Valid() && rows == map[] && nextId == 0
    {
      rows := map[];
      nextId := 0;
    }

    /** createService. Error precedence: 400 for a blank name, 409 for a service holding exactly
        the trimmed name, 500 when the status (defaulted to true only when null or undefined) does
        not cast to a boolean; otherwise one new service. */
    method Create(req: ServiceInput) returns (reply: Reply<Id>)
      requires Valid()
      modifies this
      ensures Valid()
      ensures req.name.None? || Blank(req.name.value) ==> reply == Fail(400, "Service name is required")
      ensures !(req.name.None? || Blank(req.name.value)) && NameTaken(old(rows), Trim(req.name.value))
              ==> reply == Fail(409, "Service with this name already exists")
      ensures !(req.name.None? || Blank(req.name.value)) && !NameTaken(old(rows), Trim(req.name.value))
              && CastBoolean(Coalesce(req.status, Bool(true))).None?
              ==> reply == Fail(500, "Server error while creating service")
      ensures reply.Done? <==>
              && !(req.name.None? || Blank(req.name.value)) && !NameTaken(old(rows), Trim(req.name.value))
              && CastBoolean(Coalesce(req.status, Bool(true))).Some?
      ensures reply.Done? ==>
              && reply.code == 201 && reply.message == "Service created successfully"
              && reply.value == old(nextId) && reply.value !in old(rows)
              && rows == old(rows)[reply.value := Service(Trim(req.name.value), CastBoolean(Coalesce(req.status, Bool(true))).value)]
      ensures reply.Done? && Nullish(req.status) ==> rows[reply.value].status
      ensures reply.Done? && req.status == Bool(false) ==> !rows[reply.value].status
      ensures reply.Fail? ==> rows == old(rows) && nextId == old(nextId)
    {
      if req.name.None? || Blank(req.name.value) {
        return Fail(400, "Service name is required");
      }
      var name := Trim(req.name.value);
      if exists k :: k in rows && rows[k].name == name {
        return Fail(409, "Service with this name already exists");
      }
      var status := CastBoolean(Coalesce(req.status, Bool(true)));
      if status.None? {
        return Fail(500, "Server error while creating service");
      }
      var id := nextId;
      rows := rows[id := Service(name, status.value)];
      nextId := nextId + 1;
      reply := Done(201, "Service created successfully", id);
    }

    /** getAllServices, without the regular-expression filters on name: the status filter
        selects on the flag, and `total` is the number of services returned. */
    method List(status: Json) returns (services: map<Id, Service>, total: nat)
      ensures total == |services|
      ensures services.Keys <= rows.Keys
      ensures forall k :: k in services ==> services[k] == rows[k]
      ensures forall k :: k in rows ==> (k in services <==> Listed(rows[k], StatusFilter(status)))
    {
      var filter: Option<bool> := None;
      if status != Undefined && status != Str("") {
        filter := Some(status == Str("true") || status == Bool(true));
      }
      services := map k | k in rows && Listed(rows[k], filter) :: rows[k];
      total := |services|;
    }

    /** getServiceById. */
    method Get(id: Id) returns (reply: Reply<Service>)
      ensures reply.Done? <==> id in rows
      ensures id in rows ==> reply == Done(200, "Service fetched successfully", rows[id])
      ensures id !in rows ==> reply == Fail(404, "Service not found")
    {
      if id !in rows {
        return Fail(404, "Service not found");
      }
      reply := Done(200, "Service fetched successfully", rows[id]);
    }

    /** updateServiceById. Error precedence: 404 for an unknown id, 409 when a supplied name trims
        to another service's name (the service's own name skips the check); otherwise a blank name
        keeps the old one and the status changes only when a boolean is sent. */
    method Update(id: Id, req: ServiceInput) returns (reply: Reply<Service>)
      requires Valid()
      modifies this
      ensures Valid()
      ensures nextId == old(nextId)
      ensures id !in old(rows) ==> reply == Fail(404, "Service not found")
      ensures id in old(rows) && Present(req.name) && Trim(req.name.value) != old(rows)[id].name
              && NameTaken(old(rows), Trim(req.name.value))
              ==> reply == Fail(409, "Service name already exists")
      ensures reply.Done? <==>
              id in old(rows) && !(Present(req.name) && Trim(req.name.value) != old(rows)[id].name
                                   && NameTaken(old(rows), Trim(req.name.value)))
      ensures reply.Done? ==>
              && id in old(rows) && reply.code == 200 && reply.message == "Service updated successfully"
              && reply.value.name == KeepOr(req.name, old(rows)[id].name)
              && reply.value.status == (if req.status.Bool? then req.status.b else old(rows)[id].status)
              && rows == old(rows)[id := reply.value]
      ensures reply.Fail? ==> rows == old(rows)
    {
      if id !in rows {
        return Fail(404, "Service not found");
      }
      var existing := rows[id];
      if Present(req.name) && Trim(req.name.value) != existing.name {
        var name := Trim(req.name.value);
        if exists k :: k in rows && rows[k].name == name {
          return Fail(409, "Service name already exists");
        }
      }
      existing := existing.(name := KeepOr(req.name, existing.name));
      if req.status.Bool? {
        existing := existing.(status := req.status.b);
      }
      ReplaceKeepsUnique(rows, id, existing);
      rows := rows[id := existing];
      reply := Done(200, "Service updated successfully", existing);
    }

    /** deleteServiceById: removes the service; bookings referring to it are not touched. */
    method Delete(id: Id) returns (reply: Reply<()>)
      requires Valid()
      modifies this
      ensures Valid()
      ensures nextId == old(nextId)
      ensures id !in old(rows) ==> reply == Fail(404, "Service not found") && rows == old(rows)
      ensures id in old(rows) ==> reply == Done(200, "Service deleted successfully", ()) && rows == old(rows) - {id}
    {
      if id !in rows {
        return Fail(404, "Service not found");
      }
      rows := rows - {id};
      reply := Done(200, "Service deleted successfully", ());
    }
  }
}
