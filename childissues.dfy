/** The child issues a contact refers to. The schema's text path is `issue` (required) next to an
    optional boolean `status`; the handlers read and write a `name` path the schema does not
    declare. `CreateAsWritten` and `UpdateAsWritten` model the handlers as written, where the
    schema's strict mode drops `name` on save and the option `strictQuery` decides what a lookup
    on `name` finds; the `ChildIssueTable` handlers model the evidently intended
    behaviour, storing the supplied name in `issue`. */
module ChildIssues {
  import opened Common

  datatype ChildIssue = ChildIssue(issue: string, status: bool)

  /** The body of the create and update handlers. */
  datatype IssueInput = IssueInput(name: Option<string>, status: Json)

  predicate IssueTaken(rows: map<Id, ChildIssue>, issue: string)
  {
    exists k :: k in rows && rows[k].issue == issue
  }

  predicate IssuesUnique(rows: map<Id, ChildIssue>)
  {
    forall a, b :: a in rows && b in rows && rows[a].issue == rows[b].issue ==> a == b
  }

  lemma ReplaceKeepsUnique(rows: map<Id, ChildIssue>, id: Id, c: ChildIssue)
    requires IssuesUnique(rows) && id in rows
    requires c.issue == rows[id].issue || !IssueTaken(rows, c.issue)
    ensures IssuesUnique(rows[id := c])
  {
  }

  /** `typeof status === 'boolean' ? status : fallback`. */
  function BooleanOr(v: Json, fallback: bool): (r: bool)
    ensures v.Bool? ==> r == v.b
    ensures !v.Bool? ==> r == fallback
  {
    if v.Bool? then v.b else fallback
  }

  predicate Listed(c: ChildIssue, filter: Option<bool>)
  {
    filter.None? || c.status == filter.value
  }

  /** A document as the schema casts it: only the declared paths survive. */
  datatype IssueDoc = IssueDoc(issue: Option<string>, status: Option<bool>)

  /** `new ChildIssue({ name, status })`: `name` is not a schema path, so strict mode drops it. */
  function CastAsWritten(name: string, status: bool): (d: IssueDoc)
    ensures d.issue.None? && d.status == Some(status)
  {
    IssueDoc(None, Some(status))
  }

  /** The schema's validation on save: `issue` is required, and a required String rejects "". */
  predicate Validates(d: IssueDoc)
  {
    d.issue.Some? && d.issue.value != ""
  }

  /** Whether `findOne({ name })` finds a document. `name` is not a schema path. With the
      Mongoose option `strictQuery` on (the default of Mongoose 6) the path is removed from the
      filter, which then matches any document; with it off (the default from Mongoose 7) the
      filter stays and matches no stored document, since none holds `name`. The project pins no
      Mongoose version, so the as-written handlers take the option as a parameter. */
  predicate LookupByNameFinds(rows: map<Id, ChildIssue>, strictQuery: bool)
  {
    strictQuery && rows != map[]
  }

  /** createChildIssue as written. The duplicate lookup filters on `name` (see
      `LookupByNameFinds`); the document to save has no `issue`, so validation fails and the
      catch block answers 500. */
  function CreateAsWritten(rows: map<Id, ChildIssue>, nextId: Id, strictQuery: bool, req: IssueInput): (r: Reply<Id>)
    ensures req.name.None? || Blank(req.name.value) ==> r == Fail(400, "Name is required")
    ensures !(req.name.None? || Blank(req.name.value)) && strictQuery && rows != map[]
            ==> r == Fail(409, "Child issue with this name already exists")
    ensures !(req.name.None? || Blank(req.name.value)) && !(strictQuery && rows != map[])
            ==> r == Fail(500, "Server error while creating child issue")
  {
    if req.name.None? || Blank(req.name.value) then Fail(400, "Name is required")
    else if LookupByNameFinds(rows, strictQuery) then Fail(409, "Child issue with this name already exists")
    else
      var doc := CastAsWritten(Trim(req.name.value), BooleanOr(req.status, true));
      if !Validates(doc) then Fail(500, "Server error while creating child issue")
      else Done(201, "Child issue created successfully", nextId)
  }

  /** As written, no child issue can ever be created, whichever `strictQuery` default applies: a
      well-formed name such as "Anxiety" on an empty collection is refused with 500. */
  lemma {:induction false} CreateAsWrittenNeverSucceeds(rows: map<Id, ChildIssue>, nextId: Id, strictQuery: bool,
                                                         req: IssueInput)
    ensures !CreateAsWritten(rows, nextId, strictQuery, req).Done?
    ensures CreateAsWritten(map[], 0, strictQuery, IssueInput(Some("Anxiety"), Undefined))
            == Fail(500, "Server error while creating child issue")
  {
    assert !Blank("Anxiety") by { assert !IsSpace("Anxiety"[0]); }
  }

  /** updateChildIssueById as written: `existingIssue.name` is not a schema path, so the
      comparison with it always differs and the duplicate lookup on `name` runs (see
      `LookupByNameFinds`; the collection holds at least this issue); when it passes, the
      assignment to `name` is dropped on save and only the status can change. */
  function UpdateAsWritten(rows: map<Id, ChildIssue>, id: Id, strictQuery: bool, req: IssueInput): (r: Reply<ChildIssue>)
    ensures id !in rows ==> r == Fail(404, "Child issue not found")
    ensures id in rows && Present(req.name) && strictQuery ==> r == Fail(409, "Child issue name already exists")
    ensures id in rows && !(Present(req.name) && strictQuery)
            ==> r == Done(200, "Child issue updated successfully",
                          ChildIssue(rows[id].issue, BooleanOr(req.status, rows[id].status)))
  {
    if id !in rows then Fail(404, "Child issue not found")
    else if Present(req.name) && LookupByNameFinds(rows, strictQuery) then
      Fail(409, "Child issue name already exists")
    else
      var existing := rows[id];
      Done(200, "Child issue updated successfully", existing.(status := BooleanOr(req.status, existing.status)))
  }

  /** As written, a rename is never stored: with `strictQuery` off it is acknowledged with 200
      and the text stays, with it on the lookup finds the issue itself and the rename is refused
      with 409. */
  lemma {:induction false} RenameAsWrittenIsLost(rows: map<Id, ChildIssue>, id: Id, strictQuery: bool, name: string)
    requires id in rows && !Blank(name) && Trim(name) != rows[id].issue
    ensures var r := UpdateAsWritten(rows, id, strictQuery, IssueInput(Some(name), Undefined));
            && (r.Done? ==> r.value.issue == rows[id].issue != Trim(name))
            && (strictQuery ==> r == Fail(409, "Child issue name already exists"))
            && (!strictQuery ==> r.Done?)
  {
  }

  class ChildIssueTable {
    var rows: map<Id, ChildIssue>
    var nextId: Id

    /** Ids are below the allocation counter, every issue text is non-empty, and no two child
        issues share a text. */
    ghost predicate Valid()
      reads this
    {
      && (forall k :: k in rows ==> k < nextId && rows[k].issue != "")
      && IssuesUnique(rows)
    }

    constructor ()
      ensures Valid() && rows == map[] && nextId == 0
    {
      rows := map[];
      nextId := 0;
    }

    /** createChildIssue as intended. Error precedence: 400 for a blank name, 409 for a child
        issue holding exactly the trimmed name; otherwise one new child issue, active unless a
        boolean status says otherwise. */
    method Create(req: IssueInput) returns (reply: Reply<Id>)
      requires Valid()
      modifies this
      ensures Valid()
      ensures req.name.None? || Blank(req.name.value) ==> reply == Fail(400, "Name is required")
      ensures !(req.name.None? || Blank(req.name.value)) && IssueTaken(old(rows), Trim(req.name.value))
              ==> reply == Fail(409, "Child issue with this name already exists")
      ensures reply.Done? <==> !(req.name.None? || Blank(req.name.value)) && !IssueTaken(old(rows), Trim(req.name.value))
      ensures reply.Done? ==>
              && reply.code == 201 && reply.message == "Child issue created successfully"
              && reply.value == old(nextId) && reply.value !in old(rows)
              && rows == old(rows)[reply.value := ChildIssue(Trim(req.name.value), BooleanOr(req.status, true))]
      ensures reply.Fail? ==> rows == old(rows) && nextId == old(nextId)
    {
      if req.name.None? || Blank(req.name.value) {
        return Fail(400, "Name is required");
      }
      var issue := Trim(req.name.value);
      if exists k :: k in rows && rows[k].issue == issue {
        return Fail(409, "Child issue with this name already exists");
      }
      var id := nextId;
      rows := rows[id := ChildIssue(issue, BooleanOr(req.status, true))];
      nextId := nextId + 1;
      reply := Done(201, "Child issue created successfully", id);
    }

    /** getAllChildIssues, without the regular-expression filters: the status filter selects on
        the flag, and `total` is the number returned (the reply lists them under the key `services`). */
    method List(status: Json) returns (issues: map<Id, ChildIssue>, total: nat)
      ensures total == |issues|
      ensures issues.Keys <= rows.Keys
      ensures forall k :: k in issues ==> issues[k] == rows[k]
      ensures forall k :: k in rows ==> (k in issues <==> Listed(rows[k], StatusFilter(status)))
    {
      var filter: Option<bool> := None;
      if status != Undefined && status != Str("") {
        filter := Some(status == Str("true") || status == Bool(true));
      }
      issues := map k | k in rows && Listed(rows[k], filter) :: rows[k];
      total := |issues|;
    }

    /** getChildIssueById. */
    method Get(id: Id) returns (reply: Reply<ChildIssue>)
      ensures reply.Done? <==> id in rows
      ensures id in rows ==> reply == Done(200, "Child issue fetched successfully", rows[id])
      ensures id !in rows ==> reply == Fail(404, "Child issue not found")
    {
      if id !in rows {
        return Fail(404, "Child issue not found");
      }
      reply := Done(200, "Child issue fetched successfully", rows[id]);
    }

    /** updateChildIssueById as intended. Error precedence: 404 for an unknown id, 409 when a
        supplied name trims to another child issue's text (its own text skips the check);
        otherwise a blank name keeps the old text and the status changes only for a boolean. */
    method Update(id: Id, req: IssueInput) returns (reply: Reply<ChildIssue>)
      requires Valid()
      modifies this
      ensures Valid()
      ensures nextId == old(nextId)
      ensures id !in old(rows) ==> reply == Fail(404, "Child issue not found")
      ensures id in old(rows) && Present(req.name) && Trim(req.name.value) != old(rows)[id].issue
              && IssueTaken(old(rows), Trim(req.name.value))
              ==> reply == Fail(409, "Child issue name already exists")
      ensures reply.Done? <==>
              id in old(rows) && !(Present(req.name) && Trim(req.name.value) != old(rows)[id].issue
                                   && IssueTaken(old(rows), Trim(req.name.value)))
      ensures reply.Done? ==>
              && id in old(rows) && reply.code == 200 && reply.message == "Child issue updated successfully"
              && reply.value == ChildIssue(KeepOr(req.name, old(rows)[id].issue), BooleanOr(req.status, old(rows)[id].status))
              && rows == old(rows)[id := reply.value]
      ensures reply.Fail? ==> rows == old(rows)
    {
      if id !in rows {
        return Fail(404, "Child issue not found");
      }
      var existing := rows[id];
      if Present(req.name) && Trim(req.name.value) != existing.issue {
        var issue := Trim(req.name.value);
        if exists k :: k in rows && rows[k].issue == issue {
          return Fail(409, "Child issue name already exists");
        }
      }
      existing := existing.(issue := KeepOr(req.name, existing.issue));
      existing := existing.(status := BooleanOr(req.status, existing.status));
      ReplaceKeepsUnique(rows, id, existing);
      rows := rows[id := existing];
      reply := Done(200, "Child issue updated successfully", existing);
    }

    /** deleteChildIssueById: removes the child issue; contacts referring to it are not touched. */
    method Delete(id: Id) returns (reply: Reply<()>)
      requires Valid()
      modifies this
      ensures Valid()
      ensures nextId == old(nextId)
      ensures id !in old(rows) ==> reply == Fail(404, "Child issue not found") && rows == old(rows)
      ensures id in old(rows) ==> reply == Done(200, "Child issue deleted successfully", ()) && rows == old(rows) - {id}
    {
      if id !in rows {
        return Fail(404, "Child issue not found");
      }
      rows := rows - {id};
      reply := Done(200, "Child issue deleted successfully", ());
    }
  }
}
