/** Contact requests: name, phone, email, a reference to a child issue, an optional message and
    the website the request came from (0 for DeepConnection, 1 for Kiddicove), with create, get,
    update and delete handlers. Phone and email each carry a unique index of their own, which is
    stricter than the create handler's joint email-and-phone pre-check. */
module Contacts {
  import opened Common
  import opened ChildIssues

  datatype Contact = Contact(
    name: string,
    phone: string,
    email: string,
    childIssue: Id,
    message: string,
    website: int)

  /** The body of the create and update handlers. */
  datatype ContactInput = ContactInput(
    name: Option<string>,
    phone: Option<string>,
    email: Option<string>,
    childIssue: Option<Id>,
    message: Option<string>,
    website: Json)

  /** A contact as the get handler returns it, with the child issue populated (`None` when dangling). */
  datatype ContactView = ContactView(contact: Contact, childIssue: Option<ChildIssue>)

  /** The create handler's first check: name, phone, email, child issue and message are truthy. */
  predicate RequiredGiven(req: ContactInput)
  {
    Present(req.name) && Present(req.phone) && Present(req.email) && req.childIssue.Some? && Present(req.message)
  }

  /** `findOne({ email, phone })`: one contact holds both values as sent. */
  predicate PairHeld(rows: map<Id, Contact>, email: string, phone: string)
  {
    exists k :: k in rows && rows[k].email == email && rows[k].phone == phone
  }

  /** `website ?? 0`, cast by the Number schema path; `None` is a cast error. */
  function WebsiteOf(v: Json): (r: Option<int>)
    ensures Nullish(v) ==> r == Some(0)
    ensures v.Num? ==> r == Some(v.n)
  {
    CastNumber(Coalesce(v, Num(0)))
  }

  /** The create handler's record: name, email and message trimmed, the phone as sent. */
  function NewContact(req: ContactInput, website: int): Contact
    requires RequiredGiven(req)
  {
    Contact(Trim(req.name.value), req.phone.value, Trim(req.email.value), req.childIssue.value,
            Trim(req.message.value), website)
  }

  /** The create handler's checks before the save: the required fields given, the child issue
      resolves, and no contact holds both the email and the phone as sent. */
  predicate CreateChecksPass(rows: map<Id, Contact>, issues: map<Id, ChildIssue>, req: ContactInput)
  {
    RequiredGiven(req) && req.childIssue.value in issues && !PairHeld(rows, req.email.value, req.phone.value)
  }

  /** What the schema accepts when `c` is saved under `id`: non-empty name, phone and email, and no
      other contact with the same phone or the same email. */
  predicate Saveable(rows: map<Id, Contact>, id: Id, c: Contact)
  {
    && c.name != "" && c.phone != "" && c.email != ""
    && (forall k :: k in rows && k != id ==> rows[k].phone != c.phone && rows[k].email != c.email)
  }

  ghost predicate Consistent(rows: map<Id, Contact>, nextId: Id)
  {
    && (forall k :: k in rows ==> k < nextId)
    && (forall k :: k in rows ==> rows[k].name != "" && rows[k].phone != "" && rows[k].email != "")
    && (forall a, b :: a in rows && b in rows && a != b ==> rows[a].phone != rows[b].phone)
    && (forall a, b :: a in rows && b in rows && a != b ==> rows[a].email != rows[b].email)
  }

  lemma SaveKeepsConsistent(rows: map<Id, Contact>, nextId: Id, id: Id, c: Contact)
    requires Consistent(rows, nextId) && id < nextId && Saveable(rows, id, c)
    ensures Consistent(rows[id := c], nextId)
  {
  }

  /** The update handler's record: the child issue replaced when supplied, name, email and
      message kept when blank and stored trimmed otherwise, the phone kept when falsy and stored
      as sent otherwise, and the website replaced only by a number. */
  function PatchedContact(c: Contact, req: ContactInput): (r: Contact)
    ensures r.childIssue == (if req.childIssue.Some? then req.childIssue.value else c.childIssue)
    ensures r.name == KeepOr(req.name, c.name) && r.email == KeepOr(req.email, c.email)
    ensures r.message == KeepOr(req.message, c.message)
    ensures r.phone == (if Present(req.phone) then req.phone.value else c.phone)
    ensures r.website == (if req.website.Num? then req.website.n else c.website)
  {
    Contact(
      KeepOr(req.name, c.name),
      if Present(req.phone) then req.phone.value else c.phone,
      KeepOr(req.email, c.email),
      if req.childIssue.Some? then req.childIssue.value else c.childIssue,
      KeepOr(req.message, c.message),
      if req.website.Num? then req.website.n else c.website)
  }

  class ContactTable {
    var rows: map<Id, Contact>
    var nextId: Id

    ghost predicate Valid()
      reads this
    {
      Consistent(rows, nextId)
    }

    constructor ()
      ensures Valid() && rows == map[] && nextId == 0
    {
      rows := map[];
      nextId := 0;
    }

    /** createContact. Error precedence: 400 unless name, phone, email, child issue and message
        are given, 404 for an unknown child issue, 409 when one contact holds both the email and
        the phone as sent, 500 when the website does not cast or the store's validation rejects the
        record; otherwise one new contact, phone stored as sent and the other texts trimmed. */
    method Create(req: ContactInput, issues: ChildIssueTable) returns (reply: Reply<Id>)
      requires Valid()
      modifies this
      ensures Valid()
      ensures !RequiredGiven(req)
              ==> reply == Fail(400, "All required fields (name, phone, email, childIssue, message) must be provided")
      ensures RequiredGiven(req) && req.childIssue.value !in issues.rows
              ==> reply == Fail(404, "Invalid childIssue — no matching record found")
      ensures reply.Fail? && reply.code == 409 <==>
              RequiredGiven(req) && req.childIssue.value in issues.rows
              && PairHeld(old(rows), req.email.value, req.phone.value)
      ensures reply.Fail? && reply.code == 409 ==> reply.message == "A contact with this email and phone already exists"
      // the separate unique indexes on email and on phone reject what the joint pre-check let through
      ensures CreateChecksPass(old(rows), issues.rows, req)
              && (WebsiteOf(req.website).None?
                  || !Saveable(old(rows), old(nextId), NewContact(req, WebsiteOf(req.website).value)))
              ==> reply == Fail(500, "Server error while creating contact")
      ensures reply.Done? <==>
              && CreateChecksPass(old(rows), issues.rows, req) && WebsiteOf(req.website).Some?
              && Saveable(old(rows), old(nextId), NewContact(req, WebsiteOf(req.website).value))
      ensures reply.Done? ==>
              && reply.code == 201 && reply.message == "Contact created successfully"
              && reply.value == old(nextId) && reply.value !in old(rows)
              && rows == old(rows)[reply.value := NewContact(req, WebsiteOf(req.website).value)]
      ensures reply.Fail? ==> rows == old(rows) && nextId == old(nextId)
    {
      if !RequiredGiven(req) {
        return Fail(400, "All required fields (name, phone, email, childIssue, message) must be provided");
      }
      if req.childIssue.value !in issues.rows {
        return Fail(404, "Invalid childIssue — no matching record found");
      }
      if PairHeld(rows, req.email.value, req.phone.value) {
        return Fail(409, "A contact with this email and phone already exists");
      }
      var website := WebsiteOf(req.website);
      if website.None? {
        return Fail(500, "Server error while creating contact");
      }
      var contact := NewContact(req, website.value);
      var id := nextId;
      if !Saveable(rows, id, contact) {
        return Fail(500, "Server error while creating contact");
      }
      SaveKeepsConsistent(rows, nextId + 1, id, contact);
      rows := rows[id := contact];
      nextId := nextId + 1;
      reply := Done(201, "Contact created successfully", id);
    }

    /** getContactById, with the child issue populated. */
    method Get(id: Id, issues: ChildIssueTable) returns (reply: Reply<ContactView>)
      ensures reply.Done? <==> id in rows
      ensures id !in rows ==> reply == Fail(404, "Contact not found")
      ensures id in rows ==>
              && reply.code == 200 && reply.message == "Contact fetched successfully"
              && reply.value.contact == rows[id]
              && (reply.value.childIssue.Some? <==> rows[id].childIssue in issues.rows)
              && (reply.value.childIssue.Some? ==> reply.value.childIssue.value == issues.rows[rows[id].childIssue])
    {
      if id !in rows {
        return Fail(404, "Contact not found");
      }
      var c := rows[id];
      var issue: Option<ChildIssue> := None;
      if c.childIssue in issues.rows {
        issue := Some(issues.rows[c.childIssue]);
      }
      reply := Done(200, "Contact fetched successfully", ContactView(c, issue));
    }

    /** updateContactById. Error precedence: 404 for an unknown id, 404 for a supplied child issue
        that does not exist, 500 when the store's validation rejects the record (there is no
        duplicate pre-check); otherwise the fields are assigned one by one. */
    method Update(id: Id, req: ContactInput, issues: ChildIssueTable) returns (reply: Reply<Contact>)
      requires Valid()
      modifies this
      ensures Valid()
      ensures nextId == old(nextId)
      ensures id !in old(rows) ==> reply == Fail(404, "Contact not found")
      ensures id in old(rows) && req.childIssue.Some? && req.childIssue.value !in issues.rows
              ==> reply == Fail(404, "Invalid childIssue — no matching record found")
      ensures reply.Fail? ==> reply.code in {404, 500}
      ensures id in old(rows) && (req.childIssue.Some? ==> req.childIssue.value in issues.rows)
              && !Saveable(old(rows), id, PatchedContact(old(rows)[id], req))
              ==> reply == Fail(500, "Server error while updating contact")
      ensures reply.Done? <==>
              && id in old(rows) && (req.childIssue.Some? ==> req.childIssue.value in issues.rows)
              && Saveable(old(rows), id, PatchedContact(old(rows)[id], req))
      ensures reply.Done? ==>
              && id in old(rows)
              && reply == Done(200, "Contact updated successfully", PatchedContact(old(rows)[id], req))
              && rows == old(rows)[id := reply.value]
      ensures reply.Fail? ==> rows == old(rows)
    {
      if id !in rows {
        return Fail(404, "Contact not found");
      }
      if req.childIssue.Some? && req.childIssue.value !in issues.rows {
        return Fail(404, "Invalid childIssue — no matching record found");
      }
      var contact := PatchedContact(rows[id], req);
      if !Saveable(rows, id, contact) {
        return Fail(500, "Server error while updating contact");
      }
      SaveKeepsConsistent(rows, nextId, id, contact);
      rows := rows[id := contact];
      reply := Done(200, "Contact updated successfully", contact);
    }

    /** deleteContactById. */
    method Delete(id: Id) returns (reply: Reply<()>)
      requires Valid()
      modifies this
      ensures Valid()
      ensures nextId == old(nextId)
      ensures id !in old(rows) ==> reply == Fail(404, "Contact not found") && rows == old(rows)
      ensures id in old(rows) ==> reply == Done(200, "Contact deleted successfully", ()) && rows == old(rows) - {id}
    {
      if id !in rows {
        return Fail(404, "Contact not found");
      }
      rows := rows - {id};
      reply := Done(200, "Contact deleted successfully", ());
    }
  }
}
