/** Suggestions: a name, an email (unique index) and a topic, with create, get, update and delete
    handlers. The duplicate pre-checks compare the email as sent while the record stores it
    trimmed, so an email differing from a stored one only by surrounding whitespace passes the
    pre-check and is refused by the unique index instead. */
module Suggestions {
  import opened Common

  datatype Suggestion = Suggestion(name: string, email: string, topic: string)

  /** The body of the create and update handlers. */
  datatype SuggestionInput = SuggestionInput(name: Option<string>, email: Option<string>, topic: Option<string>)

  predicate RequiredGiven(req: SuggestionInput)
  {
    Present(req.name) && Present(req.email) && Present(req.topic)
  }

  predicate EmailHeld(rows: map<Id, Suggestion>, email: string)
  {
    exists k :: k in rows && rows[k].email == email
  }

  /** What the schema accepts when `s` is saved under `id`: the three strings non-empty and no
      other suggestion with the same email. */
  predicate Saveable(rows: map<Id, Suggestion>, id: Id, s: Suggestion)
  {
    && s.name != "" && s.email != "" && s.topic != ""
    && (forall k :: k in rows && k != id ==> rows[k].email != s.email)
  }

  ghost predicate Consistent(rows: map<Id, Suggestion>, nextId: Id)
  {
    && (forall k :: k in rows ==> k < nextId && rows[k].name != "" && rows[k].email != "" && rows[k].topic != "")
    && (forall a, b :: a in rows && b in rows && a != b ==> rows[a].email != rows[b].email)
  }

  lemma SaveKeepsConsistent(rows: map<Id, Suggestion>, nextId: Id, id: Id, s: Suggestion)
    requires Consistent(rows, nextId) && id < nextId && Saveable(rows, id, s)
    ensures Consistent(rows[id := s], nextId)
  {
  }

  /** The update handler's record: each field kept when absent, empty or whitespace-only and
      stored trimmed otherwise. */
  function PatchedSuggestion(s: Suggestion, req: SuggestionInput): (r: Suggestion)
    ensures r.name == KeepOr(req.name, s.name)
    ensures r.email == KeepOr(req.email, s.email)
    ensures r.topic == KeepOr(req.topic, s.topic)
  {
    Suggestion(KeepOr(req.name, s.name), KeepOr(req.email, s.email), KeepOr(req.topic, s.topic))
  }

  class SuggestionTable {
    var rows: map<Id, Suggestion>
    var nextId: Id

    ghost predicate Valid()
      reads this
    {
      Consistent(rows, nextId)
    }

    constructor ()
      ensures Valid() && rows == map[] && nextId == 0
    {
      rows := map[];
      nextId := 0;
    }

    /** createSuggestion. Error precedence: 400 unless name, email and topic are given, 409 when a
        suggestion holds the email as sent, 500 when the store's validation rejects the trimmed
        record; otherwise one new suggestion with its fields trimmed. */
    method Create(req: SuggestionInput) returns (reply: Reply<Id>)
      requires Valid()
      modifies this
      ensures Valid()
      ensures !RequiredGiven(req) ==> reply == Fail(400, "All fields (name, email, topic) are required")
      ensures RequiredGiven(req) && EmailHeld(old(rows), req.email.value)
              ==> reply == Fail(409, "Email already exists for another suggestion")
      // the pre-check sees the email as sent, the unique index the trimmed one
      ensures RequiredGiven(req) && !EmailHeld(old(rows), req.email.value) && EmailHeld(old(rows), Trim(req.email.value))
              ==> reply == Fail(500, "Server error while creating suggestion")
      ensures RequiredGiven(req) && !EmailHeld(old(rows), req.email.value)
              && !Saveable(old(rows), old(nextId), Suggestion(Trim(req.name.value), Trim(req.email.value), Trim(req.topic.value)))
              ==> reply == Fail(500, "Server error while creating suggestion")
      ensures reply.Done? <==>
              && RequiredGiven(req) && !EmailHeld(old(rows), req.email.value)
              && Saveable(old(rows), old(nextId), Suggestion(Trim(req.name.value), Trim(req.email.value), Trim(req.topic.value)))
      ensures reply.Done? ==>
              && reply.code == 201 && reply.message == "Suggestion created successfully"
              && reply.value == old(nextId) && reply.value !in old(rows)
              && rows == old(rows)[reply.value := Suggestion(Trim(req.name.value), Trim(req.email.value), Trim(req.topic.value))]
      ensures reply.Fail? ==> rows == old(rows) && nextId == old(nextId)
    {
      if !RequiredGiven(req) {
        return Fail(400, "All fields (name, email, topic) are required");
      }
      if EmailHeld(rows, req.email.value) {
        return Fail(409, "Email already exists for another suggestion");
      }
      var suggestion := Suggestion(Trim(req.name.value), Trim(req.email.value), Trim(req.topic.value));
      var id := nextId;
      if !Saveable(rows, id, suggestion) {
        return Fail(500, "Server error while creating suggestion");
      }
      SaveKeepsConsistent(rows, nextId + 1, id, suggestion);
      rows := rows[id := suggestion];
      nextId := nextId + 1;
      reply := Done(201, "Suggestion created successfully", id);
    }

    /** getSuggestionById. */
    method Get(id: Id) returns (reply: Reply<Suggestion>)
      ensures reply.Done? <==> id in rows
      ensures id in rows ==> reply == Done(200, "Suggestion fetched successfully", rows[id])
      ensures id !in rows ==> reply == Fail(404, "Suggestion not found")
    {
      if id !in rows {
        return Fail(404, "Suggestion not found");
      }
      reply := Done(200, "Suggestion fetched successfully", rows[id]);
    }

    /** updateSuggestionById. Error precedence: 404 for an unknown id, 409 when the email as sent
        differs from the stored one and a suggestion holds it, 500 when the store's validation
        rejects the record; otherwise the fields are assigned one by one. */
    method Update(id: Id, req: SuggestionInput) returns (reply: Reply<Suggestion>)
      requires Valid()
      modifies this
      ensures Valid()
      ensures nextId == old(nextId)
      ensures id !in old(rows) ==> reply == Fail(404, "Suggestion not found")
      ensures id in old(rows) && Present(req.email) && req.email.value != old(rows)[id].email
              && EmailHeld(old(rows), req.email.value)
              ==> reply == Fail(409, "Email already in use by another suggestion")
      ensures id in old(rows) && !(Present(req.email) && req.email.value != old(rows)[id].email && EmailHeld(old(rows), req.email.value))
              && !Saveable(old(rows), id, PatchedSuggestion(old(rows)[id], req))
              ==> reply == Fail(500, "Server error while updating suggestion")
      ensures reply.Done? <==>
              && id in old(rows) && !(Present(req.email) && req.email.value != old(rows)[id].email && EmailHeld(old(rows), req.email.value))
              && Saveable(old(rows), id, PatchedSuggestion(old(rows)[id], req))
      ensures reply.Done? ==>
              && id in old(rows)
              && reply == Done(200, "Suggestion updated successfully", PatchedSuggestion(old(rows)[id], req))
              && rows == old(rows)[id := reply.value]
      ensures reply.Fail? ==> rows == old(rows)
    {
      if id !in rows {
        return Fail(404, "Suggestion not found");
      }
      var suggestion := rows[id];
      if Present(req.email) && req.email.value != suggestion.email && EmailHeld(rows, req.email.value) {
        return Fail(409, "Email already in use by another suggestion");
      }
      suggestion := suggestion.(name := KeepOr(req.name, suggestion.name));
      suggestion := suggestion.(email := KeepOr(req.email, suggestion.email));
      suggestion := suggestion.(topic := KeepOr(req.topic, suggestion.topic));
      if !Saveable(rows, id, suggestion) {
        return Fail(500, "Server error while updating suggestion");
      }
      SaveKeepsConsistent(rows, nextId, id, suggestion);
      rows := rows[id := suggestion];
      reply := Done(200, "Suggestion updated successfully", suggestion);
    }

    /** deleteSuggestionById. */
    method Delete(id: Id) returns (reply: Reply<()>)
      requires Valid()
      modifies this
      ensures Valid()
      ensures nextId == old(nextId)
      ensures id !in old(rows) ==> reply == Fail(404, "Suggestion not found") && rows == old(rows)
      ensures id in old(rows) ==> reply == Done(200, "Suggestion deleted successfully", ()) && rows == old(rows) - {id}
    {
      if id !in rows {
        return Fail(404, "Suggestion not found");
      }
      rows := rows - {id};
      reply := Done(200, "Suggestion deleted successfully", ());
    }
  }
}
