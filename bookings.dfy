/** Bookings: a contact (name, email, phone), references to a service and a program, a
    message and a free-text status, with create, get, update and delete handlers. Email and phone
    each carry a unique index; both references are required but may dangle once the service or
    program is deleted. */
module Bookings {
  import opened Common
  import opened Services
  import opened Programs

  datatype Booking = Booking(
    name: string,
    email: string,
    phone: string,
    serviceType: Id,
    programType: Id,
    message: string,
    status: string)

  /** The body of the create and update handlers. */
  datatype BookingInput = BookingInput(
    name: Option<string>,
    email: Option<string>,
    phone: Option<string>,
    serviceType: Option<Id>,
    programType: Option<Id>,
    message: Option<string>,
    status: Option<string>)

  /** A booking as the get handler returns it, with both references populated (`None` when dangling). */
  datatype BookingView = BookingView(booking: Booking, service: Option<Service>, program: Option<Program>)

  /** The create handler's first check: every field is truthy. */
  predicate AllGiven(req: BookingInput)
  {
    && Present(req.name) && Present(req.email) && Present(req.phone)
    && req.serviceType.Some? && req.programType.Some?
    && Present(req.message) && Present(req.status)
  }

  /** The record the create handler saves: every text field trimmed. */
  function NewBooking(req: BookingInput): Booking
    requires AllGiven(req)
  {
    Booking(Trim(req.name.value), Trim(req.email.value), Trim(req.phone.value),
            req.serviceType.value, req.programType.value,
            Trim(req.message.value), Trim(req.status.value))
  }

  /** The create handler's checks before the save: every field given, both references resolve,
      and neither the email nor the phone is held as sent. */
  predicate CreateChecksPass(rows: map<Id, Booking>, services: map<Id, Service>, programs: map<Id, Program>,
                             req: BookingInput)
  {
    && AllGiven(req) && req.serviceType.value in services && req.programType.value in programs
    && !EmailHeld(rows, req.email.value) && !PhoneHeld(rows, req.phone.value)
  }

  /** The update handler's checks before the save: the booking exists, supplied references
      resolve, and a changed email and a changed phone are not held as sent. */
  predicate UpdateChecksPass(rows: map<Id, Booking>, services: map<Id, Service>, programs: map<Id, Program>,
                             id: Id, req: BookingInput)
  {
    && id in rows
    && (req.serviceType.Some? ==> req.serviceType.value in services)
    && (req.programType.Some? ==> req.programType.value in programs)
    && !(Present(req.email) && req.email.value != rows[id].email && EmailHeld(rows, req.email.value))
    && !(Present(req.phone) && req.phone.value != rows[id].phone && PhoneHeld(rows, req.phone.value))
  }

  predicate EmailHeld(rows: map<Id, Booking>, email: string)
  {
    exists k :: k in rows && rows[k].email == email
  }

  predicate PhoneHeld(rows: map<Id, Booking>, phone: string)
  {
    exists k :: k in rows && rows[k].phone == phone
  }

  /** What the schema accepts when `b` is saved under `id`: the required strings non-empty, and
      no other booking with the same email or the same phone. */
  predicate Saveable(rows: map<Id, Booking>, id: Id, b: Booking)
  {
    && b.name != "" && b.email != "" && b.phone != "" && b.message != "" && b.status != ""
    && (forall k :: k in rows && k != id ==> rows[k].email != b.email && rows[k].phone != b.phone)
  }

  /** Ids are below the allocation counter, the required strings are non-empty, and email and
      phone are each unique. */
  ghost predicate Consistent(rows: map<Id, Booking>, nextId: Id)
  {
    && (forall k :: k in rows ==> k < nextId)
    && (forall k :: k in rows ==> rows[k].name != "" && rows[k].email != "" && rows[k].phone != ""
                                  && rows[k].message != "" && rows[k].status != "")
    && (forall a, b :: a in rows && b in rows && a != b ==> rows[a].email != rows[b].email)
    && (forall a, b :: a in rows && b in rows && a != b ==> rows[a].phone != rows[b].phone)
  }

  lemma SaveKeepsConsistent(rows: map<Id, Booking>, nextId: Id, id: Id, b: Booking)
    requires Consistent(rows, nextId) && id < nextId && Saveable(rows, id, b)
    ensures Consistent(rows[id := b], nextId)
  {
  }

  /** The update handler's record after its assignments: references replaced when supplied,
      text fields kept when absent, empty or whitespace-only and stored trimmed otherwise. */
  function PatchedBooking(b: Booking, req: BookingInput): (r: Booking)
    ensures r.serviceType == (if req.serviceType.Some? then req.serviceType.value else b.serviceType)
    ensures r.programType == (if req.programType.Some? then req.programType.value else b.programType)
    ensures r.name == KeepOr(req.name, b.name) && r.email == KeepOr(req.email, b.email)
    ensures r.phone == KeepOr(req.phone, b.phone) && r.message == KeepOr(req.message, b.message)
    ensures r.status == KeepOr(req.status, b.status)
  {
    Booking(
      KeepOr(req.name, b.name), KeepOr(req.email, b.email), KeepOr(req.phone, b.phone),
      if req.serviceType.Some? then req.serviceType.value else b.serviceType,
      if req.programType.Some? then req.programType.value else b.programType,
      KeepOr(req.message, b.message), KeepOr(req.status, b.status))
  }

  /** Saving an accepted record under the next free id keeps the collection consistent. */
  lemma AppendKeepsConsistent(rows: map<Id, Booking>, nextId: Id, b: Booking)
    requires Consistent(rows, nextId) && Saveable(rows, nextId, b)
    ensures Consistent(rows[nextId := b], nextId + 1)
  {
  }

  class BookingTable {
    var rows: map<Id, Booking>
    var nextId: Id

    ghost predicate Valid()
      reads this
    {
      Consistent(rows, nextId)
    }

    constructor ()
      ensures Valid() && rows == map[] && nextId == 0
    {
      rows := map[];
      nextId := 0;
    }

    /** createBooking. Error precedence: 400 unless every field is given, 404 for an unknown
        service, then 404 for an unknown program, 409 when a booking holds the email or the phone
        as sent, 500 when the store's validation rejects the trimmed record; otherwise one new
        booking with its text fields trimmed. */
    method Create(req: BookingInput, services: ServiceTable, programs: ProgramTable) returns (reply: Reply<Id>)
      requires Valid()
      modifies this
      ensures Valid()
      ensures !AllGiven(req) ==> reply == Fail(400, "All fields are required")
      ensures AllGiven(req) && req.serviceType.value !in services.rows
              ==> reply == Fail(404, "Invalid serviceType — Service not found")
      ensures AllGiven(req) && req.serviceType.value in services.rows && req.programType.value !in programs.rows
              ==> reply == Fail(404, "Invalid programType — Program not found")
      ensures AllGiven(req) && req.serviceType.value in services.rows && req.programType.value in programs.rows
              && (EmailHeld(old(rows), req.email.value) || PhoneHeld(old(rows), req.phone.value))
              ==> reply == Fail(409, "Booking with this email or phone already exists")
      ensures CreateChecksPass(old(rows), services.rows, programs.rows, req)
              && !Saveable(old(rows), old(nextId), NewBooking(req))
              ==> reply == Fail(500, "Server error while creating booking")
      ensures reply.Done? <==>
              CreateChecksPass(old(rows), services.rows, programs.rows, req) && Saveable(old(rows), old(nextId), NewBooking(req))
      ensures reply.Done? ==>
              && reply.code == 201 && reply.message == "Booking created successfully"
              && reply.value == old(nextId) && reply.value !in old(rows)
              && rows == old(rows)[reply.value := NewBooking(req)]
      ensures reply.Fail? ==> rows == old(rows) && nextId == old(nextId)
      ensures reply.Fail? ==> reply.code in {400, 404, 409, 500}
    {
      if !AllGiven(req) {
        return Fail(400, "All fields are required");
      }
      if req.serviceType.value !in services.rows {
        return Fail(404, "Invalid serviceType — Service not found");
      }
      if req.programType.value !in programs.rows {
        return Fail(404, "Invalid programType — Program not found");
      }
      if EmailHeld(rows, req.email.value) || PhoneHeld(rows, req.phone.value) {
        return Fail(409, "Booking with this email or phone already exists");
      }
      var booking := NewBooking(req);
      var id := nextId;
      if !Saveable(rows, id, booking) {
        return Fail(500, "Server error while creating booking");
      }
      AppendKeepsConsistent(rows, nextId, booking);
      rows := rows[id := booking];
      nextId := nextId + 1;
      reply := Done(201, "Booking created successfully", id);
    }

    /** getBookingById, with the service and the program populated. */
    method Get(id: Id, services: ServiceTable, programs: ProgramTable) returns (reply: Reply<BookingView>)
      ensures reply.Done? <==> id in rows
      ensures id !in rows ==> reply == Fail(404, "Booking not found")
      ensures id in rows ==>
              && reply.code == 200 && reply.message == "Booking fetched successfully"
              && reply.value.booking == rows[id]
              && (reply.value.service.Some? <==> rows[id].serviceType in services.rows)
              && (reply.value.service.Some? ==> reply.value.service.value == services.rows[rows[id].serviceType])
              && (reply.value.program.Some? <==> rows[id].programType in programs.rows)
              && (reply.value.program.Some? ==> reply.value.program.value == programs.rows[rows[id].programType])
    {
      if id !in rows {
        return Fail(404, "Booking not found");
      }
      var b := rows[id];
      var service: Option<Service> := None;
      if b.serviceType in services.rows {
        service := Some(services.rows[b.serviceType]);
      }
      var program: Option<Program> := None;
      if b.programType in programs.rows {
        program := Some(programs.rows[b.programType]);
      }
      reply := Done(200, "Booking fetched successfully", BookingView(b, service, program));
    }

    /** updateBookingById. Error precedence: 404 for an unknown id, 404 for a supplied service
        that does not exist, then for a supplied program, 409 when the email as sent differs from
        the stored one and a booking holds it, then the same for the phone, 500 when the store's
        validation rejects the record; otherwise the fields are assigned one by one. */
    method Update(id: Id, req: BookingInput, services: ServiceTable, programs: ProgramTable) returns (reply: Reply<Booking>)
      requires Valid()
      modifies this
      ensures Valid()
      ensures nextId == old(nextId)
      ensures id !in old(rows) ==> reply == Fail(404, "Booking not found")
      ensures id in old(rows) && req.serviceType.Some? && req.serviceType.value !in services.rows
              ==> reply == Fail(404, "Invalid serviceType — Service not found")
      ensures id in old(rows) && (req.serviceType.Some? ==> req.serviceType.value in services.rows)
              && req.programType.Some? && req.programType.value !in programs.rows
              ==> reply == Fail(404, "Invalid programType — Program not found")
      ensures reply.Fail? && reply.code == 409 ==>
              || (Present(req.email) && req.email.value != old(rows)[id].email && EmailHeld(old(rows), req.email.value))
              || (Present(req.phone) && req.phone.value != old(rows)[id].phone && PhoneHeld(old(rows), req.phone.value))
      ensures id in old(rows) && (req.serviceType.Some? ==> req.serviceType.value in services.rows)
              && (req.programType.Some? ==> req.programType.value in programs.rows)
              && Present(req.email) && req.email.value != old(rows)[id].email && EmailHeld(old(rows), req.email.value)
              ==> reply == Fail(409, "Email already in use by another booking")
      ensures id in old(rows) && (req.serviceType.Some? ==> req.serviceType.value in services.rows)
              && (req.programType.Some? ==> req.programType.value in programs.rows)
              && !(Present(req.email) && req.email.value != old(rows)[id].email && EmailHeld(old(rows), req.email.value))
              && Present(req.phone) && req.phone.value != old(rows)[id].phone && PhoneHeld(old(rows), req.phone.value)
              ==> reply == Fail(409, "Phone already in use by another booking")
      ensures UpdateChecksPass(old(rows), services.rows, programs.rows, id, req)
              && !Saveable(old(rows), id, PatchedBooking(old(rows)[id], req))
              ==> reply == Fail(500, "Server error while updating booking")
      ensures reply.Done? <==>
              UpdateChecksPass(old(rows), services.rows, programs.rows, id, req)
              && Saveable(old(rows), id, PatchedBooking(old(rows)[id], req))
      ensures reply.Done? ==>
              && reply == Done(200, "Booking updated successfully", PatchedBooking(old(rows)[id], req))
              && rows == old(rows)[id := reply.value]
      ensures reply.Fail? ==> rows == old(rows)
    {
      if id !in rows {
        return Fail(404, "Booking not found");
      }
      var booking := rows[id];
      if req.serviceType.Some? {
        if req.serviceType.value !in services.rows {
          return Fail(404, "Invalid serviceType — Service not found");
        }
        booking := booking.(serviceType := req.serviceType.value);
      }
      if req.programType.Some? {
        if req.programType.value !in programs.rows {
          return Fail(404, "Invalid programType — Program not found");
        }
        booking := booking.(programType := req.programType.value);
      }
      if Present(req.email) && req.email.value != booking.email && EmailHeld(rows, req.email.value) {
        return Fail(409, "Email already in use by another booking");
      }
      if Present(req.phone) && req.phone.value != booking.phone && PhoneHeld(rows, req.phone.value) {
        return Fail(409, "Phone already in use by another booking");
      }
      booking := booking.(name := KeepOr(req.name, booking.name));
      booking := booking.(email := KeepOr(req.email, booking.email));
      booking := booking.(phone := KeepOr(req.phone, booking.phone));
      booking := booking.(message := KeepOr(req.message, booking.message));
      booking := booking.(status := KeepOr(req.status, booking.status));
      if !Saveable(rows, id, booking) {
        return Fail(500, "Server error while updating booking");
      }
      SaveKeepsConsistent(rows, nextId, id, booking);
      rows := rows[id := booking];
      reply := Done(200, "Booking updated successfully", booking);
    }

    /** deleteBookingById. */
    method Delete(id: Id) returns (reply: Reply<()>)
      requires Valid()
      modifies this
      ensures Valid()
      ensures nextId == old(nextId)
      ensures id !in old(rows) ==> reply == Fail(404, "Booking not found") && rows == old(rows)
      ensures id in old(rows) ==> reply == Done(200, "Booking deleted successfully", ()) && rows == old(rows) - {id}
    {
      if id !in rows {
        return Fail(404, "Booking not found");
      }
      rows := rows - {id};
      reply := Done(200, "Booking deleted successfully", ());
    }
  }
}
