/** The request handlers of the HTTP API, each as a function from the store
    and the already-decoded request parts to a response (and, for the
    mutating routes, the new store). HTTP is reduced to a status and a
    payload; `parseInt` of a path parameter arrives as an `Option<int>`
    (`None` for NaN); the random draw and the clock arrive as parameters. */
module Routes {
  import opened Options
  import opened Schema
  import opened Tables
  import Storage
  import Reference

  datatype Status = Ok | Created | NoContent | BadRequest | Unauthorized | NotFound

  /** The numeric HTTP status. */
  function Code(s: Status): (c: int)
    ensures 200 <= c < 500
    ensures s.Ok? || s.Created? || s.NoContent? <==> c < 300
  {
    match s
    case Ok => 200
    case Created => 201
    case NoContent => 204
    case BadRequest => 400
    case Unauthorized => 401
    case NotFound => 404
  }

  /** A user as the auth routes send it back: every property but
      `password`. */
  datatype PublicUser = PublicUser(
    id: int,
    username: string,
    email: string,
    fullName: string,
    isOrganizer: Option<bool>)

  function Public(u: User): PublicUser {
    PublicUser(u.id, u.username, u.email, u.fullName, u.isOrganizer)
  }

  /** Stripping the password loses exactly the password: two users look the
      same in a response iff they differ at most in `password`. */
  lemma PublicOmitsOnlyPassword(u: User, v: User)
    ensures Public(u) == Public(v) <==> u == v.(password := u.password)
  {
  }

  datatype Payload =
    | Message(text: string)
    | UserData(user: PublicUser)
    | EventData(event: Event)
    | EventList(events: seq<Event>)
    | TicketTypeData(ticketType: TicketType)
    | TicketTypeList(ticketTypes: seq<TicketType>)
    | PerformerData(performer: Performer)
    | PerformerList(performers: seq<Performer>)
    | TicketData(ticket: Ticket)
    | TicketList(tickets: seq<Ticket>)
    | NoBody

  datatype Response = Response(status: Status, body: Payload)

  function Fail(status: Status, text: string): Response {
    Response(status, Message(text))
  }

  // ---------------------------------------------------------------------
  // Auth

  /** POST /api/auth/register: validate, refuse a taken username, then a
      taken email, and only then create the user. */
  function Register(s: Storage.Store, b: UserBody): (r: (Storage.Store, Response))
    ensures ParseUser(b).None? ==> r == (s, Fail(BadRequest, "Invalid user data"))
    ensures r.1.status == Created <==>
      && ParseUser(b).Some?
      && (forall i :: 0 <= i < |s.users| ==> s.users[i].val.username != ParseUser(b).value.username)
      && (forall i :: 0 <= i < |s.users| ==> s.users[i].val.email != ParseUser(b).value.email)
    ensures r.1.status != Created ==> r.0 == s && r.1.status == BadRequest
    ensures (&& ParseUser(b).Some?
             && exists i :: 0 <= i < |s.users| && s.users[i].val.username == ParseUser(b).value.username)
        ==> r.1 == Fail(BadRequest, "Username already taken")
    ensures r.1.status == Created ==>
      var u := UserOf(ParseUser(b).value, s.userIdCounter);
      && r.1.body == UserData(Public(u))
      && r.0 == Storage.CreateUser(s, ParseUser(b).value).0
      && (Storage.Valid(s) ==> r.0.users == s.users + [Row(u.id, u)])
  {
    match ParseUser(b)
    case None => (s, Fail(BadRequest, "Invalid user data"))
    case Some(u) =>
      if Storage.GetUserByUsername(s, u.username).Some? then
        (s, Fail(BadRequest, "Username already taken"))
      else if Storage.GetUserByEmail(s, u.email).Some? then
        (s, Fail(BadRequest, "Email already in use"))
      else
        var (s', user) := Storage.CreateUser(s, u);
        (s', Response(Created, UserData(Public(user))))
  }

  /** POST /api/auth/login: both fields must be truthy; the FIRST user with
      that username must have exactly that password. */
  function Login(s: Storage.Store, username: Option<string>, password: Option<string>): (r: Response)
    ensures r.status == BadRequest <==> !Truthy(username) || !Truthy(password)
    ensures r.status == Ok ==>
      && (exists i :: 0 <= i < |s.users| && s.users[i].val.username == username.value
                                          && s.users[i].val.password == password.value)
      && r.body.UserData? && r.body.user.username == username.value
    ensures r.status == Ok || r.status == BadRequest || r.status == Unauthorized
    ensures (&& Truthy(username) && Truthy(password)
             && forall i :: 0 <= i < |s.users| ==> s.users[i].val.username != username.value)
        ==> r == Fail(Unauthorized, "Invalid credentials")
    ensures Truthy(username) && Truthy(password) ==>
      (r.status == Ok <==>
         var found := Storage.GetUserByUsername(s, username.value);
         found.Some? && found.value.password == password.value)
    ensures r.status == Ok ==> r.body == UserData(Public(Storage.GetUserByUsername(s, username.value).value))
  {
    if !Truthy(username) || !Truthy(password) then
      Fail(BadRequest, "Username and password are required")
    else
      match Storage.GetUserByUsername(s, username.value)
      case None => Fail(Unauthorized, "Invalid credentials")
      case Some(user) =>
        if user.password != password.value then Fail(Unauthorized, "Invalid credentials")
        else
          assert user in Values(s.users);
          Response(Ok, UserData(Public(user)))
  }

  // ---------------------------------------------------------------------
  // Events

  function ListEvents(s: Storage.Store): (r: Response)
    ensures r.status == Ok && r.body.EventList?
    ensures r.body.events == Values(s.events)
    ensures forall e :: e in r.body.events <==> exists i :: 0 <= i < |s.events| && s.events[i].val == e
  {
    Response(Ok, EventList(Storage.GetEvents(s)))
  }

  function ListFeaturedEvents(s: Storage.Store): (r: Response)
    ensures r.status == Ok && r.body.EventList?
    ensures r.body.events == Storage.GetFeaturedEvents(s)
    ensures forall e :: e in r.body.events <==> e in Storage.GetEvents(s) && e.featured == Some(true)
  {
    Response(Ok, EventList(Storage.GetFeaturedEvents(s)))
  }

  /** GET /api/events/:id. */
  function ShowEvent(s: Storage.Store, id: Option<int>): (r: Response)
    ensures r.status == BadRequest <==> id.None?
    ensures r.status == NotFound <==> id.Some? && id.value !in Keys(s.events)
    ensures r.status == Ok <==> id.Some? && id.value in Keys(s.events)
    ensures r.status == Ok ==> r.body.EventData? && Row(id.value, r.body.event) in s.events
  {
    if id.None? then Fail(BadRequest, "Invalid event ID")
    else
      match Storage.GetEvent(s, id.value)
      case None => Fail(NotFound, "Event not found")
      case Some(event) => Response(Ok, EventData(event))
  }

  /** POST /api/events. */
  function PostEvent(s: Storage.Store, b: EventBody): (r: (Storage.Store, Response))
    ensures r.1.status == Created <==> ParseEvent(b).Some?
    ensures ParseEvent(b).None? ==> r == (s, Fail(BadRequest, "Invalid event data"))
    ensures ParseEvent(b).Some? ==>
      var e := EventOf(ParseEvent(b).value, s.eventIdCounter);
      && r.1.body == EventData(e)
      && r.0 == Storage.CreateEvent(s, ParseEvent(b).value).0
      && (Storage.Valid(s) ==> r.0.events == s.events + [Row(e.id, e)])
  {
    match ParseEvent(b)
    case None => (s, Fail(BadRequest, "Invalid event data"))
    case Some(e) =>
      var (s', event) := Storage.CreateEvent(s, e);
      (s', Response(Created, EventData(event)))
  }

  /** PUT /api/events/:id as written: the body goes to the store without
      validation, `id` property included. */
  function PutEventAsWritten(s: Storage.Store, id: Option<int>, patch: EventPatch): (r: (Storage.Store, Response))
    ensures r.1.status == BadRequest <==> id.None?
    ensures r.1.status == NotFound <==> id.Some? && id.value !in Keys(s.events)
    ensures r.1.status == Ok <==> id.Some? && id.value in Keys(s.events)
    ensures r.1.status != Ok ==> r.0 == s
    ensures r.1.status == Ok ==>
      && r.1.body == EventData(MergeEvent(Storage.GetEvent(s, id.value).value, patch))
      && r.0 == Storage.UpdateEvent(s, id.value, patch).0
      && Storage.GetEvent(r.0, id.value) == Some(r.1.body.event)
  {
    if id.None? then (s, Fail(BadRequest, "Invalid event ID"))
    else
      var (s', updated) := Storage.UpdateEvent(s, id.value, patch);
      match updated
      case None => (s, Fail(NotFound, "Event not found"))
      case Some(event) => (s', Response(Ok, EventData(event)))
  }

  /** PUT /api/events/:id with the body's `id` property dropped, so a record
      always keeps the id it is stored under. */
  function PutEvent(s: Storage.Store, id: Option<int>, patch: EventPatch): (r: (Storage.Store, Response))
    ensures r.1.status == BadRequest <==> id.None?
    ensures r.1.status == NotFound <==> id.Some? && id.value !in Keys(s.events)
    ensures r.1.status != Ok ==> r.0 == s
    ensures r.1.status == Ok <==> id.Some? && id.value in Keys(s.events)
    ensures r.1.status == Ok ==>
      && r.1.body == EventData(MergeEvent(Storage.GetEvent(s, id.value).value, patch.(id := None)))
      && Storage.GetEvent(r.0, id.value) == Some(r.1.body.event)
      && r.1.body.event.id == Storage.GetEvent(s, id.value).value.id
    ensures forall k :: id.Some? && k != id.value ==> Storage.GetEvent(r.0, k) == Storage.GetEvent(s, k)
    ensures Storage.Valid(s) ==> Storage.Valid(r.0)
    ensures Storage.Valid(s) && Storage.IdsMatchKeys(s) ==> Storage.IdsMatchKeys(r.0)
  {
    PutEventAsWritten(s, id, patch.(id := None))
  }

  /** DELETE /api/events/:id. */
  function DeleteEvent(s: Storage.Store, id: Option<int>): (r: (Storage.Store, Response))
    ensures r.1.status == BadRequest <==> id.None?
    ensures r.1.status == NotFound <==> id.Some? && id.value !in Keys(s.events)
    ensures r.1.status == NoContent <==> id.Some? && id.value in Keys(s.events)
    ensures r.1.status == NoContent ==> r.1.body == NoBody && Keys(r.0.events) == Keys(s.events) - {id.value}
    ensures r.1.status != NoContent ==> r.0 == s
    ensures forall k :: id.Some? && k != id.value ==> Storage.GetEvent(r.0, k) == Storage.GetEvent(s, k)
    ensures r.0 == s.(events := r.0.events)
  {
    if id.None? then (s, Fail(BadRequest, "Invalid event ID"))
    else
      var (s', deleted) := Storage.DeleteEvent(s, id.value);
      if !deleted then (s, Fail(NotFound, "Event not found"))
      else (s', Response(NoContent, NoBody))
  }

  function ListOrganizerEvents(s: Storage.Store, organizerId: Option<int>): (r: Response)
    ensures r.status == BadRequest <==> organizerId.None?
    ensures r.status != BadRequest ==> r.status == Ok && r.body.EventList?
    ensures r.status != BadRequest ==> r.body.events == Storage.GetEventsByOrganizer(s, organizerId.value)
    ensures r.status != BadRequest ==>
      forall e :: e in r.body.events <==> e in Storage.GetEvents(s) && e.organizedById == organizerId.value
  {
    if organizerId.None? then Fail(BadRequest, "Invalid organizer ID")
    else Response(Ok, EventList(Storage.GetEventsByOrganizer(s, organizerId.value)))
  }

  // ---------------------------------------------------------------------
  // Ticket types and performers

  function ListTicketTypes(s: Storage.Store, eventId: Option<int>): (r: Response)
    ensures r.status == BadRequest <==> eventId.None?
    ensures r.status != BadRequest ==> r.status == Ok && r.body.TicketTypeList?
    ensures r.status != BadRequest ==> r.body.ticketTypes == Storage.GetTicketTypesByEvent(s, eventId.value)
    ensures r.status != BadRequest ==>
      forall t :: t in r.body.ticketTypes <==> t in Values(s.ticketTypes) && t.eventId == eventId.value
  {
    if eventId.None? then Fail(BadRequest, "Invalid event ID")
    else Response(Ok, TicketTypeList(Storage.GetTicketTypesByEvent(s, eventId.value)))
  }

  function PostTicketType(s: Storage.Store, b: TicketTypeBody): (r: (Storage.Store, Response))
    ensures r.1.status == Created <==> ParseTicketType(b).Some?
    ensures ParseTicketType(b).None? ==> r == (s, Fail(BadRequest, "Invalid ticket type data"))
    ensures ParseTicketType(b).Some? ==>
      var t := TicketTypeOf(ParseTicketType(b).value, s.ticketTypeIdCounter);
      && r.1.body == TicketTypeData(t)
      && r.0 == Storage.CreateTicketType(s, ParseTicketType(b).value).0
      && (Storage.Valid(s) ==> r.0.ticketTypes == s.ticketTypes + [Row(t.id, t)])
  {
    match ParseTicketType(b)
    case None => (s, Fail(BadRequest, "Invalid ticket type data"))
    case Some(t) =>
      var (s', ticketType) := Storage.CreateTicketType(s, t);
      (s', Response(Created, TicketTypeData(ticketType)))
  }

  /** PUT /api/ticket-types/:id as written (unvalidated body). */
  function PutTicketTypeAsWritten(s: Storage.Store, id: Option<int>, patch: TicketTypePatch): (r: (Storage.Store, Response))
    ensures r.1.status == BadRequest <==> id.None?
    ensures r.1.status == NotFound <==> id.Some? && id.value !in Keys(s.ticketTypes)
    ensures r.1.status == Ok <==> id.Some? && id.value in Keys(s.ticketTypes)
    ensures r.1.status != Ok ==> r.0 == s
    ensures r.1.status == Ok ==>
      && r.1.body == TicketTypeData(MergeTicketType(Storage.GetTicketType(s, id.value).value, patch))
      && r.0 == Storage.UpdateTicketType(s, id.value, patch).0
  {
    if id.None? then (s, Fail(BadRequest, "Invalid ticket type ID"))
    else
      var (s', updated) := Storage.UpdateTicketType(s, id.value, patch);
      match updated
      case None => (s, Fail(NotFound, "Ticket type not found"))
      case Some(ticketType) => (s', Response(Ok, TicketTypeData(ticketType)))
  }

  /** PUT /api/ticket-types/:id with the body's `id` property dropped. */
  function PutTicketType(s: Storage.Store, id: Option<int>, patch: TicketTypePatch): (r: (Storage.Store, Response))
    ensures r.1.status == BadRequest <==> id.None?
    ensures r.1.status == NotFound <==> id.Some? && id.value !in Keys(s.ticketTypes)
    ensures r.1.status != Ok ==> r.0 == s
    ensures r.1.status == Ok <==> id.Some? && id.value in Keys(s.ticketTypes)
    ensures r.1.status == Ok ==>
      && r.1.body == TicketTypeData(MergeTicketType(Storage.GetTicketType(s, id.value).value, patch.(id := None)))
      && Storage.GetTicketType(r.0, id.value) == Some(r.1.body.ticketType)
      && r.1.body.ticketType.id == Storage.GetTicketType(s, id.value).value.id
    ensures forall k :: id.Some? && k != id.value ==> Storage.GetTicketType(r.0, k) == Storage.GetTicketType(s, k)
    ensures Storage.Valid(s) ==> Storage.Valid(r.0)
    ensures Storage.Valid(s) && Storage.IdsMatchKeys(s) ==> Storage.IdsMatchKeys(r.0)
  {
    PutTicketTypeAsWritten(s, id, patch.(id := None))
  }

  function ListPerformers(s: Storage.Store, eventId: Option<int>): (r: Response)
    ensures r.status == BadRequest <==> eventId.None?
    ensures r.status != BadRequest ==> r.status == Ok && r.body.PerformerList?
    ensures r.status != BadRequest ==> r.body.performers == Storage.GetPerformersByEvent(s, eventId.value)
    ensures r.status != BadRequest ==>
      forall p :: p in r.body.performers <==> p in Values(s.performers) && p.eventId == eventId.value
  {
    if eventId.None? then Fail(BadRequest, "Invalid event ID")
    else Response(Ok, PerformerList(Storage.GetPerformersByEvent(s, eventId.value)))
  }

  function PostPerformer(s: Storage.Store, b: PerformerBody): (r: (Storage.Store, Response))
    ensures r.1.status == Created <==> ParsePerformer(b).Some?
    ensures ParsePerformer(b).None? ==> r == (s, Fail(BadRequest, "Invalid performer data"))
    ensures ParsePerformer(b).Some? ==>
      var p := PerformerOf(ParsePerformer(b).value, s.performerIdCounter);
      && r.1.body == PerformerData(p)
      && r.0 == Storage.CreatePerformer(s, ParsePerformer(b).value).0
      && (Storage.Valid(s) ==> r.0.performers == s.performers + [Row(p.id, p)])
  {
    match ParsePerformer(b)
    case None => (s, Fail(BadRequest, "Invalid performer data"))
    case Some(p) =>
      var (s', performer) := Storage.CreatePerformer(s, p);
      (s', Response(Created, PerformerData(performer)))
  }

  // ---------------------------------------------------------------------
  // Tickets

  function ListUserTickets(s: Storage.Store, userId: Option<int>): (r: Response)
    ensures r.status == BadRequest <==> userId.None?
    ensures r.status != BadRequest ==> r.status == Ok && r.body.TicketList?
    ensures r.status != BadRequest ==> r.body.tickets == Storage.GetTicketsByUser(s, userId.value)
    ensures r.status != BadRequest ==>
      forall t :: t in r.body.tickets <==> t in Values(s.tickets) && t.userId == userId.value
  {
    if userId.None? then Fail(BadRequest, "Invalid user ID")
    else Response(Ok, TicketList(Storage.GetTicketsByUser(s, userId.value)))
  }

  /** GET /api/tickets/:id. */
  function ShowTicket(s: Storage.Store, id: Option<int>): (r: Response)
    ensures r.status == BadRequest <==> id.None?
    ensures r.status == NotFound <==> id.Some? && id.value !in Keys(s.tickets)
    ensures r.status == Ok <==> id.Some? && id.value in Keys(s.tickets)
    ensures r.status == Ok ==> r.body.TicketData? && Row(id.value, r.body.ticket) in s.tickets
  {
    if id.None? then Fail(BadRequest, "Invalid ticket ID")
    else
      match Storage.GetTicket(s, id.value)
      case None => Fail(NotFound, "Ticket not found")
      case Some(ticket) => Response(Ok, TicketData(ticket))
  }

  /** GET /api/tickets/reference/:reference: 404 exactly when no ticket
      carries the reference, otherwise the first one in entry order that
      does, which is the oldest while ticket ids match their keys. */
  function ShowTicketByReference(s: Storage.Store, reference: string): (r: Response)
    ensures r.status == NotFound <==> forall i :: 0 <= i < |s.tickets| ==> s.tickets[i].val.referenceNumber != reference
    ensures r.status == NotFound || r.status == Ok
    ensures r.status == Ok ==>
      && r.body.TicketData?
      && r.body.ticket.referenceNumber == reference
      && r.body.ticket in Values(s.tickets)
    ensures r.status == Ok ==>
      exists i :: 0 <= i < |s.tickets| && s.tickets[i].val == r.body.ticket && forall j :: 0 <= j < i ==> s.tickets[j].val.referenceNumber != reference
    ensures r.status == Ok && Storage.Valid(s) && KeysAre(s.tickets, Storage.TicketId) ==>
      forall i :: 0 <= i < |s.tickets| && s.tickets[i].val.referenceNumber == reference ==>
        r.body.ticket.id <= s.tickets[i].key
  {
    match Storage.GetTicketByReference(s, reference)
    case None => Fail(NotFound, "Ticket not found")
    case Some(ticket) => Response(Ok, TicketData(ticket))
  }

  /** The body the purchase route validates: the client's body with the
      generated reference spread over it. */
  function WithReference(b: TicketBody, k: int): (b': TicketBody)
    requires Reference.IsDraw(k)
    ensures b'.referenceNumber == Some(Reference.Generate(k))
    ensures b' == b.(referenceNumber := b'.referenceNumber)
  {
    b.(referenceNumber := Some(Reference.Generate(k)))
  }

  /** POST /api/tickets for random draw `k` and clock reading `now`. */
  function PostTicket(s: Storage.Store, b: TicketBody, k: int, now: Timestamp): (r: (Storage.Store, Response))
    requires Reference.IsDraw(k)
    ensures r.1.status == Created <==>
      && b.userId.Some? && b.eventId.Some? && b.ticketTypeId.Some?
      && b.quantity.Some? && b.totalPrice.Some? && b.paymentDetails.Some?
    ensures r.1.status != Created ==> r == (s, Fail(BadRequest, "Invalid ticket data"))
    ensures r.1.status == Created ==>
      && r.1.body.TicketData?
      && var t := r.1.body.ticket;
      && t.id == s.ticketIdCounter
      && t.purchaseDate == now
      && t.referenceNumber == Reference.Generate(k)
      && Reference.WellFormed(t.referenceNumber)
      && t.userId == b.userId.value && t.eventId == b.eventId.value
      && t.ticketTypeId == b.ticketTypeId.value && t.quantity == b.quantity.value
      && t.totalPrice == b.totalPrice.value && t.paymentDetails == b.paymentDetails.value
      && r.0 == s.(tickets := r.0.tickets, ticketIdCounter := s.ticketIdCounter + 1)
      && Storage.GetTicket(r.0, t.id) == Some(t)
      && (Storage.Valid(s) ==> r.0.tickets == s.tickets + [Row(t.id, t)] && Storage.Valid(r.0))
  {
    match ParseTicket(WithReference(b, k))
    case None => (s, Fail(BadRequest, "Invalid ticket data"))
    case Some(t) =>
      var (s', ticket) := Storage.CreateTicket(s, t, now);
      (s', Response(Created, TicketData(ticket)))
  }

  /** Whatever the client says about `id`, `purchaseDate` or
      `referenceNumber` has no effect on a purchase. */
  lemma PostTicketIgnoresServerFields(s: Storage.Store, b: TicketBody, k: int, now: Timestamp,
                                      id: Option<int>, date: Option<Timestamp>, reference: Option<string>)
    requires Reference.IsDraw(k)
    ensures PostTicket(s, b.(id := id, purchaseDate := date, referenceNumber := reference), k, now)
         == PostTicket(s, b, k, now)
  {
    assert WithReference(b.(id := id, purchaseDate := date, referenceNumber := reference), k).(id := b.id, purchaseDate := b.purchaseDate)
        == WithReference(b, k);
  }
}
