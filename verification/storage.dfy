/** The in-memory repository (`MemStorage`): five tables keyed by integer
    ids, five id counters, and the operations over them. Every operation is
    a pure function from a store to a new store and a result. */
module Storage {
  import opened Options
  import opened Schema
  import opened Tables
  import Seqs

  datatype Store = Store(
    users: Table<User>,
    events: Table<Event>,
    ticketTypes: Table<TicketType>,
    performers: Table<Performer>,
    tickets: Table<Ticket>,
    userIdCounter: int,
    eventIdCounter: int,
    ticketTypeIdCounter: int,
    performerIdCounter: int,
    ticketIdCounter: int)

  /** The repository invariant every operation keeps. */
  predicate Valid(s: Store) {
    && WellKeyed(s.users, s.userIdCounter)
    && WellKeyed(s.events, s.eventIdCounter)
    && WellKeyed(s.ticketTypes, s.ticketTypeIdCounter)
    && WellKeyed(s.performers, s.performerIdCounter)
    && WellKeyed(s.tickets, s.ticketIdCounter)
  }

  function UserId(u: User): int { u.id }
  function EventId(e: Event): int { e.id }
  function TicketTypeId(t: TicketType): int { t.id }
  function PerformerId(p: Performer): int { p.id }
  function TicketId(t: Ticket): int { t.id }

  /** Every record carries the key it is stored under as its `id`. */
  predicate IdsMatchKeys(s: Store) {
    && KeysAre(s.users, UserId)
    && KeysAre(s.events, EventId)
    && KeysAre(s.ticketTypes, TicketTypeId)
    && KeysAre(s.performers, PerformerId)
    && KeysAre(s.tickets, TicketId)
  }

  /** The constructor before seeding: empty maps, every counter at 1. */
  function Empty(): (s: Store)
    ensures Valid(s) && IdsMatchKeys(s)
    ensures forall id :: GetUser(s, id).None? && GetEvent(s, id).None? && GetTicketType(s, id).None?
    ensures forall id :: Get(s.performers, id).None? && GetTicket(s, id).None?
    ensures && s.userIdCounter == 1 && s.eventIdCounter == 1 && s.ticketTypeIdCounter == 1
            && s.performerIdCounter == 1 && s.ticketIdCounter == 1
  {
    Store([], [], [], [], [], 1, 1, 1, 1, 1)
  }

  // ---------------------------------------------------------------------
  // Allocation: `const id = counter++; map.set(id, record)`

  function CreateUser(s: Store, u: InsertUser): (r: (Store, User))
    ensures InsertOfUser(r.1) == u && r.1.id == s.userIdCounter
    ensures Get(r.0.users, r.1.id) == Some(r.1)
    ensures forall k :: k != r.1.id ==> Get(r.0.users, k) == Get(s.users, k)
    ensures r.0 == s.(users := r.0.users, userIdCounter := s.userIdCounter + 1)
    ensures Valid(s) ==> r.0.users == s.users + [Row(r.1.id, r.1)] && Valid(r.0)
    ensures Valid(s) && IdsMatchKeys(s) ==> IdsMatchKeys(r.0)
    ensures Valid(s) && KeysAre(s.users, UserId) ==> KeysAre(r.0.users, UserId)
  {
    var id := s.userIdCounter;
    var user := UserOf(u, id);
    var s' := s.(users := Set(s.users, id, user), userIdCounter := id + 1);
    AppendFresh(s.users, id, user, UserId);
    (s', user)
  }

  function CreateEvent(s: Store, e: InsertEvent): (r: (Store, Event))
    ensures InsertOfEvent(r.1) == e && r.1.id == s.eventIdCounter
    ensures Get(r.0.events, r.1.id) == Some(r.1)
    ensures forall k :: k != r.1.id ==> Get(r.0.events, k) == Get(s.events, k)
    ensures r.0 == s.(events := r.0.events, eventIdCounter := s.eventIdCounter + 1)
    ensures Valid(s) ==> r.0.events == s.events + [Row(r.1.id, r.1)] && Valid(r.0)
    ensures Valid(s) && IdsMatchKeys(s) ==> IdsMatchKeys(r.0)
  {
    var id := s.eventIdCounter;
    var event := EventOf(e, id);
    var s' := s.(events := Set(s.events, id, event), eventIdCounter := id + 1);
    AppendFresh(s.events, id, event, EventId);
    (s', event)
  }

  function CreateTicketType(s: Store, t: InsertTicketType): (r: (Store, TicketType))
    ensures InsertOfTicketType(r.1) == t && r.1.id == s.ticketTypeIdCounter
    ensures Get(r.0.ticketTypes, r.1.id) == Some(r.1)
    ensures forall k :: k != r.1.id ==> Get(r.0.ticketTypes, k) == Get(s.ticketTypes, k)
    ensures r.0 == s.(ticketTypes := r.0.ticketTypes, ticketTypeIdCounter := s.ticketTypeIdCounter + 1)
    ensures Valid(s) ==> r.0.ticketTypes == s.ticketTypes + [Row(r.1.id, r.1)] && Valid(r.0)
    ensures Valid(s) && IdsMatchKeys(s) ==> IdsMatchKeys(r.0)
  {
    var id := s.ticketTypeIdCounter;
    var ticketType := TicketTypeOf(t, id);
    var s' := s.(ticketTypes := Set(s.ticketTypes, id, ticketType), ticketTypeIdCounter := id + 1);
    AppendFresh(s.ticketTypes, id, ticketType, TicketTypeId);
    (s', ticketType)
  }

  function CreatePerformer(s: Store, p: InsertPerformer): (r: (Store, Performer))
    ensures InsertOfPerformer(r.1) == p && r.1.id == s.performerIdCounter
    ensures Get(r.0.performers, r.1.id) == Some(r.1)
    ensures forall k :: k != r.1.id ==> Get(r.0.performers, k) == Get(s.performers, k)
    ensures r.0 == s.(performers := r.0.performers, performerIdCounter := s.performerIdCounter + 1)
    ensures Valid(s) ==> r.0.performers == s.performers + [Row(r.1.id, r.1)] && Valid(r.0)
    ensures Valid(s) && IdsMatchKeys(s) ==> IdsMatchKeys(r.0)
  {
    var id := s.performerIdCounter;
    var performer := PerformerOf(p, id);
    var s' := s.(performers := Set(s.performers, id, performer), performerIdCounter := id + 1);
    AppendFresh(s.performers, id, performer, PerformerId);
    (s', performer)
  }

  /** The payload is stored as given, plus the next ticket id and the
      server's clock reading `now` as `purchaseDate`. */
  function CreateTicket(s: Store, t: InsertTicket, now: Timestamp): (r: (Store, Ticket))
    ensures InsertOfTicket(r.1) == t && r.1.id == s.ticketIdCounter && r.1.purchaseDate == now
    ensures Get(r.0.tickets, r.1.id) == Some(r.1)
    ensures forall k :: k != r.1.id ==> Get(r.0.tickets, k) == Get(s.tickets, k)
    ensures r.0 == s.(tickets := r.0.tickets, ticketIdCounter := s.ticketIdCounter + 1)
    ensures Valid(s) ==> r.0.tickets == s.tickets + [Row(r.1.id, r.1)] && Valid(r.0)
    ensures Valid(s) && IdsMatchKeys(s) ==> IdsMatchKeys(r.0)
  {
    var id := s.ticketIdCounter;
    var ticket := TicketOf(t, id, now);
    var s' := s.(tickets := Set(s.tickets, id, ticket), ticketIdCounter := id + 1);
    AppendFresh(s.tickets, id, ticket, TicketId);
    (s', ticket)
  }

  // ---------------------------------------------------------------------
  // Lookups by id

  function GetUser(s: Store, id: int): Option<User> {
    Get(s.users, id)
  }

  function GetEvent(s: Store, id: int): Option<Event> {
    Get(s.events, id)
  }

  function GetTicketType(s: Store, id: int): Option<TicketType> {
    Get(s.ticketTypes, id)
  }

  function GetTicket(s: Store, id: int): Option<Ticket> {
    Get(s.tickets, id)
  }

  // ---------------------------------------------------------------------
  // Partial updates and deletion

  /** `{ ...event, ...patch }` stored back under the same key; a missing id
      changes nothing. */
  function UpdateEvent(s: Store, id: int, patch: EventPatch): (r: (Store, Option<Event>))
    ensures r.1.None? <==> id !in Keys(s.events)
    ensures r.1.None? ==> r.0 == s
    ensures r.1.Some? ==> r.1.value == MergeEvent(GetEvent(s, id).value, patch)
    ensures r.1.Some? ==> GetEvent(r.0, id) == r.1
    ensures forall k :: k != id ==> GetEvent(r.0, k) == GetEvent(s, k)
    ensures Keys(r.0.events) == Keys(s.events)
    ensures r.0 == s.(events := r.0.events)
    ensures Valid(s) ==> Valid(r.0)
    ensures Valid(s) && IdsMatchKeys(s) && patch.id.None? ==> IdsMatchKeys(r.0)
  {
    match GetEvent(s, id)
    case None => (s, None)
    case Some(event) =>
      var updated := MergeEvent(event, patch);
      var s' := s.(events := Set(s.events, id, updated));
      if Valid(s) then
        OverwriteEntry(s.events, s.eventIdCounter, id, updated, EventId);
        (s', Some(updated))
      else (s', Some(updated))
  }

  function UpdateTicketType(s: Store, id: int, patch: TicketTypePatch): (r: (Store, Option<TicketType>))
    ensures r.1.None? <==> id !in Keys(s.ticketTypes)
    ensures r.1.None? ==> r.0 == s
    ensures r.1.Some? ==> r.1.value == MergeTicketType(GetTicketType(s, id).value, patch)
    ensures r.1.Some? ==> GetTicketType(r.0, id) == r.1
    ensures forall k :: k != id ==> GetTicketType(r.0, k) == GetTicketType(s, k)
    ensures Keys(r.0.ticketTypes) == Keys(s.ticketTypes)
    ensures r.0 == s.(ticketTypes := r.0.ticketTypes)
    ensures Valid(s) ==> Valid(r.0)
    ensures Valid(s) && IdsMatchKeys(s) && patch.id.None? ==> IdsMatchKeys(r.0)
  {
    match GetTicketType(s, id)
    case None => (s, None)
    case Some(ticketType) =>
      var updated := MergeTicketType(ticketType, patch);
      var s' := s.(ticketTypes := Set(s.ticketTypes, id, updated));
      if Valid(s) then
        OverwriteEntry(s.ticketTypes, s.ticketTypeIdCounter, id, updated, TicketTypeId);
        (s', Some(updated))
      else (s', Some(updated))
  }

  /** `events.delete(id)`: true iff the id was present. Ticket types,
      performers and tickets that refer to the event stay, and no counter
      moves. */
  function DeleteEvent(s: Store, id: int): (r: (Store, bool))
    ensures r.1 <==> id in Keys(s.events)
    ensures Keys(r.0.events) == Keys(s.events) - {id}
    ensures forall k :: k != id ==> GetEvent(r.0, k) == GetEvent(s, k)
    ensures r.0 == s.(events := r.0.events)
    ensures Valid(s) ==> Valid(r.0)
    ensures IdsMatchKeys(s) ==> IdsMatchKeys(r.0)
  {
    var remaining := Delete(s.events, id);
    DeleteKeeps(s.events, id, s.eventIdCounter, EventId);
    (s.(events := remaining), id in Keys(s.events))
  }

  // ---------------------------------------------------------------------
  // Filtered lists: `Array.from(map.values()).filter(p)`

  /** Values of a table listed in entry order have increasing ids when the
      table is ascending and ids match keys. */
  lemma ValuesIncreasing<T>(t: Table<T>, idOf: T -> int)
    requires Ascending(t)
    requires KeysAre(t, idOf)
    ensures Seqs.IncreasingBy(Values(t), idOf)
  {
  }

  /** A filter over the values of a table, with the filter's ordering
      consequence spelled out. */
  lemma FilterOrdered<T(!new)>(t: Table<T>, p: T -> bool, idOf: T -> int)
    requires Ascending(t)
    requires KeysAre(t, idOf)
    ensures Seqs.IncreasingBy(Seqs.Filter(Values(t), p), idOf)
    ensures forall x :: x in Seqs.Filter(Values(t), p) <==> x in Values(t) && p(x)
  {
    ValuesIncreasing(t, idOf);
    Seqs.SubseqIncreasing(Seqs.Filter(Values(t), p), Values(t), idOf);
    forall x ensures x in Seqs.Filter(Values(t), p) <==> x in Values(t) && p(x) {
      Seqs.FilterMembers(Values(t), p, x);
    }
  }

  function GetEvents(s: Store): seq<Event> {
    Values(s.events)
  }

  /** JavaScript truthiness of `featured`: an absent flag counts as false. */
  predicate IsFeatured(e: Event) {
    e.featured == Some(true)
  }

  function GetFeaturedEvents(s: Store): (r: seq<Event>)
    ensures forall e :: e in r <==> e in GetEvents(s) && IsFeatured(e)
    ensures forall e :: multiset(r)[e] == if IsFeatured(e) then multiset(GetEvents(s))[e] else 0
    ensures Seqs.IsSubseq(r, GetEvents(s))
    ensures Valid(s) && KeysAre(s.events, EventId) ==> Seqs.IncreasingBy(r, EventId)
  {
    var r := Seqs.Filter(Values(s.events), IsFeatured);
    forall e ensures e in r <==> e in GetEvents(s) && IsFeatured(e) {
      Seqs.FilterMembers(Values(s.events), IsFeatured, e);
    }
    if Valid(s) && KeysAre(s.events, EventId) then FilterOrdered(s.events, IsFeatured, EventId); r else r
  }

  function GetEventsByOrganizer(s: Store, organizerId: int): (r: seq<Event>)
    ensures forall e :: e in r <==> e in GetEvents(s) && e.organizedById == organizerId
    ensures forall e :: multiset(r)[e] == if e.organizedById == organizerId then multiset(GetEvents(s))[e] else 0
    ensures Seqs.IsSubseq(r, GetEvents(s))
    ensures Valid(s) && KeysAre(s.events, EventId) ==> Seqs.IncreasingBy(r, EventId)
  {
    var p := (e: Event) => e.organizedById == organizerId;
    var r := Seqs.Filter(Values(s.events), p);
    forall e ensures e in r <==> e in GetEvents(s) && e.organizedById == organizerId {
      Seqs.FilterMembers(Values(s.events), p, e);
    }
    if Valid(s) && KeysAre(s.events, EventId) then FilterOrdered(s.events, p, EventId); r else r
  }

  function GetTicketTypesByEvent(s: Store, eventId: int): (r: seq<TicketType>)
    ensures forall t :: t in r <==> t in Values(s.ticketTypes) && t.eventId == eventId
    ensures forall t :: multiset(r)[t] == if t.eventId == eventId then multiset(Values(s.ticketTypes))[t] else 0
    ensures Seqs.IsSubseq(r, Values(s.ticketTypes))
    ensures Valid(s) && KeysAre(s.ticketTypes, TicketTypeId) ==> Seqs.IncreasingBy(r, TicketTypeId)
  {
    var p := (t: TicketType) => t.eventId == eventId;
    var r := Seqs.Filter(Values(s.ticketTypes), p);
    forall t ensures t in r <==> t in Values(s.ticketTypes) && t.eventId == eventId {
      Seqs.FilterMembers(Values(s.ticketTypes), p, t);
    }
    if Valid(s) && KeysAre(s.ticketTypes, TicketTypeId) then FilterOrdered(s.ticketTypes, p, TicketTypeId); r else r
  }

  function GetPerformersByEvent(s: Store, eventId: int): (r: seq<Performer>)
    ensures forall x :: x in r <==> x in Values(s.performers) && x.eventId == eventId
    ensures forall x :: multiset(r)[x] == if x.eventId == eventId then multiset(Values(s.performers))[x] else 0
    ensures Seqs.IsSubseq(r, Values(s.performers))
    ensures Valid(s) && KeysAre(s.performers, PerformerId) ==> Seqs.IncreasingBy(r, PerformerId)
  {
    var p := (x: Performer) => x.eventId == eventId;
    var r := Seqs.Filter(Values(s.performers), p);
    forall x ensures x in r <==> x in Values(s.performers) && x.eventId == eventId {
      Seqs.FilterMembers(Values(s.performers), p, x);
    }
    if Valid(s) && KeysAre(s.performers, PerformerId) then FilterOrdered(s.performers, p, PerformerId); r else r
  }

  function GetTicketsByUser(s: Store, userId: int): (r: seq<Ticket>)
    ensures forall t :: t in r <==> t in Values(s.tickets) && t.userId == userId
    ensures forall t :: multiset(r)[t] == if t.userId == userId then multiset(Values(s.tickets))[t] else 0
    ensures Seqs.IsSubseq(r, Values(s.tickets))
    ensures Valid(s) && KeysAre(s.tickets, TicketId) ==> Seqs.IncreasingBy(r, TicketId)
  {
    var p := (t: Ticket) => t.userId == userId;
    var r := Seqs.Filter(Values(s.tickets), p);
    forall t ensures t in r <==> t in Values(s.tickets) && t.userId == userId {
      Seqs.FilterMembers(Values(s.tickets), p, t);
    }
    if Valid(s) && KeysAre(s.tickets, TicketId) then FilterOrdered(s.tickets, p, TicketId); r else r
  }

  function GetTicketsByEvent(s: Store, eventId: int): (r: seq<Ticket>)
    ensures forall t :: t in r <==> t in Values(s.tickets) && t.eventId == eventId
    ensures forall t :: multiset(r)[t] == if t.eventId == eventId then multiset(Values(s.tickets))[t] else 0
    ensures Seqs.IsSubseq(r, Values(s.tickets))
    ensures Valid(s) && KeysAre(s.tickets, TicketId) ==> Seqs.IncreasingBy(r, TicketId)
  {
    var p := (t: Ticket) => t.eventId == eventId;
    var r := Seqs.Filter(Values(s.tickets), p);
    forall t ensures t in r <==> t in Values(s.tickets) && t.eventId == eventId {
      Seqs.FilterMembers(Values(s.tickets), p, t);
    }
    if Valid(s) && KeysAre(s.tickets, TicketId) then FilterOrdered(s.tickets, p, TicketId); r else r
  }

  // ---------------------------------------------------------------------
  // First-match lookups: `Array.from(map.values()).find(p)`

  /** The first value satisfying `p` in entry order, as an optional value;
      in an ascending table whose ids match its keys it is also the match
      with the smallest id. */
  function FirstMatch<T>(t: Table<T>, p: T -> bool, idOf: T -> int): (r: Option<T>)
    ensures r.None? <==> forall i :: 0 <= i < |t| ==> !p(t[i].val)
    ensures r.Some? ==> p(r.value) && r.value in Values(t)
    ensures r.Some? ==> exists i :: 0 <= i < |t| && t[i].val == r.value && FirstAt(t, p, i)
    ensures r.Some? && Ascending(t) && KeysAre(t, idOf) ==>
      forall i :: 0 <= i < |t| && p(t[i].val) ==> idOf(r.value) <= idOf(t[i].val)
  {
    match Seqs.FindIndex(Values(t), p)
    case None => None
    case Some(i) => Some(Values(t)[i])
  }

  /** Entry `i` satisfies `p` and no earlier entry does. */
  predicate FirstAt<T>(t: Table<T>, p: T -> bool, i: int)
    requires 0 <= i < |t|
  {
    p(t[i].val) && forall j :: 0 <= j < i ==> !p(t[j].val)
  }

  /** A new entry after an existing match does not change the first
      match. */
  lemma FirstMatchAppend<T>(t: Table<T>, row: Row<T>, p: T -> bool, idOf: T -> int, i: int)
    requires 0 <= i < |t| && p(t[i].val)
    ensures FirstMatch(t + [row], p, idOf) == FirstMatch(t, p, idOf)
  {
    ValuesAppend(t, row);
    Seqs.FindIndexAppend(Values(t), row.val, p, i);
  }

  function GetUserByUsername(s: Store, username: string): (r: Option<User>)
    ensures r.None? <==> forall i :: 0 <= i < |s.users| ==> s.users[i].val.username != username
    ensures r.Some? ==> r.value.username == username && r.value in Values(s.users)
    ensures r.Some? ==>
      exists i :: 0 <= i < |s.users| && s.users[i].val == r.value && forall j :: 0 <= j < i ==> s.users[j].val.username != username
    ensures r.Some? && Valid(s) && KeysAre(s.users, UserId) ==>
      forall i :: 0 <= i < |s.users| && s.users[i].val.username == username ==> r.value.id <= s.users[i].key
  {
    FirstMatch(s.users, (u: User) => u.username == username, UserId)
  }

  function GetUserByEmail(s: Store, email: string): (r: Option<User>)
    ensures r.None? <==> forall i :: 0 <= i < |s.users| ==> s.users[i].val.email != email
    ensures r.Some? ==> r.value.email == email && r.value in Values(s.users)
    ensures r.Some? ==>
      exists i :: 0 <= i < |s.users| && s.users[i].val == r.value && forall j :: 0 <= j < i ==> s.users[j].val.email != email
    ensures r.Some? && Valid(s) && KeysAre(s.users, UserId) ==>
      forall i :: 0 <= i < |s.users| && s.users[i].val.email == email ==> r.value.id <= s.users[i].key
  {
    FirstMatch(s.users, (u: User) => u.email == email, UserId)
  }

  /** The first ticket, in entry order, carrying exactly this reference, or
      none; a miss is an ordinary result, not a failure. While ticket ids
      match their keys it is also the oldest such ticket. */
  function GetTicketByReference(s: Store, reference: string): (r: Option<Ticket>)
    ensures r.None? <==> forall i :: 0 <= i < |s.tickets| ==> s.tickets[i].val.referenceNumber != reference
    ensures r.Some? ==> r.value.referenceNumber == reference && r.value in Values(s.tickets)
    ensures r.Some? ==>
      exists i :: 0 <= i < |s.tickets| && s.tickets[i].val == r.value && forall j :: 0 <= j < i ==> s.tickets[j].val.referenceNumber != reference
    ensures r.Some? && Valid(s) && KeysAre(s.tickets, TicketId) ==>
      forall i :: 0 <= i < |s.tickets| && s.tickets[i].val.referenceNumber == reference ==>
        r.value.id <= s.tickets[i].key
  {
    FirstMatch(s.tickets, (t: Ticket) => t.referenceNumber == reference, TicketId)
  }

  /** A ticket added after one that already carries the reference leaves
      the lookup's answer as it was. */
  lemma ReferenceLookupAppend(s: Store, s': Store, row: Row<Ticket>, reference: string, i: int)
    requires s'.tickets == s.tickets + [row]
    requires 0 <= i < |s.tickets| && s.tickets[i].val.referenceNumber == reference
    ensures GetTicketByReference(s', reference) == GetTicketByReference(s, reference)
  {
    FirstMatchAppend(s.tickets, row, (t: Ticket) => t.referenceNumber == reference, TicketId, i);
  }

  // ---------------------------------------------------------------------
  // Seed data

  const SeedPayment: Json :=
    "{\"method\":\"Credit Card\",\"last4\":\"4242\",\"subtotal\":\"45.00\",\"serviceFee\":\"5.00\",\"tax\":\"3.50\"}"

  const SeedReference: string := "NEO-1234567890"

  /** The constructor: each seed record is built with the next value of its
      counter as id and set into its map, in the order the constructor seeds
      them: two users, five events, seven ticket types, three performers and
      one ticket. Long descriptions and image URLs are empty here; seed
      dates are the given wall-clock times read as UTC. */
  function Initial(): Store {
    var users := [
      Row(1, User(1, "johnsmith", "password123", "john@example.com", "John Smith", Some(false))),
      Row(2, User(2, "eventorganizer", "password123", "organizer@example.com", "Event Organizer", Some(true)))];
    var events := [
      Row(1, Event(1, "Neon Dreams Festival", "", "", 1686427200000, "Warehouse District", "123 Main St", 2, Some(true), ["Electronic", "Festival", "DJ", "Live Music"])),
      Row(2, Event(2, "Techno Underground", "", "", 1686866400000, "Pulse Club", "456 Club Ave", 2, Some(true), ["Techno", "Underground", "DJ"])),
      Row(3, Event(3, "Summer Bass Nights", "", "", 1687294800000, "Echo Lounge", "789 Sound Blvd", 2, Some(false), ["Bass", "Electronic", "Summer"])),
      Row(4, Event(4, "Retro Wave Party", "", "", 1687471200000, "Neon Club", "101 Retro Road", 2, Some(false), ["Retro", "Electronic", "Party"])),
      Row(5, Event(5, "House Music Showcase", "", "", 1687723200000, "Rhythm Hall", "202 Beat Street", 2, Some(false), ["House", "Electronic", "DJ"]))];
    var ticketTypes := [
      Row(1, TicketType(1, 1, "General Admission", "Access to all areas except VIP", "45.00", 200)),
      Row(2, TicketType(2, 1, "VIP Access", "Premium viewing areas & complimentary drinks", "95.00", 50)),
      Row(3, TicketType(3, 1, "Early Entry", "Enter 1 hour before general admission", "65.00", 100)),
      Row(4, TicketType(4, 2, "Standard Entry", "Regular club access", "30.00", 150)),
      Row(5, TicketType(5, 3, "General Admission", "Basic entry to the event", "25.00", 100)),
      Row(6, TicketType(6, 4, "Standard Entry", "Regular club access", "30.00", 120)),
      Row(7, TicketType(7, 5, "General Admission", "Basic entry to the event", "35.00", 150))];
    var performers := [
      Row(1, Performer(1, 1, "DJ Pulse", "", "10:00 PM", Some(true))),
      Row(2, Performer(2, 1, "Electra", "", "9:00 PM", Some(false))),
      Row(3, Performer(3, 1, "Synthesize", "", "8:00 PM", Some(false)))];
    var tickets := [
      Row(1, Ticket(1, 1, 1, 1, 1, "53.50", 1685716200000, SeedReference, SeedPayment))];
    Store(users, events, ticketTypes, performers, tickets, 3, 6, 8, 4, 2)
  }

  /** After construction the counters stand at one past the number of
      seeded records, so the first ticket created afterwards gets id 2; the
      seeded ticket is the only one and carries a non-`TIX` reference. */
  lemma InitialState()
    ensures Valid(Initial()) && IdsMatchKeys(Initial())
    ensures Initial().userIdCounter == 3
    ensures Initial().eventIdCounter == 6
    ensures Initial().ticketTypeIdCounter == 8
    ensures Initial().performerIdCounter == 4
    ensures Initial().ticketIdCounter == 2
    ensures Initial().userIdCounter == |Initial().users| + 1
    ensures Initial().eventIdCounter == |Initial().events| + 1
    ensures Initial().ticketTypeIdCounter == |Initial().ticketTypes| + 1
    ensures Initial().performerIdCounter == |Initial().performers| + 1
    ensures |Initial().tickets| == 1
    ensures Initial().tickets[0].key == 1
    ensures Initial().tickets[0].val.referenceNumber == SeedReference
  {
    InitialValid();
    InitialIds();
  }

  lemma InitialValid()
    ensures Valid(Initial())
  {
    InitialTicketTypes();
  }

  lemma InitialTicketTypes()
    ensures WellKeyed(Initial().ticketTypes, Initial().ticketTypeIdCounter)
  {
  }

  lemma InitialIds()
    ensures IdsMatchKeys(Initial())
  {
  }
}
