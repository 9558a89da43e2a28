/** The server as a whole: one request in, one response out, the store
    threaded through. Requests are dispatched the way the route table
    registers them, the two PUT routes as written. A second dispatch with
    the corrected PUT routes keeps every record's id equal to its key. */
module Server {
  import opened Options
  import opened Schema
  import opened Tables
  import Storage
  import Routes
  import Reference

  datatype Request =
    | Register(user: UserBody)
    | Login(username: Option<string>, password: Option<string>)
    | ListEvents
    | ListFeaturedEvents
    | ShowEvent(id: Option<int>)
    | PostEvent(event: EventBody)
    | PutEvent(id: Option<int>, eventPatch: EventPatch)
    | DeleteEvent(id: Option<int>)
    | ListTicketTypes(id: Option<int>)
    | PostTicketType(ticketType: TicketTypeBody)
    | PutTicketType(id: Option<int>, ticketTypePatch: TicketTypePatch)
    | ListPerformers(id: Option<int>)
    | PostPerformer(performer: PerformerBody)
    | ListUserTickets(id: Option<int>)
    | ShowTicket(id: Option<int>)
    | ShowTicketByReference(reference: string)
    | PostTicket(ticket: TicketBody)
    | ListOrganizerEvents(id: Option<int>)

  /** Requests that only read. */
  predicate ReadOnly(q: Request) {
    !(q.Register? || q.PostEvent? || q.PutEvent? || q.DeleteEvent? || q.PostTicketType? ||
      q.PutTicketType? || q.PostPerformer? || q.PostTicket?)
  }

  /** The outcome of one request under random draw `k` and clock `now`. */
  function Handle(s: Storage.Store, q: Request, k: int, now: Timestamp): (Storage.Store, Routes.Response)
    requires Reference.IsDraw(k)
  {
    match q
    case Register(b) => Routes.Register(s, b)
    case Login(u, p) => (s, Routes.Login(s, u, p))
    case ListEvents => (s, Routes.ListEvents(s))
    case ListFeaturedEvents => (s, Routes.ListFeaturedEvents(s))
    case ShowEvent(id) => (s, Routes.ShowEvent(s, id))
    case PostEvent(b) => Routes.PostEvent(s, b)
    case PutEvent(id, p) => Routes.PutEventAsWritten(s, id, p)
    case DeleteEvent(id) => Routes.DeleteEvent(s, id)
    case ListTicketTypes(id) => (s, Routes.ListTicketTypes(s, id))
    case PostTicketType(b) => Routes.PostTicketType(s, b)
    case PutTicketType(id, p) => Routes.PutTicketTypeAsWritten(s, id, p)
    case ListPerformers(id) => (s, Routes.ListPerformers(s, id))
    case PostPerformer(b) => Routes.PostPerformer(s, b)
    case ListUserTickets(id) => (s, Routes.ListUserTickets(s, id))
    case ShowTicket(id) => (s, Routes.ShowTicket(s, id))
    case ShowTicketByReference(ref) => (s, Routes.ShowTicketByReference(s, ref))
    case PostTicket(b) => Routes.PostTicket(s, b, k, now)
    case ListOrganizerEvents(id) => (s, Routes.ListOrganizerEvents(s, id))
  }

  /** The same dispatch with the corrected PUT routes, which drop the
      body's `id`. */
  function HandleCorrected(s: Storage.Store, q: Request, k: int, now: Timestamp): (Storage.Store, Routes.Response)
    requires Reference.IsDraw(k)
  {
    match q
    case PutEvent(id, p) => Routes.PutEvent(s, id, p)
    case PutTicketType(id, p) => Routes.PutTicketType(s, id, p)
    case _ => Handle(s, q, k, now)
  }

  /** Counters only move up, and by at most one per request. */
  predicate CountersAdvance(s: Storage.Store, s': Storage.Store) {
    && s.userIdCounter <= s'.userIdCounter <= s.userIdCounter + 1
    && s.eventIdCounter <= s'.eventIdCounter <= s.eventIdCounter + 1
    && s.ticketTypeIdCounter <= s'.ticketTypeIdCounter <= s.ticketTypeIdCounter + 1
    && s.performerIdCounter <= s'.performerIdCounter <= s.performerIdCounter + 1
    && s.ticketIdCounter <= s'.ticketIdCounter <= s.ticketIdCounter + 1
  }

  /** Every ticket present before a request is still present afterwards,
      unchanged: no route edits or removes a ticket. */
  predicate TicketsKept(s: Storage.Store, s': Storage.Store) {
    forall id :: id in Keys(s.tickets) ==> Storage.GetTicket(s', id) == Storage.GetTicket(s, id)
  }

  /** One request keeps the repository invariant, advances counters
      monotonically, never touches an existing ticket, and leaves the store
      alone when it only reads. */
  lemma HandleStep(s: Storage.Store, q: Request, k: int, now: Timestamp)
    requires Reference.IsDraw(k)
    requires Storage.Valid(s)
    ensures Storage.Valid(Handle(s, q, k, now).0)
    ensures CountersAdvance(s, Handle(s, q, k, now).0)
    ensures TicketsKept(s, Handle(s, q, k, now).0)
    ensures ReadOnly(q) ==> Handle(s, q, k, now).0 == s
  {
    HandleKeepsInvariant(s, q, k, now);
    HandleAdvances(s, q, k, now);
    HandleReads(s, q, k, now);
    HandleKeepsTickets(s, q, k, now);
  }

  lemma HandleKeepsInvariant(s: Storage.Store, q: Request, k: int, now: Timestamp)
    requires Reference.IsDraw(k)
    requires Storage.Valid(s)
    ensures Storage.Valid(Handle(s, q, k, now).0)
  {
    match q
    case Register(b) =>
      if Routes.Register(s, b).1.status == Routes.Created {
        var _ := Storage.CreateUser(s, ParseUser(b).value);
      }
    case _ =>
  }

  /** The corrected dispatch also keeps every record's id equal to its
      key, which the dispatch as written does not (see `PutEventBreaksIds`). */
  lemma CorrectedKeepsIds(s: Storage.Store, q: Request, k: int, now: Timestamp)
    requires Reference.IsDraw(k)
    requires Storage.Valid(s) && Storage.IdsMatchKeys(s)
    ensures Storage.Valid(HandleCorrected(s, q, k, now).0)
    ensures Storage.IdsMatchKeys(HandleCorrected(s, q, k, now).0)
  {
    match q
    case Register(b) =>
      if Routes.Register(s, b).1.status == Routes.Created {
        var _ := Storage.CreateUser(s, ParseUser(b).value);
      }
    case _ =>
  }

  lemma HandleAdvances(s: Storage.Store, q: Request, k: int, now: Timestamp)
    requires Reference.IsDraw(k)
    ensures CountersAdvance(s, Handle(s, q, k, now).0)
  {
  }

  lemma HandleReads(s: Storage.Store, q: Request, k: int, now: Timestamp)
    requires Reference.IsDraw(k)
    ensures ReadOnly(q) ==> Handle(s, q, k, now).0 == s
  {
  }

  lemma HandleKeepsTickets(s: Storage.Store, q: Request, k: int, now: Timestamp)
    requires Reference.IsDraw(k)
    requires Storage.Valid(s)
    ensures TicketsKept(s, Handle(s, q, k, now).0)
  {
    if q.PostTicket? {
      PurchaseKeepsTickets(s, q.ticket, k, now);
    } else {
      HandleKeepsTicketTable(s, q, k, now);
    }
  }

  /** A purchase only adds a ticket under a fresh key. */
  lemma PurchaseKeepsTickets(s: Storage.Store, b: TicketBody, k: int, now: Timestamp)
    requires Reference.IsDraw(k)
    requires Storage.Valid(s)
    ensures TicketsKept(s, Routes.PostTicket(s, b, k, now).0)
  {
    BoundNotKey(s.tickets, s.ticketIdCounter);
  }

  /** Every other request leaves the ticket table as it is. */
  lemma HandleKeepsTicketTable(s: Storage.Store, q: Request, k: int, now: Timestamp)
    requires Reference.IsDraw(k)
    requires !q.PostTicket?
    ensures Handle(s, q, k, now).0.tickets == s.tickets
  {
  }

  /** A request answered with an error status (a numeric code of 300 or
      more) leaves the store exactly as it was: every route validates and
      looks up before it writes. */
  lemma FailureLeavesStore(s: Storage.Store, q: Request, k: int, now: Timestamp)
    requires Reference.IsDraw(k)
    ensures Routes.Code(Handle(s, q, k, now).1.status) >= 300 ==> Handle(s, q, k, now).0 == s
    ensures Routes.Code(HandleCorrected(s, q, k, now).1.status) >= 300 ==> HandleCorrected(s, q, k, now).0 == s
  {
  }

  /** Only registration writes users, and it stores each new user under
      its own id: user ids stay equal to their keys under the dispatch as
      written, PUT routes included. */
  lemma HandleKeepsUserIds(s: Storage.Store, q: Request, k: int, now: Timestamp)
    requires Reference.IsDraw(k)
    requires Storage.Valid(s) && KeysAre(s.users, Storage.UserId)
    ensures KeysAre(Handle(s, q, k, now).0.users, Storage.UserId)
    ensures !q.Register? ==> Handle(s, q, k, now).0.users == s.users
  {
    if q.Register? && Routes.Register(s, q.user).1.status == Routes.Created {
      var _ := Storage.CreateUser(s, ParseUser(q.user).value);
    } else if !q.Register? {
      HandleKeepsUserTable(s, q, k, now);
    }
  }

  lemma HandleKeepsUserTable(s: Storage.Store, q: Request, k: int, now: Timestamp)
    requires Reference.IsDraw(k)
    requires !q.Register?
    ensures Handle(s, q, k, now).0.users == s.users
  {
  }

  /** A run of requests, each with its own draw and clock reading. */
  datatype Step = Step(request: Request, draw: int, now: Timestamp)

  predicate Draws(steps: seq<Step>) {
    forall i :: 0 <= i < |steps| ==> Reference.IsDraw(steps[i].draw)
  }

  function Run(s: Storage.Store, steps: seq<Step>): (s': Storage.Store)
    requires Draws(steps)
    decreases |steps|
  {
    if |steps| == 0 then s
    else Run(Handle(s, steps[0].request, steps[0].draw, steps[0].now).0, steps[1..])
  }

  function RunCorrected(s: Storage.Store, steps: seq<Step>): (s': Storage.Store)
    requires Draws(steps)
    decreases |steps|
  {
    if |steps| == 0 then s
    else RunCorrected(HandleCorrected(s, steps[0].request, steps[0].draw, steps[0].now).0, steps[1..])
  }

  /** With the corrected PUT routes, ids stay equal to keys over any run. */
  lemma {:induction false} RunCorrectedKeepsIds(s: Storage.Store, steps: seq<Step>)
    requires Draws(steps)
    requires Storage.Valid(s) && Storage.IdsMatchKeys(s)
    ensures Storage.Valid(RunCorrected(s, steps)) && Storage.IdsMatchKeys(RunCorrected(s, steps))
    decreases |steps|
  {
    if |steps| > 0 {
      CorrectedKeepsIds(s, steps[0].request, steps[0].draw, steps[0].now);
      RunCorrectedKeepsIds(HandleCorrected(s, steps[0].request, steps[0].draw, steps[0].now).0, steps[1..]);
    }
  }

  /** Over any run of requests from a valid store the invariant holds,
      counters never go back, and so an id once handed out (for an event
      that was later deleted, say) is never handed out again: every key
      the final store holds that the initial one did not is at or above
      the initial counter. Tickets that existed are never altered. */
  lemma {:induction false} RunKeepsInvariant(s: Storage.Store, steps: seq<Step>)
    requires Draws(steps)
    requires Storage.Valid(s)
    ensures Storage.Valid(Run(s, steps))
    ensures s.userIdCounter <= Run(s, steps).userIdCounter
    ensures s.eventIdCounter <= Run(s, steps).eventIdCounter
    ensures s.ticketTypeIdCounter <= Run(s, steps).ticketTypeIdCounter
    ensures s.performerIdCounter <= Run(s, steps).performerIdCounter
    ensures s.ticketIdCounter <= Run(s, steps).ticketIdCounter
    ensures TicketsKept(s, Run(s, steps))
    decreases |steps|
  {
    if |steps| > 0 {
      var s1 := Handle(s, steps[0].request, steps[0].draw, steps[0].now).0;
      HandleStep(s, steps[0].request, steps[0].draw, steps[0].now);
      RunKeepsInvariant(s1, steps[1..]);
      forall id | id in Keys(s.tickets)
        ensures Storage.GetTicket(Run(s, steps), id) == Storage.GetTicket(s, id)
      {
        assert id in Keys(s1.tickets);
      }
    }
  }

  /** An event id that has been deleted is never reused: creating events
      after the deletion yields ids at or above the counter, which is
      above every id ever handed out. */
  lemma DeletedIdNeverReused(s: Storage.Store, id: int, steps: seq<Step>)
    requires Draws(steps)
    requires Storage.Valid(s)
    requires id in Keys(s.events)
    ensures var s1 := Storage.DeleteEvent(s, id).0;
      forall e :: e in Keys(Run(s1, steps).events) - Keys(s1.events) ==> e >= s.eventIdCounter > id
  {
    var s1 := Storage.DeleteEvent(s, id).0;
    var i :| 0 <= i < |s.events| && s.events[i].key == id;
    RunKeepsInvariant(s1, steps);
    NewKeysAboveCounter(s1, steps);
  }

  /** Keys that appear during a run come from the counters. */
  lemma {:induction false} NewKeysAboveCounter(s: Storage.Store, steps: seq<Step>)
    requires Draws(steps)
    requires Storage.Valid(s)
    ensures forall e :: e in Keys(Run(s, steps).events) - Keys(s.events) ==> e >= s.eventIdCounter
    decreases |steps|
  {
    if |steps| > 0 {
      var s1 := Handle(s, steps[0].request, steps[0].draw, steps[0].now).0;
      HandleStep(s, steps[0].request, steps[0].draw, steps[0].now);
      EventKeysStep(s, steps[0].request, steps[0].draw, steps[0].now);
      NewKeysAboveCounter(s1, steps[1..]);
      var final := Run(s, steps);
      assert final == Run(s1, steps[1..]);
      forall e | e in Keys(final.events) - Keys(s.events) ensures e >= s.eventIdCounter {
        if e !in Keys(s1.events) {
          assert e in Keys(Run(s1, steps[1..]).events) - Keys(s1.events);
        }
      }
    }
  }

  /** One request adds at most the current event counter as an event key. */
  lemma EventKeysStep(s: Storage.Store, q: Request, k: int, now: Timestamp)
    requires Reference.IsDraw(k)
    requires Storage.Valid(s)
    ensures Keys(Handle(s, q, k, now).0.events) <= Keys(s.events) + {s.eventIdCounter}
  {
  }
}
