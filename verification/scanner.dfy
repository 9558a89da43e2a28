/** The ticket scanner page as a state machine: a scanning flag, the code
    read or typed so far, and the outcome of looking the code up. The
    three queries the page issues (ticket by reference, its event, its
    ticket type) are answered from a store through the route handlers. */
module Scanner {
  import opened Options
  import opened Schema
  import opened Tables
  import Storage
  import Routes

  /** `validationStatus`. */
  datatype Status = Idle | Success | Failure

  datatype State = State(scanning: bool, code: Option<string>, status: Status)

  /** What the page does to its state. */
  datatype Action =
    | Scan(text: Option<string>)    // a scan result arrives; the page has no
                                    // scanner component, so nothing sends it
    | Type(input: string)           // the code field changes
    | Submit                        // Enter in the field, or Validate
    | ScanAgain                     // "Scan Another Ticket"
    | Lookup(found: bool)           // the reference query settles

  /** The state on first render. */
  const Init: State := State(true, None, Idle)

  /** The reference query runs exactly when the code is non-empty. */
  predicate LookupEnabled(s: State) {
    Truthy(s.code)
  }

  /** One action. Input controls exist only in the scanning view, so
      typing and submitting do nothing outside it; "Scan Another Ticket"
      exists only outside it, and the effect on `scanning` then clears the
      code and the status. A query result lands only while the query is
      enabled. */
  function Step(s: State, a: Action): (r: State)
    ensures a.Scan? ==> (r != s <==> s.scanning && Truthy(a.text))
    ensures a.Scan? && s.scanning && Truthy(a.text) ==> r == State(false, a.text, s.status)
    ensures a.Type? ==> r == if s.scanning then s.(code := Some(a.input)) else s
    ensures a.Submit? ==> (r.scanning <==> s.scanning && !Truthy(s.code))
    ensures a.Submit? ==> r.code == s.code && r.status == s.status
    ensures a.ScanAgain? ==> r == if s.scanning then s else Init
    ensures a.Lookup? ==> r.scanning == s.scanning && r.code == s.code
    ensures a.Lookup? && LookupEnabled(s) ==> r.status == (if a.found then Success else Failure)
    ensures a.Lookup? && !LookupEnabled(s) ==> r == s
  {
    match a
    case Scan(text) =>
      if Truthy(text) && s.scanning then s.(code := text, scanning := false) else s
    case Type(input) =>
      if s.scanning then s.(code := Some(input)) else s
    case Submit =>
      if s.scanning && Truthy(s.code) then s.(scanning := false) else s
    case ScanAgain =>
      if s.scanning then s else Init
    case Lookup(found) =>
      if LookupEnabled(s) then s.(status := if found then Success else Failure) else s
  }

  /** Outside the scanning view there is always a code to look up. */
  predicate Inv(s: State) {
    !s.scanning ==> Truthy(s.code)
  }

  /** Every action keeps the invariant. */
  lemma StepKeepsInv(s: State, a: Action)
    requires Inv(s)
    ensures Inv(Step(s, a))
  {
  }

  function Run(s: State, actions: seq<Action>): (r: State)
    decreases |actions|
  {
    if |actions| == 0 then s else Run(Step(s, actions[0]), actions[1..])
  }

  /** Every state the page reaches from its first render has a code
      whenever it has left the scanning view. */
  lemma {:induction false} Reachable(s: State, actions: seq<Action>)
    requires Inv(s)
    ensures Inv(Run(s, actions))
    decreases |actions|
  {
    if |actions| > 0 {
      StepKeepsInv(s, actions[0]);
      Reachable(Step(s, actions[0]), actions[1..]);
    }
  }

  /** Typing enables the query while still in the scanning view, so a
      result can change the status before the code is submitted. */
  lemma StatusChangesWhileScanning()
    ensures Run(Init, [Type("TIX12345"), Lookup(true)]) == State(true, Some("TIX12345"), Success)
    ensures Run(Init, [Type("TIX12345"), Lookup(false)]) == State(true, Some("TIX12345"), Failure)
  {
    var typed := Step(Init, Type("TIX12345"));
    assert typed == State(true, Some("TIX12345"), Idle);
    assert Run(Init, [Type("TIX12345"), Lookup(true)]) == Run(Step(typed, Lookup(true)), []);
    assert Run(Init, [Type("TIX12345"), Lookup(false)]) == Run(Step(typed, Lookup(false)), []);
  }

  // ---------------------------------------------------------------------
  // What the page shows

  datatype View = ScanView | Validated | Invalid | Spinner

  /** The view for a state and the data the three queries hold. */
  function ViewFor(s: State, ticket: Option<Ticket>, event: Option<Event>, ticketType: Option<TicketType>): (p: View)
    ensures p == ScanView <==> s.scanning
    ensures p == Validated ==> s.status == Success && ticket.Some? && event.Some? && ticketType.Some?
    ensures p == Invalid ==> s.status == Failure
    ensures !s.scanning && s.status == Idle ==> p == Spinner
    ensures !s.scanning && s.status == Success && ticket.Some? && event.Some? && ticketType.Some? ==> p == Validated
    ensures !s.scanning && s.status == Failure ==> p == Invalid
    ensures !s.scanning && s.status == Success && !(ticket.Some? && event.Some? && ticketType.Some?) ==> p == Spinner
  {
    if s.scanning then ScanView
    else if s.status == Success && ticket.Some? && event.Some? && ticketType.Some? then Validated
    else if s.status == Failure then Invalid
    else Spinner
  }

  /** The ticket query: `/api/tickets/reference/:code`, enabled while the
      code is non-empty. */
  function TicketQuery(store: Storage.Store, s: State): (t: Option<Ticket>)
    ensures t.Some? ==> LookupEnabled(s) && t.value.referenceNumber == s.code.value
    ensures t.Some? ==> t.value in Values(store.tickets)
    ensures LookupEnabled(s) && t.None? ==>
      forall i :: 0 <= i < |store.tickets| ==> store.tickets[i].val.referenceNumber != s.code.value
  {
    if !LookupEnabled(s) then None
    else
      var r := Routes.ShowTicketByReference(store, s.code.value);
      if r.status == Routes.Ok then Some(r.body.ticket) else None
  }

  /** The event query: `/api/events/:eventId` of the ticket found. */
  function EventQuery(store: Storage.Store, ticket: Option<Ticket>): (e: Option<Event>)
    ensures e.Some? <==> ticket.Some? && ticket.value.eventId in Keys(store.events)
    ensures e.Some? ==> Row(ticket.value.eventId, e.value) in store.events
  {
    if ticket.None? then None
    else
      var r := Routes.ShowEvent(store, Some(ticket.value.eventId));
      if r.status == Routes.Ok then Some(r.body.event) else None
  }

  /** The ticket-type query as written asks for `/api/ticket-types/:id`,
      a path the server registers only for PUT, so the data is never
      there. */
  function TicketTypeQueryAsWritten(store: Storage.Store, ticket: Option<Ticket>): Option<TicketType> {
    None
  }

  /** The page as written. */
  function ViewAsWritten(store: Storage.Store, s: State): View {
    var ticket := TicketQuery(store, s);
    ViewFor(s, ticket, EventQuery(store, ticket), TicketTypeQueryAsWritten(store, ticket))
  }

  /** As written the "Ticket Validated" panel is unreachable: whatever the
      store and state, the page shows the scanner, "Invalid Ticket", or a
      spinner that never ends. */
  lemma NeverValidatedAsWritten(store: Storage.Store, s: State)
    ensures ViewAsWritten(store, s) != Validated
    ensures !s.scanning && s.status == Success ==> ViewAsWritten(store, s) == Spinner
  {
  }

  /** The ticket-type query the page needs: the ticket's type read from
      the store, as a `GET /api/ticket-types/:id` beside
      `GET /api/events/:id` would answer it. */
  function TicketTypeQuery(store: Storage.Store, ticket: Option<Ticket>): (t: Option<TicketType>)
    ensures t.Some? <==> ticket.Some? && ticket.value.ticketTypeId in Keys(store.ticketTypes)
    ensures t.Some? ==> Row(ticket.value.ticketTypeId, t.value) in store.ticketTypes
  {
    if ticket.None? then None else Storage.GetTicketType(store, ticket.value.ticketTypeId)
  }

  /** The page with the ticket-type query answered. */
  function Shown(store: Storage.Store, s: State): View {
    var ticket := TicketQuery(store, s);
    ViewFor(s, ticket, EventQuery(store, ticket), TicketTypeQuery(store, ticket))
  }

  /** With the ticket-type query answered, a submitted code whose lookup
      succeeded shows "Ticket Validated" exactly when a ticket carries the
      code and its event and ticket type are in the store. */
  lemma ValidatedIff(store: Storage.Store, s: State)
    requires !s.scanning && s.status == Success && Inv(s)
    ensures Shown(store, s) == Validated <==>
      var t := TicketQuery(store, s);
      && t.Some?
      && t.value.eventId in Keys(store.events)
      && t.value.ticketTypeId in Keys(store.ticketTypes)
  {
  }

  /** The lookup settles from the store: found iff some ticket carries the
      code. */
  function LookupOutcome(store: Storage.Store, s: State): (r: State)
    ensures LookupEnabled(s) ==>
      (r.status == Success <==> exists i :: 0 <= i < |store.tickets| && store.tickets[i].val.referenceNumber == s.code.value)
    ensures !LookupEnabled(s) ==> r == s
    ensures r.scanning == s.scanning && r.code == s.code
  {
    Step(s, Lookup(TicketQuery(store, s).Some?))
  }

  /** Submitting a code and letting its lookup settle, for a store that
      holds a ticket with that code and its event and ticket type, ends
      on "Ticket Validated"; with no ticket carrying the code it ends on
      "Invalid Ticket". */
  lemma SubmitThenLookup(store: Storage.Store, code: string)
    requires code != ""
    ensures var s := LookupOutcome(store, Step(Step(Init, Type(code)), Submit));
      var t := TicketQuery(store, s);
      && !s.scanning
      && (t.Some? && t.value.eventId in Keys(store.events) && t.value.ticketTypeId in Keys(store.ticketTypes)
          ==> Shown(store, s) == Validated)
      && (t.None? ==> Shown(store, s) == Invalid)
  {
  }
}
