/** The five record shapes of the data model, their insert shapes, the
    request-body validation that produces insert shapes, and the column
    constraints the table declarations state.

    Columns declared with a default are optional in an insert shape, and the
    in-memory store never fills the default in, so they are `Option`s in the
    stored record too: `None` is a property that is `undefined`. */
module Schema {
  import opened Options

  /** Milliseconds since the epoch (a JavaScript `Date`). */
  type Timestamp = int

  /** A `numeric(10, 2)` column travels as its decimal text. */
  type Numeric = string

  /** A `json` column is opaque: its serialised text. */
  type Json = string

  datatype User = User(
    id: int,
    username: string,
    password: string,
    email: string,
    fullName: string,
    isOrganizer: Option<bool>)

  datatype InsertUser = InsertUser(
    username: string,
    password: string,
    email: string,
    fullName: string,
    isOrganizer: Option<bool>)

  datatype Event = Event(
    id: int,
    title: string,
    description: string,
    imageUrl: string,
    date: Timestamp,
    location: string,
    address: string,
    organizedById: int,
    featured: Option<bool>,
    tags: seq<string>)

  datatype InsertEvent = InsertEvent(
    title: string,
    description: string,
    imageUrl: string,
    date: Timestamp,
    location: string,
    address: string,
    organizedById: int,
    featured: Option<bool>,
    tags: seq<string>)

  datatype TicketType = TicketType(
    id: int,
    eventId: int,
    name: string,
    description: string,
    price: Numeric,
    available: int)

  datatype InsertTicketType = InsertTicketType(
    eventId: int,
    name: string,
    description: string,
    price: Numeric,
    available: int)

  /** `isHeadliner` is nullable as well as defaulted; `None` stands for
      both `null` and `undefined`. */
  datatype Performer = Performer(
    id: int,
    eventId: int,
    name: string,
    imageUrl: string,
    time: string,
    isHeadliner: Option<bool>)

  datatype InsertPerformer = InsertPerformer(
    eventId: int,
    name: string,
    imageUrl: string,
    time: string,
    isHeadliner: Option<bool>)

  /** No status, used or redeemed field exists: nothing about a ticket can
      record that it was scanned. */
  datatype Ticket = Ticket(
    id: int,
    userId: int,
    eventId: int,
    ticketTypeId: int,
    quantity: int,
    totalPrice: Numeric,
    purchaseDate: Timestamp,
    referenceNumber: string,
    paymentDetails: Json)

  /** Omits `id` and `purchaseDate`. */
  datatype InsertTicket = InsertTicket(
    userId: int,
    eventId: int,
    ticketTypeId: int,
    quantity: int,
    totalPrice: Numeric,
    referenceNumber: string,
    paymentDetails: Json)

  // ---------------------------------------------------------------------
  // Records from insert shapes (`{ ...insert, id }`) and back

  function UserOf(u: InsertUser, id: int): User {
    User(id, u.username, u.password, u.email, u.fullName, u.isOrganizer)
  }

  function InsertOfUser(u: User): InsertUser {
    InsertUser(u.username, u.password, u.email, u.fullName, u.isOrganizer)
  }

  function EventOf(e: InsertEvent, id: int): Event {
    Event(id, e.title, e.description, e.imageUrl, e.date, e.location, e.address,
          e.organizedById, e.featured, e.tags)
  }

  function InsertOfEvent(e: Event): InsertEvent {
    InsertEvent(e.title, e.description, e.imageUrl, e.date, e.location, e.address,
                e.organizedById, e.featured, e.tags)
  }

  function TicketTypeOf(t: InsertTicketType, id: int): TicketType {
    TicketType(id, t.eventId, t.name, t.description, t.price, t.available)
  }

  function InsertOfTicketType(t: TicketType): InsertTicketType {
    InsertTicketType(t.eventId, t.name, t.description, t.price, t.available)
  }

  function PerformerOf(p: InsertPerformer, id: int): Performer {
    Performer(id, p.eventId, p.name, p.imageUrl, p.time, p.isHeadliner)
  }

  function InsertOfPerformer(p: Performer): InsertPerformer {
    InsertPerformer(p.eventId, p.name, p.imageUrl, p.time, p.isHeadliner)
  }

  /** `{ ...insert, id, purchaseDate }`. */
  function TicketOf(t: InsertTicket, id: int, purchaseDate: Timestamp): Ticket {
    Ticket(id, t.userId, t.eventId, t.ticketTypeId, t.quantity, t.totalPrice,
           purchaseDate, t.referenceNumber, t.paymentDetails)
  }

  function InsertOfTicket(t: Ticket): InsertTicket {
    InsertTicket(t.userId, t.eventId, t.ticketTypeId, t.quantity, t.totalPrice,
                 t.referenceNumber, t.paymentDetails)
  }

  /** The insert shapes omit exactly `id` (and, for tickets, `purchaseDate`):
      a record is its insert shape plus those fields, and an insert shape
      survives the trip through a record unchanged. */
  lemma InsertShapesOmitOnlyServerFields()
    ensures forall u: InsertUser, id :: InsertOfUser(UserOf(u, id)) == u
    ensures forall u: User :: UserOf(InsertOfUser(u), u.id) == u
    ensures forall e: InsertEvent, id :: InsertOfEvent(EventOf(e, id)) == e
    ensures forall e: Event :: EventOf(InsertOfEvent(e), e.id) == e
    ensures forall t: InsertTicketType, id :: InsertOfTicketType(TicketTypeOf(t, id)) == t
    ensures forall t: TicketType :: TicketTypeOf(InsertOfTicketType(t), t.id) == t
    ensures forall p: InsertPerformer, id :: InsertOfPerformer(PerformerOf(p, id)) == p
    ensures forall p: Performer :: PerformerOf(InsertOfPerformer(p), p.id) == p
    ensures forall t: InsertTicket, id, d :: InsertOfTicket(TicketOf(t, id, d)) == t
    ensures forall t: Ticket :: TicketOf(InsertOfTicket(t), t.id, t.purchaseDate) == t
  {
  }

  // ---------------------------------------------------------------------
  // Request bodies and their validation

  /** A defaulted boolean property as it arrives in a JSON body: left out,
      `null`, a boolean, or some other JSON value. The insert schemas accept
      a left-out flag and a boolean; `null` only where the column is
      nullable; never another value. */
  datatype Flag = Missing | Null | Given(value: bool) | Mistyped

  /** The body property a client sends for a stored flag. */
  function FlagOf(o: Option<bool>): (f: Flag)
    ensures f.Given? <==> o.Some?
    ensures o.None? <==> f == Missing
    ensures f.Given? ==> f.value == o.value
  {
    if o.Some? then Given(o.value) else Missing
  }

  /** What an accepted flag stores: its boolean, or nothing. */
  function FlagValue(f: Flag): (o: Option<bool>)
    ensures o.Some? <==> f.Given?
    ensures o.Some? ==> FlagOf(o) == f
  {
    if f.Given? then Some(f.value) else None
  }

  /** A JSON request body for a user: every property may be missing. */
  datatype UserBody = UserBody(
    id: Option<int>,
    username: Option<string>,
    password: Option<string>,
    email: Option<string>,
    fullName: Option<string>,
    isOrganizer: Flag)

  datatype EventBody = EventBody(
    id: Option<int>,
    title: Option<string>,
    description: Option<string>,
    imageUrl: Option<string>,
    date: Option<Timestamp>,
    location: Option<string>,
    address: Option<string>,
    organizedById: Option<int>,
    featured: Flag,
    tags: Option<seq<string>>)

  datatype TicketTypeBody = TicketTypeBody(
    id: Option<int>,
    eventId: Option<int>,
    name: Option<string>,
    description: Option<string>,
    price: Option<Numeric>,
    available: Option<int>)

  datatype PerformerBody = PerformerBody(
    id: Option<int>,
    eventId: Option<int>,
    name: Option<string>,
    imageUrl: Option<string>,
    time: Option<string>,
    isHeadliner: Flag)

  datatype TicketBody = TicketBody(
    id: Option<int>,
    userId: Option<int>,
    eventId: Option<int>,
    ticketTypeId: Option<int>,
    quantity: Option<int>,
    totalPrice: Option<Numeric>,
    purchaseDate: Option<Timestamp>,
    referenceNumber: Option<string>,
    paymentDetails: Option<Json>)

  /** The body a client would send for a user, whatever it also says about
      `id`; likewise for the other shapes below. */
  function UserBodyOf(u: InsertUser, id: Option<int>): UserBody {
    UserBody(id, Some(u.username), Some(u.password), Some(u.email), Some(u.fullName), FlagOf(u.isOrganizer))
  }

  function EventBodyOf(e: InsertEvent, id: Option<int>): EventBody {
    EventBody(id, Some(e.title), Some(e.description), Some(e.imageUrl), Some(e.date),
              Some(e.location), Some(e.address), Some(e.organizedById), FlagOf(e.featured), Some(e.tags))
  }

  function TicketTypeBodyOf(t: InsertTicketType, id: Option<int>): TicketTypeBody {
    TicketTypeBody(id, Some(t.eventId), Some(t.name), Some(t.description), Some(t.price),
                   Some(t.available))
  }

  function PerformerBodyOf(p: InsertPerformer, id: Option<int>): PerformerBody {
    PerformerBody(id, Some(p.eventId), Some(p.name), Some(p.imageUrl), Some(p.time), FlagOf(p.isHeadliner))
  }

  /** The body a client would send for a ticket, whatever it also says about
      `id` and `purchaseDate`. */
  function TicketBodyOf(t: InsertTicket, id: Option<int>, date: Option<Timestamp>): TicketBody {
    TicketBody(id, Some(t.userId), Some(t.eventId), Some(t.ticketTypeId), Some(t.quantity),
               Some(t.totalPrice), date, Some(t.referenceNumber), Some(t.paymentDetails))
  }

  /** The insert-schema parse: it fails when a required (not-null, no
      default) property is missing, keeps defaulted properties optional, and
      strips the omitted ones. A defaulted flag of a not-null column must be
      left out or a boolean; `null` or another value fails the parse. Other
      type checks of property values are not part of this model. */
  function ParseUser(b: UserBody): (r: Option<InsertUser>)
    ensures r.Some? <==> && b.username.Some? && b.password.Some? && b.email.Some? && b.fullName.Some?
                         && (b.isOrganizer.Missing? || b.isOrganizer.Given?)
    ensures r.Some? ==> b == UserBodyOf(r.value, b.id)
  {
    if && b.username.Some? && b.password.Some? && b.email.Some? && b.fullName.Some?
       && (b.isOrganizer.Missing? || b.isOrganizer.Given?)
    then
      Some(InsertUser(b.username.value, b.password.value, b.email.value, b.fullName.value,
                      FlagValue(b.isOrganizer)))
    else None
  }

  function ParseEvent(b: EventBody): (r: Option<InsertEvent>)
    ensures r.Some? <==> && b.title.Some? && b.description.Some? && b.imageUrl.Some?
                         && b.date.Some? && b.location.Some? && b.address.Some?
                         && b.organizedById.Some? && b.tags.Some?
                         && (b.featured.Missing? || b.featured.Given?)
    ensures r.Some? ==> b == EventBodyOf(r.value, b.id)
  {
    if && b.title.Some? && b.description.Some? && b.imageUrl.Some? && b.date.Some?
       && b.location.Some? && b.address.Some? && b.organizedById.Some? && b.tags.Some?
       && (b.featured.Missing? || b.featured.Given?)
    then
      Some(InsertEvent(b.title.value, b.description.value, b.imageUrl.value, b.date.value,
                       b.location.value, b.address.value, b.organizedById.value,
                       FlagValue(b.featured), b.tags.value))
    else None
  }

  function ParseTicketType(b: TicketTypeBody): (r: Option<InsertTicketType>)
    ensures r.Some? <==> && b.eventId.Some? && b.name.Some? && b.description.Some?
                         && b.price.Some? && b.available.Some?
    ensures r.Some? ==> b == TicketTypeBodyOf(r.value, b.id)
  {
    if && b.eventId.Some? && b.name.Some? && b.description.Some? && b.price.Some?
       && b.available.Some?
    then
      Some(InsertTicketType(b.eventId.value, b.name.value, b.description.value,
                            b.price.value, b.available.value))
    else None
  }

  /** `isHeadliner` is nullable as well as defaulted, so `null` is accepted
      and stores no value, like a left-out flag. */
  function ParsePerformer(b: PerformerBody): (r: Option<InsertPerformer>)
    ensures r.Some? <==> && b.eventId.Some? && b.name.Some? && b.imageUrl.Some? && b.time.Some?
                         && !b.isHeadliner.Mistyped?
    ensures r.Some? ==> r.value.isHeadliner == FlagValue(b.isHeadliner)
    ensures r.Some? && !b.isHeadliner.Null? ==> b == PerformerBodyOf(r.value, b.id)
  {
    if b.eventId.Some? && b.name.Some? && b.imageUrl.Some? && b.time.Some? && !b.isHeadliner.Mistyped? then
      Some(InsertPerformer(b.eventId.value, b.name.value, b.imageUrl.value, b.time.value,
                           FlagValue(b.isHeadliner)))
    else None
  }

  function ParseTicket(b: TicketBody): (r: Option<InsertTicket>)
    ensures r.Some? <==> && b.userId.Some? && b.eventId.Some? && b.ticketTypeId.Some?
                         && b.quantity.Some? && b.totalPrice.Some?
                         && b.referenceNumber.Some? && b.paymentDetails.Some?
    ensures r.Some? ==> b == TicketBodyOf(r.value, b.id, b.purchaseDate)
  {
    if && b.userId.Some? && b.eventId.Some? && b.ticketTypeId.Some? && b.quantity.Some?
       && b.totalPrice.Some? && b.referenceNumber.Some? && b.paymentDetails.Some?
    then
      Some(InsertTicket(b.userId.value, b.eventId.value, b.ticketTypeId.value,
                        b.quantity.value, b.totalPrice.value, b.referenceNumber.value,
                        b.paymentDetails.value))
    else None
  }

  /** Parsing a complete ticket body yields its insert shape whatever `id` and
      `purchaseDate` it carries: neither can reach the store from a client. */
  lemma ParseTicketIgnoresServerFields(t: InsertTicket, id: Option<int>, date: Option<Timestamp>)
    ensures ParseTicket(TicketBodyOf(t, id, date)) == Some(t)
  {
  }

  /** The same round trip for the other four insert schemas: a complete
      body parses to exactly the insert shape it was made from. */
  lemma ParseRoundTrips(u: InsertUser, e: InsertEvent, tt: InsertTicketType, p: InsertPerformer, id: Option<int>)
    ensures ParseUser(UserBodyOf(u, id)) == Some(u)
    ensures ParseEvent(EventBodyOf(e, id)) == Some(e)
    ensures ParseTicketType(TicketTypeBodyOf(tt, id)) == Some(tt)
    ensures ParsePerformer(PerformerBodyOf(p, id)) == Some(p)
  {
  }

  /** Flags are type-checked: an otherwise complete body with a `null` or
      non-boolean `isOrganizer` or `featured` is rejected, as is a
      non-boolean `isHeadliner`; a `null` `isHeadliner` is accepted and
      stores no value. */
  lemma FlagsChecked(u: InsertUser, e: InsertEvent, p: InsertPerformer, id: Option<int>)
    ensures ParseUser(UserBodyOf(u, id).(isOrganizer := Null)).None?
    ensures ParseUser(UserBodyOf(u, id).(isOrganizer := Mistyped)).None?
    ensures ParseEvent(EventBodyOf(e, id).(featured := Null)).None?
    ensures ParseEvent(EventBodyOf(e, id).(featured := Mistyped)).None?
    ensures ParsePerformer(PerformerBodyOf(p, id).(isHeadliner := Mistyped)).None?
    ensures ParsePerformer(PerformerBodyOf(p, id).(isHeadliner := Null)) == Some(p.(isHeadliner := None))
  {
  }

  /** Likewise a client `id` never survives the user, event, ticket-type and
      performer parses. */
  lemma ParseIgnoresClientId(u: UserBody, e: EventBody, tt: TicketTypeBody, p: PerformerBody, id: Option<int>)
    ensures ParseUser(u.(id := id)) == ParseUser(u)
    ensures ParseEvent(e.(id := id)) == ParseEvent(e)
    ensures ParseTicketType(tt.(id := id)) == ParseTicketType(tt)
    ensures ParsePerformer(p.(id := id)) == ParsePerformer(p)
  {
  }

  // ---------------------------------------------------------------------
  // Partial updates (`{ ...record, ...patch }`)

  /** A PUT body for an event. It is passed to the store unvalidated, so it
      can carry any property of the record, `id` included. */
  datatype EventPatch = EventPatch(
    id: Option<int>,
    title: Option<string>,
    description: Option<string>,
    imageUrl: Option<string>,
    date: Option<Timestamp>,
    location: Option<string>,
    address: Option<string>,
    organizedById: Option<int>,
    featured: Option<bool>,
    tags: Option<seq<string>>)

  datatype TicketTypePatch = TicketTypePatch(
    id: Option<int>,
    eventId: Option<int>,
    name: Option<string>,
    description: Option<string>,
    price: Option<Numeric>,
    available: Option<int>)

  const NoEventChange := EventPatch(None, None, None, None, None, None, None, None, None, None)

  const NoTicketTypeChange := TicketTypePatch(None, None, None, None, None, None)

  function Override<T>(present: Option<T>, prior: T): T {
    if present.Some? then present.value else prior
  }

  function OverrideOption<T>(present: Option<T>, prior: Option<T>): Option<T> {
    if present.Some? then present else prior
  }

  /** Object spread: every property the patch has wins, every other property
      of the record is kept. */
  function MergeEvent(e: Event, p: EventPatch): Event {
    Event(Override(p.id, e.id), Override(p.title, e.title),
          Override(p.description, e.description), Override(p.imageUrl, e.imageUrl),
          Override(p.date, e.date), Override(p.location, e.location),
          Override(p.address, e.address), Override(p.organizedById, e.organizedById),
          OverrideOption(p.featured, e.featured), Override(p.tags, e.tags))
  }

  function MergeTicketType(t: TicketType, p: TicketTypePatch): TicketType {
    TicketType(Override(p.id, t.id), Override(p.eventId, t.eventId), Override(p.name, t.name),
               Override(p.description, t.description), Override(p.price, t.price),
               Override(p.available, t.available))
  }

  /** `{ ...p, ...q }`: properties of `q` win. */
  function ThenEvent(p: EventPatch, q: EventPatch): EventPatch {
    EventPatch(OverrideOption(q.id, p.id), OverrideOption(q.title, p.title),
               OverrideOption(q.description, p.description),
               OverrideOption(q.imageUrl, p.imageUrl), OverrideOption(q.date, p.date),
               OverrideOption(q.location, p.location), OverrideOption(q.address, p.address),
               OverrideOption(q.organizedById, p.organizedById),
               OverrideOption(q.featured, p.featured), OverrideOption(q.tags, p.tags))
  }

  /** The patch that carries every property of `e`. */
  function FullEventPatch(e: Event): EventPatch {
    EventPatch(Some(e.id), Some(e.title), Some(e.description), Some(e.imageUrl), Some(e.date),
               Some(e.location), Some(e.address), Some(e.organizedById), e.featured, Some(e.tags))
  }

  /** Laws of the spread merge: the empty patch changes nothing, applying a
      patch twice is applying it once, two merges in a row are one merge with
      the combined patch, and a patch carrying every property replaces the
      record (up to an absent `featured`, which spreads as nothing). */
  lemma MergeEventLaws(e: Event, p: EventPatch, q: EventPatch, e': Event)
    ensures MergeEvent(e, NoEventChange) == e
    ensures MergeEvent(MergeEvent(e, p), p) == MergeEvent(e, p)
    ensures MergeEvent(MergeEvent(e, p), q) == MergeEvent(e, ThenEvent(p, q))
    ensures e'.featured.Some? ==> MergeEvent(e, FullEventPatch(e')) == e'
    ensures e'.featured.None? ==> MergeEvent(e, FullEventPatch(e')) == e'.(featured := e.featured)
  {
  }

  /** Without an `id` property a merge keeps the record's identity. */
  lemma MergeKeepsIdentity(e: Event, p: EventPatch, t: TicketType, q: TicketTypePatch)
    ensures p.id.None? ==> MergeEvent(e, p).id == e.id
    ensures q.id.None? ==> MergeTicketType(t, q).id == t.id
    ensures MergeEvent(e, p).id == if p.id.Some? then p.id.value else e.id
  {
  }

  // ---------------------------------------------------------------------
  // Declared column constraints

  datatype TableName = Users | Events | TicketTypes | Performers | Tickets

  /** Column names, as the record properties spell them. */
  datatype Name =
    | Id | Username | Password | Email | FullName | IsOrganizer
    | Title | Description | ImageUrl | Date | Location | Address | OrganizedById | Featured | Tags
    | EventId | ItemName | Price | Available
    | Time | IsHeadliner
    | UserId | TicketTypeId | Quantity | TotalPrice | PurchaseDate | ReferenceNumber | PaymentDetails

  datatype Default = NoDefault | SerialDefault | FalseDefault | NowDefault

  datatype Column = Column(name: Name, notNull: bool, unique: bool, default: Default)

  /** A column value as the constraint checks see it; `Absent` is SQL NULL
      (a property that is `undefined` in the in-memory store). */
  datatype Value = Int(i: int) | Text(s: string) | Bool(b: bool) | TextList(l: seq<string>) | Absent

  /** The column declarations, in declaration order. A primary key is
      implicitly not null and unique. */
  function Columns(t: TableName): seq<Column> {
    match t
    case Users => [
      Column(Id, true, true, SerialDefault),
      Column(Username, true, true, NoDefault),
      Column(Password, true, false, NoDefault),
      Column(Email, true, true, NoDefault),
      Column(FullName, true, false, NoDefault),
      Column(IsOrganizer, true, false, FalseDefault)]
    case Events => [
      Column(Id, true, true, SerialDefault),
      Column(Title, true, false, NoDefault),
      Column(Description, true, false, NoDefault),
      Column(ImageUrl, true, false, NoDefault),
      Column(Date, true, false, NoDefault),
      Column(Location, true, false, NoDefault),
      Column(Address, true, false, NoDefault),
      Column(OrganizedById, true, false, NoDefault),
      Column(Featured, true, false, FalseDefault),
      Column(Tags, true, false, NoDefault)]
    case TicketTypes => [
      Column(Id, true, true, SerialDefault),
      Column(EventId, true, false, NoDefault),
      Column(ItemName, true, false, NoDefault),
      Column(Description, true, false, NoDefault),
      Column(Price, true, false, NoDefault),
      Column(Available, true, false, NoDefault)]
    case Performers => [
      Column(Id, true, true, SerialDefault),
      Column(EventId, true, false, NoDefault),
      Column(ItemName, true, false, NoDefault),
      Column(ImageUrl, true, false, NoDefault),
      Column(Time, true, false, NoDefault),
      Column(IsHeadliner, false, false, FalseDefault)]
    case Tickets => [
      Column(Id, true, true, SerialDefault),
      Column(UserId, true, false, NoDefault),
      Column(EventId, true, false, NoDefault),
      Column(TicketTypeId, true, false, NoDefault),
      Column(Quantity, true, false, NoDefault),
      Column(TotalPrice, true, false, NoDefault),
      Column(PurchaseDate, true, false, NowDefault),
      Column(ReferenceNumber, true, true, NoDefault),
      Column(PaymentDetails, true, false, NoDefault)]
  }

  /** The columns each insert schema omits. */
  function Omitted(t: TableName): set<Name> {
    if t == Tickets then {Id, PurchaseDate} else {Id}
  }

  /** A column an insert payload may leave out: nullable or defaulted, and
      not omitted from the insert shape altogether. */
  predicate OptionalOnInsert(t: TableName, c: Column) {
    c.name !in Omitted(t) && (!c.notNull || c.default != NoDefault)
  }

  /** Each insert schema omits only server-assigned columns: every omitted
      column has a default (the serial counter for `id`, the current time
      for `purchaseDate`), and both are declared. */
  lemma OmittedColumnsAreServerAssigned(t: TableName)
    ensures forall i :: 0 <= i < |Columns(t)| && Columns(t)[i].name in Omitted(t) ==>
      Columns(t)[i].default != NoDefault
    ensures Columns(t)[0] == Column(Id, true, true, SerialDefault)
    ensures t == Tickets ==> Columns(t)[6] == Column(PurchaseDate, true, false, NowDefault)
  {
  }

  /** The names a defaulted column may have. */
  predicate DefaultedName(n: Name) {
    n == IsOrganizer || n == Featured || n == IsHeadliner
  }

  /** The declared defaults make exactly `isOrganizer`, `featured` and
      `isHeadliner` optional on insert; all three default to false and only
      `isHeadliner` is also nullable. */
  lemma DeclaredDefaults(t: TableName)
    ensures forall i :: 0 <= i < |Columns(t)| && OptionalOnInsert(t, Columns(t)[i]) ==>
      Columns(t)[i].default == FalseDefault && DefaultedName(Columns(t)[i].name)
    ensures t == Users ==> Columns(t)[5] == Column(IsOrganizer, true, false, FalseDefault)
    ensures t == Events ==> Columns(t)[8] == Column(Featured, true, false, FalseDefault)
    ensures t == Performers ==> Columns(t)[5] == Column(IsHeadliner, false, false, FalseDefault)
  {
  }

  /** The names a unique column of table `t` may have. */
  predicate UniqueName(t: TableName, n: Name) {
    n == Id || (t == Users && (n == Username || n == Email)) || (t == Tickets && n == ReferenceNumber)
  }

  /** The only declared uniqueness outside the keys: username and email of
      a user, and a ticket's referenceNumber (which is also not null). */
  lemma DeclaredUniqueness(t: TableName)
    ensures forall i :: 0 <= i < |Columns(t)| && Columns(t)[i].unique ==> UniqueName(t, Columns(t)[i].name)
    ensures t == Users ==> Columns(t)[1] == Column(Username, true, true, NoDefault)
    ensures t == Users ==> Columns(t)[3] == Column(Email, true, true, NoDefault)
    ensures t == Tickets ==> Columns(t)[7] == Column(ReferenceNumber, true, true, NoDefault)
  {
  }

  // The record fields by column name

  function BoolValue(b: Option<bool>): Value {
    if b.Some? then Bool(b.value) else Absent
  }

  function UserField(u: User, n: Name): Value {
    match n
    case Id => Int(u.id)
    case Username => Text(u.username)
    case Password => Text(u.password)
    case Email => Text(u.email)
    case FullName => Text(u.fullName)
    case IsOrganizer => BoolValue(u.isOrganizer)
    case _ => Absent
  }

  function EventField(e: Event, n: Name): Value {
    match n
    case Id => Int(e.id)
    case Title => Text(e.title)
    case Description => Text(e.description)
    case ImageUrl => Text(e.imageUrl)
    case Date => Int(e.date)
    case Location => Text(e.location)
    case Address => Text(e.address)
    case OrganizedById => Int(e.organizedById)
    case Featured => BoolValue(e.featured)
    case Tags => TextList(e.tags)
    case _ => Absent
  }

  function TicketTypeField(t: TicketType, n: Name): Value {
    match n
    case Id => Int(t.id)
    case EventId => Int(t.eventId)
    case ItemName => Text(t.name)
    case Description => Text(t.description)
    case Price => Text(t.price)
    case Available => Int(t.available)
    case _ => Absent
  }

  function PerformerField(p: Performer, n: Name): Value {
    match n
    case Id => Int(p.id)
    case EventId => Int(p.eventId)
    case ItemName => Text(p.name)
    case ImageUrl => Text(p.imageUrl)
    case Time => Text(p.time)
    case IsHeadliner => BoolValue(p.isHeadliner)
    case _ => Absent
  }

  function TicketField(t: Ticket, n: Name): Value {
    match n
    case Id => Int(t.id)
    case UserId => Int(t.userId)
    case EventId => Int(t.eventId)
    case TicketTypeId => Int(t.ticketTypeId)
    case Quantity => Int(t.quantity)
    case TotalPrice => Text(t.totalPrice)
    case PurchaseDate => Int(t.purchaseDate)
    case ReferenceNumber => Text(t.referenceNumber)
    case PaymentDetails => Text(t.paymentDetails)
    case _ => Absent
  }

  /** The rows satisfy every declared not-null constraint. */
  predicate NotNullHolds<T>(rows: seq<T>, cols: seq<Column>, field: (T, Name) -> Value) {
    forall i, k :: 0 <= i < |rows| && 0 <= k < |cols| && cols[k].notNull ==>
      field(rows[i], cols[k].name) != Absent
  }

  /** The rows satisfy every declared unique constraint (NULLs never
      collide). */
  predicate UniqueHolds<T>(rows: seq<T>, cols: seq<Column>, field: (T, Name) -> Value) {
    forall i, j, k ::
      (0 <= i < j < |rows| && 0 <= k < |cols| && cols[k].unique && field(rows[i], cols[k].name) != Absent) ==>
        field(rows[i], cols[k].name) != field(rows[j], cols[k].name)
  }
}
