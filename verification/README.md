# Partier: a Dafny model of the ticketing core

Partier is a nightlife event-ticketing web application. Its core is:

- an in-memory repository, `MemStorage`. It keeps users, events, ticket types, performers and tickets in five `Map`s. Each map is keyed by an id taken from a per-table counter.
- the Express route handlers in front of the repository. They validate request bodies against the insert schemas, check path ids, and produce status codes and payloads.
- the declared database schema. It gives the record shapes, the insert shapes, the not-null and unique constraints and the column defaults.
- two pieces of client logic. One is the ticket scanner page, a small state machine that looks a ticket up by its reference. The other is the category filter of the discover page.

This project models that core in Dafny and proves properties of the model.

| file | module | what it models |
|---|---|---|
| `options.dfy` | `Options` | optional values, and JavaScript truthiness of an optional string |
| `seqs.dfy` | `Seqs` | subsequences, order-preserving filtering, first-match search |
| `tables.dfy` | `Tables` | a `Map<number, T>` as its entries in insertion order: `get`, `set`, `delete`, `values()` |
| `decimal.dfy` | `Decimal` | the decimal text of a natural number (`Number.prototype.toString`) and reading it back |
| `reference.dfy` | `Reference` | the `TIX` + five-digit ticket reference the purchase route generates |
| `schema.dfy` | `Schema` | records, insert shapes, request bodies, body validation, object-spread merges, column declarations and the constraint predicates |
| `storage.dfy` | `Storage` | `MemStorage`: the store, every operation on it, and the seeded starting state |
| `routes.dfy` | `Routes` | one function per route handler |
| `server.dfy` | `Server` | request dispatch, and runs of many requests |
| `properties.dfy` | `Properties` | properties across several requests: uniqueness, duplicate references, login, the PUT routes as written |
| `scanner.dfy` | `Scanner` | the scanner page's state, its actions, its three queries and the view it shows |
| `discover.dfy` | `Discover` | the discover page's category filter |

Three modelling choices run through the project:

- The store is an immutable value. Every repository operation and every mutating route returns the new store together with its result.
- The random draw and the clock become parameters. `Math.random()` becomes a draw `k` in `[0, 90000)`, and the reference is `"TIX"` followed by the decimal text of `10000 + k`. `new Date()` becomes a timestamp argument `now`.
- A decoded request part becomes an `Option`. `parseInt` of a path parameter gives `None` for `NaN`. A required body property that is missing, or of the wrong type for the zod schema, is `None`, and the parse fails. A defaulted boolean property (`isOrganizer`, `featured`, `isHeadliner`) is a `Flag`: left out, `null`, a boolean, or another value. The parse accepts a left-out flag and a boolean, accepts `null` only for the nullable `isHeadliner`, and rejects any other value.

## Model

| member | source | states |
|---|---|---|
| `Tables.Get` | server/storage.ts:86-88 | `map.get(k)` finds a value stored under `k` exactly when `k` is a key, and nothing otherwise |
| `Tables.GetFirstEntry` | server/storage.ts:86-88 | the value `map.get(k)` finds is that of the first entry with key `k` |
| `Tables.Set` | server/storage.ts:105 | `map.set(k, v)` makes `k` a key that maps to `v` and changes no other key's lookup; an absent key is appended, a present one is overwritten in place with every key kept in position |
| `Tables.Delete` | server/storage.ts:139 | `map.delete(k)` removes exactly the key `k`; every other lookup is unchanged and the remaining entries keep their order |
| `Tables.AppendFresh` | server/storage.ts:103-105 | storing under the current counter appends, keeps keys ascending and below the incremented counter, and keeps ids equal to keys |
| `Tables.OverwriteEntry` | server/storage.ts:133-134 | overwriting a present key keeps the table well keyed; ids stay equal to keys only when the new value carries that key as its id |
| `Tables.DeleteKeeps` | server/storage.ts:139 | deleting leaves exactly the rows of the other keys, each as it was, and keeps the table well keyed and its ids equal to its keys |
| `Seqs.FindIndexAppend` | server/storage.ts:201-203 | `find` on a list whose earlier part already has a match is not affected by anything appended after it |
| `Decimal.ValueShow` | server/routes.ts:273 | reading back the decimal text of `n` gives `n` |
| `Decimal.ShowValue` | server/routes.ts:273 | a digit string without a leading zero is the decimal text of its own value |
| `Decimal.ShowLength` | server/routes.ts:273 | a number in `[10^(k-1), 10^k)` has exactly `k` digits, so every draw gives five digits |
| `Reference.Generate` | server/routes.ts:273-274 | the generated reference is `TIX` followed by exactly five digits, the first of them non-zero |
| `Reference.DrawOfGenerate` | server/routes.ts:273-274 | the draw can be read back out of its reference |
| `Reference.GenerateDrawOf` | server/routes.ts:273-274 | every well-formed reference is generated by exactly one draw, so the generator's range is exactly the well-formed references |
| `Reference.SameReferenceIffSameDraw` | server/routes.ts:272-274 | two purchases get the same reference if and only if their draws are equal; nothing else keeps references apart |
| `Reference.SeedReferenceNotGenerated` | server/storage.ts:433 | the seeded reference `NEO-1234567890` is not well formed, so no purchase can collide with it |
| `Schema.InsertShapesOmitOnlyServerFields` | shared/schema.ts:78-81 | each insert shape is its record minus `id` (and, for a ticket, `purchaseDate`): both directions of the conversion are inverse |
| `Schema.ParseUser` | shared/schema.ts:15-17 | the user insert schema accepts a body exactly when `username`, `password`, `email` and `fullName` are present and `isOrganizer` is left out or a boolean (`null` and other values are rejected); what it produces is the body's own values, every property but `id` |
| `Schema.ParseEvent` | shared/schema.ts:33-35 | the event insert schema accepts a body exactly when every non-defaulted column is present and `featured` is left out or a boolean (`null` and other values are rejected); what it produces is the body's own values, every property but `id` |
| `Schema.ParseTicketType` | shared/schema.ts:47-49 | the ticket-type insert schema accepts a body exactly when all five columns are present; what it produces is the body's own values, every property but `id` |
| `Schema.ParsePerformer` | shared/schema.ts:61-63 | the performer insert schema accepts a body exactly when the four required columns are present and `isHeadliner` is left out, `null` or a boolean; `null` stores no value, and otherwise what it produces is the body's own values, every property but `id` |
| `Schema.ParseTicket` | shared/schema.ts:78-81 | the ticket insert schema accepts a body exactly when every column except `id` and `purchaseDate` is present; what it produces is the body's own values, every property but those two |
| `Schema.ParseTicketIgnoresServerFields` | shared/schema.ts:78-81 | a complete ticket body parses to its insert shape whatever `id` and `purchaseDate` it carries |
| `Schema.ParseRoundTrips` | shared/schema.ts:15-63 | conversely, a complete user, event, ticket-type or performer body parses to exactly the insert shape it was made from, whatever `id` it carries |
| `Schema.FlagsChecked` | shared/schema.ts:12-63 | a complete body with a `null` or non-boolean `isOrganizer` or `featured` is rejected, as is a non-boolean `isHeadliner`, while a `null` `isHeadliner` is accepted and stores no value |
| `Schema.ParseIgnoresClientId` | shared/schema.ts:15-63 | a client-supplied `id` never changes what the other insert schemas produce |
| `Schema.MergeEventLaws` | server/storage.ts:133 | the spread merge: the empty patch changes nothing, a patch applied twice is applied once, two patches in a row are one combined patch, and a full patch replaces the record |
| `Schema.MergeKeepsIdentity` | server/storage.ts:133 | after a merge, the record's `id` is the patch's `id` if the patch has one, and otherwise the old one |
| `Schema.OmittedColumnsAreServerAssigned` | shared/schema.ts:66-81 | every column an insert schema omits is server-assigned: the serial key `id`, and a ticket's `purchaseDate` with its `defaultNow` |
| `Schema.DeclaredDefaults` | shared/schema.ts:12 | the only columns an insert payload may leave out are `isOrganizer`, `featured` and `isHeadliner`, each with default `false` |
| `Schema.DeclaredUniqueness` | shared/schema.ts:6-13 | besides the keys, the only unique columns are a user's `username` and `email` and a ticket's `referenceNumber` |
| `Storage.Empty` | server/storage.ts:69-80 | the constructor starts with empty maps and every counter at 1, which satisfies the invariant |
| `Storage.CreateUser` | server/storage.ts:102-107 | the user gets the current counter as id and is stored under it; the counter advances by one; nothing else changes |
| `Storage.CreateEvent` | server/storage.ts:122-127 | the same for events |
| `Storage.CreateTicketType` | server/storage.ts:153-158 | the same for ticket types |
| `Storage.CreatePerformer` | server/storage.ts:176-181 | the same for performers |
| `Storage.CreateTicket` | server/storage.ts:206-215 | the same for tickets; the payload is stored as given with the clock reading as `purchaseDate` |
| `Storage.UpdateEvent` | server/storage.ts:129-136 | a missing id changes nothing; otherwise the merged event is stored under the same key, with no other lookup and no key changed |
| `Storage.UpdateTicketType` | server/storage.ts:160-167 | the same for ticket types |
| `Storage.DeleteEvent` | server/storage.ts:138-140 | returns true exactly when the id was present; removes only that key, and leaves dependent rows and counters alone |
| `Storage.GetFeaturedEvents` | server/storage.ts:118-120 | exactly the events whose `featured` is `true`, each as often as it is stored, in entry order; ascending by id while event ids match their keys |
| `Storage.GetEventsByOrganizer` | server/storage.ts:218-222 | exactly the events of that organizer, each as often as it is stored, in entry order; ascending by id while that table's ids match its keys |
| `Storage.GetTicketTypesByEvent` | server/storage.ts:143-147 | exactly the ticket types of that event, each as often as it is stored, in entry order; ascending by id while that table's ids match its keys |
| `Storage.GetPerformersByEvent` | server/storage.ts:170-174 | exactly the performers of that event, each as often as it is stored, in entry order; ascending by id while that table's ids match its keys |
| `Storage.GetTicketsByUser` | server/storage.ts:184-188 | exactly the tickets of that user, each as often as it is stored, in entry order; ascending by id while that table's ids match its keys |
| `Storage.GetTicketsByEvent` | server/storage.ts:190-194 | exactly the tickets of that event, each as often as it is stored, in entry order; ascending by id while that table's ids match its keys |
| `Storage.FirstMatch` | server/storage.ts:90-94 | `find` over the values: nothing exactly when no value matches, otherwise the value of the first matching entry in entry order, which is also the smallest matching id while the table's ids match its keys |
| `Storage.GetUserByUsername` | server/storage.ts:90-94 | nothing exactly when no user has the username, otherwise the first such user in entry order, the oldest while user ids match their keys |
| `Storage.GetUserByEmail` | server/storage.ts:96-100 | nothing exactly when no user has the email, otherwise the first such user in entry order, the oldest while user ids match their keys |
| `Storage.GetTicketByReference` | server/storage.ts:200-204 | nothing exactly when no ticket carries the reference, otherwise the first ticket in entry order that does, the oldest while ticket ids match their keys |
| `Storage.ReferenceLookupAppend` | server/storage.ts:200-215 | a ticket created after one that already carries a reference does not change what the lookup answers |
| `Storage.InitialState` | server/storage.ts:225-443 | after seeding, the store is valid with ids equal to keys, each counter is one past its seeded rows, and the one seeded ticket has key 1 and the `NEO-` reference |
| `Routes.PublicOmitsOnlyPassword` | server/routes.ts:28-30 | two users look the same in a response exactly when they differ at most in `password` |
| `Routes.Code` | server/routes.ts:18-264 | each status is sent as the code the handlers use (200, 201, 204, 400, 401, 404), and the success statuses are exactly those below 300 |
| `Routes.Register` | server/routes.ts:11-34 | an invalid body gives 400; a taken username or email gives 400 and no change; otherwise 201 with the new user minus the password, appended to the store |
| `Routes.Login` | server/routes.ts:36-56 | a missing or empty field gives 400; otherwise 200 exactly when the first user with that username has that password, with that user minus the password as the body, and 401 in every other case, an unknown username included |
| `Routes.ListEvents` | server/routes.ts:59-66 | 200 with the stored events as the repository lists them: every event once, in entry order |
| `Routes.ListFeaturedEvents` | server/routes.ts:68-75 | 200 with the repository's featured list: exactly the events whose `featured` is `true`, in entry order |
| `Routes.ShowEvent` | server/routes.ts:77-95 | 400 for a non-numeric id, 404 for an unknown one, otherwise 200 with the event stored under it |
| `Routes.PostEvent` | server/routes.ts:97-105 | 201 exactly when the body validates, with the new event appended; otherwise 400 and no change |
| `Routes.PutEventAsWritten` | server/routes.ts:107-126 | 400 for an unparsable id and 404 for an absent one, both with no change; 200 exactly when the id is present, with the unvalidated body merged into the event, stored under the same key, and returned |
| `Routes.PutEvent` | server/routes.ts:107-126 | the same route with the body's `id` dropped: 200 exactly when the id is present, with the merged event stored and returned and every other event unchanged; the returned event keeps its id, and the store keeps ids equal to keys |
| `Routes.DeleteEvent` | server/routes.ts:128-146 | 400, 404, or 204 with exactly that key removed; every other event is unchanged and nothing but the events table changes |
| `Routes.ListOrganizerEvents` | server/routes.ts:294-307 | 400 for a non-numeric id, otherwise 200 with the repository's list of exactly that organizer's events, in entry order |
| `Routes.ListTicketTypes` | server/routes.ts:148-161 | 400 for a non-numeric id, otherwise 200 with the repository's list of exactly that event's ticket types, in entry order |
| `Routes.PostTicketType` | server/routes.ts:163-171 | 201 exactly when the body validates, with the new ticket type appended; otherwise 400 and no change |
| `Routes.PutTicketTypeAsWritten` | server/routes.ts:173-192 | 400 and 404 with no change; 200 exactly when the id is present, with the unvalidated body merged into the ticket type, stored, and returned |
| `Routes.PutTicketType` | server/routes.ts:173-192 | the same route with the body's `id` dropped: 200 exactly when the id is present, with the merged ticket type stored and returned and every other one unchanged; the returned ticket type keeps its id, and ids stay equal to keys |
| `Routes.ListPerformers` | server/routes.ts:194-207 | 400 for a non-numeric id, otherwise 200 with the repository's list of exactly that event's performers, in entry order |
| `Routes.PostPerformer` | server/routes.ts:209-217 | 201 exactly when the body validates, with the new performer appended; otherwise 400 and no change |
| `Routes.ListUserTickets` | server/routes.ts:220-233 | 400 for a non-numeric id, otherwise 200 with the repository's list of exactly that user's tickets, in entry order |
| `Routes.ShowTicket` | server/routes.ts:235-253 | 400 for a non-numeric id, 404 for an unknown one, otherwise 200 with the ticket stored under it |
| `Routes.ShowTicketByReference` | server/routes.ts:255-268 | 404 exactly when no ticket carries the reference, otherwise 200 with the first ticket in entry order that does, the oldest while ticket ids match their keys |
| `Routes.WithReference` | server/routes.ts:277-280 | spreading the generated reference over the body replaces `referenceNumber` and nothing else |
| `Routes.PostTicket` | server/routes.ts:270-291 | 201 exactly when the six client fields are present; the ticket gets the next id, the clock reading and a well-formed `TIX` reference, and is appended; otherwise 400 and no change |
| `Routes.PostTicketIgnoresServerFields` | server/routes.ts:277-280 | whatever the client sends as `id`, `purchaseDate` or `referenceNumber` has no effect on a purchase |
| `Server.HandleStep` | server/routes.ts:11-307 | any single request, the PUT routes as written included, keeps the repository invariant, moves each counter up by at most one, leaves existing tickets unchanged, and leaves the store alone when it only reads |
| `Server.FailureLeavesStore` | server/routes.ts:11-268 | a request answered with an error code (300 or more) leaves the store exactly as it was, under both dispatches |
| `Server.HandleKeepsUserIds` | server/storage.ts:102-106 | every request keeps user ids equal to their keys, and only registration changes the users at all |
| `Server.RunKeepsInvariant` | server/storage.ts:102-215 | the same over any run of requests: the invariant holds, counters never decrease, and tickets are never altered |
| `Server.CorrectedKeepsIds` | server/routes.ts:115-116 | with the PUT routes dropping the body's `id`, one request also keeps every record's id equal to its key |
| `Server.RunCorrectedKeepsIds` | server/routes.ts:115-116 | the same over any run of requests |
| `Server.DeletedIdNeverReused` | server/storage.ts:122-140 | after an event is deleted, every event created later gets an id above the deleted one |
| `Server.NewKeysAboveCounter` | server/storage.ts:122-127 | every event key that appears during a run is at or above the counter at its start |
| `Properties.UsersUniqueIff` | shared/schema.ts:6-13 | the declared unique columns of `users` hold exactly when ids, usernames and emails are pairwise distinct |
| `Properties.RegisterKeepsLoginsDistinct` | server/routes.ts:15-26 | registering keeps ids, usernames and emails pairwise distinct, because both names are checked before creating; it needs only that user ids match their keys, which every request keeps (`Server.HandleKeepsUserIds`) |
| `Properties.RegisterKeepsUsersUnique` | server/routes.ts:15-26 | so registering keeps the declared uniqueness of the user columns |
| `Properties.RunKeepsUsersUnique` | server/routes.ts:11-34 | over any run of requests, the PUT routes as written included, the declared uniqueness of the user columns is kept |
| `Properties.SeedRunUsersUnique` | server/storage.ts:227-246 | so every run from the seeded store keeps the user columns unique |
| `Properties.SeedUsersUnique` | server/storage.ts:227-246 | the seeded users satisfy the declared uniqueness |
| `Properties.CreateUserBreaksUniqueness` | server/storage.ts:102-107 | the repository itself checks nothing: creating a second `johnsmith` breaks the declared uniqueness of `username` |
| `Properties.LoginIffCredentialsMatch` | server/routes.ts:40-52 | with distinct usernames, login succeeds exactly when a stored user has that username and password |
| `Properties.SeedUsersNotNull` | server/storage.ts:227-244 | the seeded users satisfy every declared not-null constraint |
| `Properties.RegisterLeavesDefaultUnset` | shared/schema.ts:12 | registering without `isOrganizer` succeeds but stores no value, so the declared not-null constraint fails afterwards |
| `Properties.SeedRegisterLeavesDefaultUnset` | server/routes.ts:26 | the same, from the seeded store |
| `Properties.LookupFindsPurchase` | server/routes.ts:270-291 | after a purchase whose reference was unused, looking the reference up returns exactly the purchased ticket |
| `Properties.PurchaseAppends` | server/storage.ts:206-215 | a purchase with a complete body appends its ticket under the counter, after which its reference is in use |
| `Properties.CollidingPurchaseBreaksUnique` | shared/schema.ts:74 | a purchase whose draw repeats a reference already in use is still accepted, and the tickets then violate the declared uniqueness of `referenceNumber` |
| `Properties.CollidingPurchaseKeepsLookup` | server/storage.ts:200-204 | after such a purchase the reference lookup still answers with the older ticket, so the new ticket cannot be found by its reference |
| `Properties.AppendKeepsShow` | server/routes.ts:255-268 | a ticket appended after one that already carries the reference does not change what the lookup route answers |
| `Properties.SharedReferenceBreaksUnique` | shared/schema.ts:74 | two tickets that share a reference violate the declared uniqueness |
| `Properties.OldestMatch` | server/storage.ts:200-204 | when no earlier ticket carries the reference and ticket `t` does, the lookup answers with `t` |
| `Properties.FirstPurchase` | server/storage.ts:425-443 | the seeded store's first purchase gets ticket id 2 and a `TIX` reference that differs from the seeded one, and leaves the seeded ticket alone |
| `Properties.AnyQuantityAccepted` | shared/schema.ts:71 | `quantity` only has to be present: zero or a negative number is stored as given |
| `Properties.RevalidationRepeats` | server/routes.ts:255-268 | tickets carry no redemption state: validating the same reference any number of times gives the same answer and leaves the store as it was |
| `Properties.PutEventBreaksIds` | server/routes.ts:115-116 | as written, a PUT body with `id: 99` leaves event 1 stored under key 1 but calling itself 99 |
| `Properties.PutTicketTypeBreaksIds` | server/routes.ts:181-182 | the same for ticket types |
| `Properties.PutIgnoresClientId` | server/routes.ts:115-116 | with the body's `id` dropped, the PUT routes ignore any client id |
| `Scanner.Step` | client/src/pages/scanner.tsx:56-121 | a scan result or a submitted non-empty code leaves the scanning view; typing edits the code only in the scanning view; scanning again returns to the first state; a query result sets the status only while a code is present. The scan handler is modelled, but the page renders no scanner component, so nothing calls it |
| `Scanner.StepKeepsInv` | client/src/pages/scanner.tsx:63-68 | outside the scanning view there is always a non-empty code, and every action keeps it so |
| `Scanner.Reachable` | client/src/pages/scanner.tsx:13-15 | every state reached from the first render keeps that invariant |
| `Scanner.StatusChangesWhileScanning` | client/src/pages/scanner.tsx:18-19 | typing enables the query, so the status can change before the code is submitted |
| `Scanner.ViewFor` | client/src/pages/scanner.tsx:93-219 | the scanner view exactly while scanning; otherwise "Ticket Validated" exactly on a success with all three records, "Invalid Ticket" exactly after an error, and a spinner in every other case |
| `Scanner.TicketQuery` | client/src/pages/scanner.tsx:17-43 | the ticket query returns a ticket only for a non-empty code, and that ticket carries the code and is in the store |
| `Scanner.EventQuery` | client/src/pages/scanner.tsx:45-48 | the event query returns the ticket's event exactly when the store has it |
| `Scanner.NeverValidatedAsWritten` | client/src/pages/scanner.tsx:50-53 | as written, the page never shows "Ticket Validated", and a successful lookup ends on a spinner |
| `Scanner.TicketTypeQuery` | client/src/pages/scanner.tsx:50-53 | the corrected ticket-type query returns the ticket's type exactly when the store has it |
| `Scanner.ValidatedIff` | client/src/pages/scanner.tsx:140 | with that query answered, a successful lookup shows "Ticket Validated" exactly when the ticket, its event and its ticket type are all in the store |
| `Scanner.LookupOutcome` | client/src/pages/scanner.tsx:17-43 | a lookup settles to success exactly when some ticket carries the code |
| `Scanner.SubmitThenLookup` | client/src/pages/scanner.tsx:105-124 | typing and submitting a code ends on "Ticket Validated" when its ticket, event and type exist, and on "Invalid Ticket" when no ticket carries the code |
| `Discover.Lower` | client/src/pages/discover.tsx:27 | lower-casing keeps the length, leaves no upper-case letter, turns each upper-case letter into its lower-case partner and keeps every other character |
| `Discover.LowerIdempotent` | client/src/pages/discover.tsx:27 | lower-casing a lower-cased string changes nothing |
| `Discover.FilterEvents` | client/src/pages/discover.tsx:25-28 | nothing while the list has not loaded; otherwise exactly the kept events, each as often as it was loaded, in their original order |
| `Discover.AllEventsKeepsAll` | client/src/pages/discover.tsx:26 | "All Events" returns the list exactly as loaded |
| `Discover.ChipsFilter` | client/src/pages/discover.tsx:23-28 | of the five chips the page offers, the first shows every event and each other chip shows exactly the events tagged with its own name |
| `Discover.FilterIdempotent` | client/src/pages/discover.tsx:25-28 | filtering twice by the same category is the same as filtering once |
| `Discover.CaseOfCategoryIrrelevant` | client/src/pages/discover.tsx:27 | for any category other than "All Events", the category's case does not affect the result |
| `Discover.WholeTagsOnly` | client/src/pages/discover.tsx:27 | tags are compared whole: "Festivals" does not select "Festival" and "DJ Sets" does not select "DJ", but any case of "festivals" selects "FESTIVALS" |

## Left out

- HTTP plumbing is left out: Express, JSON encoding, `createServer`, and the `try`/`catch` that answers 500 on a repository exception. The repository cannot throw here, so the 500 answers of the read routes are unreachable in the model.
- URL encoding is left out. The scanner puts the typed code into the request path without encoding it, so a code containing `?`, `#`, `/` or `%xx` reaches the server as a different string ("TIX12345?x" finds TIX12345). `Scanner.TicketQuery` looks the code up as typed.
- The interface `IStorage` is left out, because only `MemStorage` implements it.
- Types are left out beyond presence, except for the defaulted boolean flags. zod checks each property's JavaScript type; here a required body property is either present with a value of the right type or `None`, so a wrongly typed required property fails the parse just as a missing one does.
- `Routes.PutEventAsWritten`: the PUT body reaches the store without any validation, so it may carry a property of the wrong type (`{"featured": 1}` is stored, and is then truthy for the featured list), a `null` for a not-null column, or a property the record does not have, which every later read returns. The model's patch holds only well-typed optional properties, so none of these is expressed; only the `id` override is.
- `Routes.PutTicketTypeAsWritten`: the same for the ticket-type PUT body.
- `Schema.ParseEvent`: the event's `date` is a `timestamp` column, which the drizzle-zod insert schema checks as a `Date`. A JSON body can carry a date only as a string, so as written a JSON `POST /api/events` may well always fail validation. The model assumes the date arrives as a timestamp value and accepts it.
- `numeric` columns are kept as strings, as the repository keeps them. No decimal arithmetic happens in the core.
- Dates are integers (milliseconds). The seed's wall-clock times are read as UTC, and the clock is a parameter.
- Seed long descriptions and image URLs are left out; they are empty strings in `Storage.Initial`.
- Counter overflow is not modelled: ids are unbounded integers, while JavaScript numbers lose integer precision above 2^53.
- `Discover.Lower`: only ASCII letters are lower-cased. JavaScript's `toLowerCase` covers all of Unicode.
- React rendering, toasts, sounds and navigation of the scanner and discover pages are left out. The scanner's query data is modelled as a function of the current code and store; caching and refetch timing are left out.
- Concurrency is left out: requests are handled one at a time, as Node's single thread runs each handler to completion without awaiting anything but the in-memory store.
- The other client pages are not part of this model: the admin panel, event details, ticket confirmation, profile, the app shell, the navbar and the protected route.
- `randomUUID` is imported by the routes file but never used, so it is not modelled.

## Findings

| source | as written | input that shows it | evidently intended | confidence | as-written member | corrected member |
|---|---|---|---|---|---|---|
| server/routes.ts:115-116 | the PUT body goes to `updateEvent` unvalidated, and the spread at server/storage.ts:133 lets its `id` override the stored one; server/routes.ts:181-182 does the same for ticket types | `PUT /api/events/1` with body `{"id": 99}` on the seeded store: key 1 then holds an event whose `id` is 99, and `GET /api/events/99` answers 404 | the patch is a `Partial<InsertEvent>`, which has no `id`, so a record keeps the id it is stored under | not executed | `Properties.PutEventBreaksIds` | `Routes.PutEvent` |
| client/src/pages/scanner.tsx:50-53 | the ticket-type query requests `GET /api/ticket-types/:id`, but the server registers that path only for PUT (server/routes.ts:173), so the query never has data; the success panel needs it (client/src/pages/scanner.tsx:140) | any ticket reference that exists: the lookup succeeds, the status becomes success, and the page shows a spinner forever instead of "Ticket Validated" | a valid ticket shows "Ticket Validated" with its event and ticket type | not executed | `Scanner.NeverValidatedAsWritten` | `Scanner.ValidatedIff` |
