/** Properties of the server across several requests: the declared
    constraints the store keeps or breaks, duplicate ticket references, the
    seeded starting point, and the PUT routes as written. */
module Properties {
  import opened Options
  import opened Schema
  import opened Tables
  import Storage
  import Routes
  import Reference
  import Server

  // ---------------------------------------------------------------------
  // Declared uniqueness of users

  /** No two users share an id, a username or an email. */
  predicate DistinctLogins(users: seq<User>) {
    forall i, j :: 0 <= i < j < |users| ==>
      && users[i].id != users[j].id
      && users[i].username != users[j].username
      && users[i].email != users[j].email
  }

  /** The declared unique columns of `users` hold exactly when ids,
      usernames and emails are pairwise distinct. */
  lemma UsersUniqueIff(rows: seq<User>)
    ensures UniqueHolds(rows, Columns(Users), UserField) <==> DistinctLogins(rows)
  {
    var cols := Columns(Users);
    if UniqueHolds(rows, cols, UserField) {
      forall i, j | 0 <= i < j < |rows|
        ensures rows[i].id != rows[j].id
        ensures rows[i].username != rows[j].username
        ensures rows[i].email != rows[j].email
      {
        assert cols[0].unique && UserField(rows[i], cols[0].name) != Absent;
        assert cols[1].unique && UserField(rows[i], cols[1].name) != Absent;
        assert cols[3].unique && UserField(rows[i], cols[3].name) != Absent;
      }
    }
    if DistinctLogins(rows) {
      DeclaredUniqueness(Users);
      forall i, j, k | 0 <= i < j < |rows| && 0 <= k < |cols| && cols[k].unique &&
                       UserField(rows[i], cols[k].name) != Absent
        ensures UserField(rows[i], cols[k].name) != UserField(rows[j], cols[k].name)
      {
        assert UniqueName(Users, cols[k].name);
      }
    }
  }

  /** Appending a user whose id, username and email are all new keeps them
      pairwise distinct. */
  lemma AppendDistinct(users: seq<User>, u: User)
    requires DistinctLogins(users)
    requires forall i :: 0 <= i < |users| ==>
      users[i].id != u.id && users[i].username != u.username && users[i].email != u.email
    ensures DistinctLogins(users + [u])
  {
    var r := users + [u];
    forall i, j | 0 <= i < j < |r|
      ensures r[i].id != r[j].id && r[i].username != r[j].username && r[i].email != r[j].email
    {
      if j == |users| {
        assert r[j] == u && r[i] == users[i];
      } else {
        assert r[i] == users[i] && r[j] == users[j];
      }
    }
  }

  /** The register route keeps ids, usernames and emails pairwise
      distinct: it checks both names before creating, and the new id is
      above every stored one. */
  lemma RegisterKeepsLoginsDistinct(s: Storage.Store, b: UserBody)
    requires Storage.Valid(s) && KeysAre(s.users, Storage.UserId)
    requires DistinctLogins(Values(s.users))
    ensures DistinctLogins(Values(Routes.Register(s, b).0.users))
  {
    var r := Routes.Register(s, b);
    if r.1.status == Routes.Created {
      var u := UserOf(ParseUser(b).value, s.userIdCounter);
      ValuesAppend(s.users, Row(u.id, u));
      var vs := Values(s.users);
      forall i | 0 <= i < |vs|
        ensures vs[i].id != u.id && vs[i].username != u.username && vs[i].email != u.email
      {
        assert vs[i].id == s.users[i].key < s.userIdCounter;
      }
      AppendDistinct(vs, u);
    }
  }

  /** Hence the register route keeps the declared uniqueness of the user
      columns. */
  lemma RegisterKeepsUsersUnique(s: Storage.Store, b: UserBody)
    requires Storage.Valid(s) && KeysAre(s.users, Storage.UserId)
    requires UniqueHolds(Values(s.users), Columns(Users), UserField)
    ensures UniqueHolds(Values(Routes.Register(s, b).0.users), Columns(Users), UserField)
  {
    UsersUniqueIff(Values(s.users));
    RegisterKeepsLoginsDistinct(s, b);
    UsersUniqueIff(Values(Routes.Register(s, b).0.users));
  }

  /** Over any run of requests, the PUT routes as written included, the
      declared uniqueness of the user columns is kept: registration keeps
      it, and no other route writes users. */
  lemma {:induction false} RunKeepsUsersUnique(s: Storage.Store, steps: seq<Server.Step>)
    requires Server.Draws(steps)
    requires Storage.Valid(s) && KeysAre(s.users, Storage.UserId)
    requires UniqueHolds(Values(s.users), Columns(Users), UserField)
    ensures UniqueHolds(Values(Server.Run(s, steps).users), Columns(Users), UserField)
    decreases |steps|
  {
    if |steps| > 0 {
      var q := steps[0].request;
      var s1 := Server.Handle(s, q, steps[0].draw, steps[0].now).0;
      Server.HandleKeepsInvariant(s, q, steps[0].draw, steps[0].now);
      Server.HandleKeepsUserIds(s, q, steps[0].draw, steps[0].now);
      if q.Register? {
        RegisterKeepsUsersUnique(s, q.user);
      }
      RunKeepsUsersUnique(s1, steps[1..]);
    }
  }

  /** Hence every run from the seeded store keeps the user columns unique. */
  lemma SeedRunUsersUnique(steps: seq<Server.Step>)
    requires Server.Draws(steps)
    ensures UniqueHolds(Values(Server.Run(Storage.Initial(), steps).users), Columns(Users), UserField)
  {
    Storage.InitialState();
    SeedUsersUnique();
    RunKeepsUsersUnique(Storage.Initial(), steps);
  }

  /** The seeded users satisfy the declared uniqueness. */
  lemma SeedUsersUnique()
    ensures UniqueHolds(Values(Storage.Initial().users), Columns(Users), UserField)
  {
    var vs := Values(Storage.Initial().users);
    assert |vs| == 2;
    assert |vs[0].username| != |vs[1].username| && |vs[0].email| != |vs[1].email|;
    assert DistinctLogins(vs);
    UsersUniqueIff(vs);
  }

  /** `createUser` itself checks nothing: from the seeded store, creating a
      second `johnsmith` breaks the declared uniqueness of `username`. */
  lemma CreateUserBreaksUniqueness()
    ensures var s' := Storage.CreateUser(Storage.Initial(), InsertUser("johnsmith", "x", "x@example.com", "X", Some(false))).0;
      !UniqueHolds(Values(s'.users), Columns(Users), UserField)
  {
    var s := Storage.Initial();
    Storage.InitialState();
    var u := UserOf(InsertUser("johnsmith", "x", "x@example.com", "X", Some(false)), 3);
    var s' := Storage.CreateUser(s, InsertUser("johnsmith", "x", "x@example.com", "X", Some(false))).0;
    assert s'.users == s.users + [Row(3, u)];
    ValuesAppend(s.users, Row(3, u));
    var vs := Values(s'.users);
    assert vs[0].username == vs[2].username;
    assert !DistinctLogins(vs);
    UsersUniqueIff(vs);
  }

  /** With usernames distinct, login succeeds exactly for a matching
      username and password pair. */
  lemma LoginIffCredentialsMatch(s: Storage.Store, username: string, password: string)
    requires DistinctLogins(Values(s.users))
    requires username != "" && password != ""
    ensures Routes.Login(s, Some(username), Some(password)).status == Routes.Ok <==>
      exists i :: 0 <= i < |s.users| && s.users[i].val.username == username && s.users[i].val.password == password
  {
    var found := Storage.GetUserByUsername(s, username);
    if i :| 0 <= i < |s.users| && s.users[i].val.username == username && s.users[i].val.password == password {
      var j :| 0 <= j < |s.users| && s.users[j].val == found.value;
    }
  }

  /** The seeded users satisfy every declared not-null constraint. */
  lemma SeedUsersNotNull()
    ensures NotNullHolds(Values(Storage.Initial().users), Columns(Users), UserField)
  {
    var vs := Values(Storage.Initial().users);
    var cols := Columns(Users);
    forall i, k | 0 <= i < |vs| && 0 <= k < |cols| && cols[k].notNull
      ensures UserField(vs[i], cols[k].name) != Absent
    {
      assert vs[i].isOrganizer.Some?;
    }
  }

  /** The body of a registration that leaves `isOrganizer` out. */
  const NewUser := UserBody(None, Some("newuser"), Some("pw"), Some("new@example.com"), Some("New User"), Missing)

  /** Registration without `isOrganizer` stores the user without it: the
      declared default is never filled in, so the declared not-null
      constraint on `isOrganizer` fails afterwards. */
  lemma RegisterLeavesDefaultUnset(s: Storage.Store, b: UserBody)
    requires Storage.Valid(s)
    requires ParseUser(b).Some? && b.isOrganizer.Missing?
    requires forall i :: 0 <= i < |s.users| ==> s.users[i].val.username != b.username.value
    requires forall i :: 0 <= i < |s.users| ==> s.users[i].val.email != b.email.value
    ensures Routes.Register(s, b).1.status == Routes.Created
    ensures !NotNullHolds(Values(Routes.Register(s, b).0.users), Columns(Users), UserField)
  {
    var r := Routes.Register(s, b);
    var u := UserOf(ParseUser(b).value, s.userIdCounter);
    ValuesAppend(s.users, Row(u.id, u));
    var vs := Values(r.0.users);
    assert vs[|s.users|] == u;
    AbsentFlagBreaksNotNull(vs, |s.users|);
  }

  /** A user without `isOrganizer` violates the declared not-null
      constraints. */
  lemma AbsentFlagBreaksNotNull(rows: seq<User>, n: int)
    requires 0 <= n < |rows| && rows[n].isOrganizer.None?
    ensures !NotNullHolds(rows, Columns(Users), UserField)
  {
    var cols := Columns(Users);
    assert cols[5].notNull && cols[5].name == IsOrganizer;
    assert UserField(rows[n], cols[5].name) == Absent;
  }

  /** For instance, from the seeded store. */
  lemma SeedRegisterLeavesDefaultUnset()
    ensures Routes.Register(Storage.Initial(), NewUser).1.status == Routes.Created
    ensures !NotNullHolds(Values(Routes.Register(Storage.Initial(), NewUser).0.users), Columns(Users), UserField)
  {
    var s := Storage.Initial();
    Storage.InitialState();
    assert forall i :: 0 <= i < |s.users| ==> |s.users[i].val.username| != |NewUser.username.value|;
    assert forall i :: 0 <= i < |s.users| ==> |s.users[i].val.email| != |NewUser.email.value|;
    RegisterLeavesDefaultUnset(s, NewUser);
  }

  // ---------------------------------------------------------------------
  // Ticket purchase and reference lookup

  /** The body properties a purchase needs. */
  predicate Complete(b: TicketBody) {
    && b.userId.Some? && b.eventId.Some? && b.ticketTypeId.Some?
    && b.quantity.Some? && b.totalPrice.Some? && b.paymentDetails.Some?
  }

  /** No ticket of `s` carries `reference`. */
  predicate ReferenceUnused(s: Storage.Store, reference: string) {
    forall i :: 0 <= i < |s.tickets| ==> s.tickets[i].val.referenceNumber != reference
  }

  /** After a purchase whose reference was unused, looking the reference up
      finds exactly the ticket just bought. */
  lemma LookupFindsPurchase(s: Storage.Store, b: TicketBody, k: int, now: Timestamp)
    requires Reference.IsDraw(k)
    requires Storage.Valid(s) && Complete(b) && ReferenceUnused(s, Reference.Generate(k))
    ensures var r := Routes.PostTicket(s, b, k, now);
      && r.1.status == Routes.Created
      && Routes.ShowTicketByReference(r.0, Reference.Generate(k)) == Routes.Response(Routes.Ok, r.1.body)
  {
    var r := Routes.PostTicket(s, b, k, now);
    var t := r.1.body.ticket;
    var found := Storage.GetTicketByReference(r.0, Reference.Generate(k));
    assert r.0.tickets == s.tickets + [Row(t.id, t)];
    var j :| 0 <= j < |r.0.tickets| && r.0.tickets[j].val == found.value;
    assert j == |s.tickets|;
  }

  /** A purchase from a complete body on a valid store is created and
      appends its ticket, after which its reference is in use: a later
      purchase that draws the same number collides with it. */
  lemma PurchaseAppends(s: Storage.Store, b: TicketBody, k: int, now: Timestamp)
    requires Reference.IsDraw(k)
    requires Storage.Valid(s)
    requires Complete(b)
    ensures var r := Routes.PostTicket(s, b, k, now);
      && r.1.status == Routes.Created && r.1.body.TicketData?
      && Storage.Valid(r.0)
      && r.1.body.ticket.id == s.ticketIdCounter
      && r.1.body.ticket.referenceNumber == Reference.Generate(k)
      && r.0.tickets == s.tickets + [Row(r.1.body.ticket.id, r.1.body.ticket)]
      && !ReferenceUnused(r.0, Reference.Generate(k))
  {
    var r := Routes.PostTicket(s, b, k, now);
    assert r.0.tickets[|s.tickets|].val.referenceNumber == Reference.Generate(k);
  }

  /** A purchase whose draw gives a reference already in use is still
      accepted (the route never checks for a collision), and the stored
      tickets then violate the declared uniqueness of `referenceNumber`. */
  lemma CollidingPurchaseBreaksUnique(s: Storage.Store, b: TicketBody, k: int, now: Timestamp)
    requires Reference.IsDraw(k)
    requires Storage.Valid(s) && Complete(b)
    requires !ReferenceUnused(s, Reference.Generate(k))
    ensures var r := Routes.PostTicket(s, b, k, now);
      && r.1.status == Routes.Created
      && !UniqueHolds(Values(r.0.tickets), Columns(Tickets), TicketField)
  {
    var r := Routes.PostTicket(s, b, k, now);
    PurchaseAppends(s, b, k, now);
    var i :| 0 <= i < |s.tickets| && s.tickets[i].val.referenceNumber == Reference.Generate(k);
    var n := |s.tickets|;
    var vs := Values(r.0.tickets);
    assert vs[i] == s.tickets[i].val by {
      assert r.0.tickets[i] == s.tickets[i];
    }
    assert vs[n] == r.1.body.ticket;
    SharedReferenceBreaksUnique(vs, i, n);
  }

  /** After a colliding purchase, looking the reference up still answers
      with the older ticket: the new one is unreachable by reference. */
  lemma CollidingPurchaseKeepsLookup(s: Storage.Store, b: TicketBody, k: int, now: Timestamp)
    requires Reference.IsDraw(k)
    requires Storage.Valid(s) && Complete(b)
    requires !ReferenceUnused(s, Reference.Generate(k))
    ensures var r := Routes.PostTicket(s, b, k, now);
      && r.1.status == Routes.Created
      && Routes.ShowTicketByReference(r.0, Reference.Generate(k)) == Routes.ShowTicketByReference(s, Reference.Generate(k))
  {
    var ref := Reference.Generate(k);
    var r := Routes.PostTicket(s, b, k, now);
    PurchaseAppends(s, b, k, now);
    var i :| 0 <= i < |s.tickets| && s.tickets[i].val.referenceNumber == ref;
    AppendKeepsShow(s, r.0, Row(r.1.body.ticket.id, r.1.body.ticket), ref, i);
  }

  /** A ticket appended after one that already carries the reference does
      not change what the lookup route answers. */
  lemma AppendKeepsShow(s: Storage.Store, s': Storage.Store, row: Row<Ticket>, reference: string, i: int)
    requires s'.tickets == s.tickets + [row]
    requires 0 <= i < |s.tickets| && s.tickets[i].val.referenceNumber == reference
    ensures Routes.ShowTicketByReference(s', reference) == Routes.ShowTicketByReference(s, reference)
  {
    Storage.ReferenceLookupAppend(s, s', row, reference, i);
  }

  /** Two tickets sharing a reference violate the declared uniqueness. */
  lemma SharedReferenceBreaksUnique(rows: seq<Ticket>, i: int, j: int)
    requires 0 <= i < j < |rows| && rows[i].referenceNumber == rows[j].referenceNumber
    ensures !UniqueHolds(rows, Columns(Tickets), TicketField)
  {
    var cols := Columns(Tickets);
    assert cols[7].unique && cols[7].name == ReferenceNumber;
    assert TicketField(rows[i], cols[7].name) == TicketField(rows[j], cols[7].name) != Absent;
  }

  /** When no ticket before `t` carries the reference and `t` does, the
      lookup answers with `t`. */
  lemma OldestMatch(s: Storage.Store, before: Table<Ticket>, reference: string, t: Ticket)
    requires Storage.Valid(s) && KeysAre(s.tickets, Storage.TicketId)
    requires |before| < |s.tickets| && s.tickets[..|before|] == before
    requires s.tickets[|before|].val == t && t.referenceNumber == reference
    requires forall i :: 0 <= i < |before| ==> before[i].val.referenceNumber != reference
    ensures Routes.ShowTicketByReference(s, reference) == Routes.Response(Routes.Ok, Routes.TicketData(t))
  {
    var found := Storage.GetTicketByReference(s, reference);
    var n := |before|;
    assert s.tickets[n].val.referenceNumber == reference;
    var j :| 0 <= j < |s.tickets| && Values(s.tickets)[j] == found.value;
    assert found.value.id <= s.tickets[n].key;
    assert s.tickets[j].key == found.value.id;
    assert j == n;
  }

  /** The seeded store's first purchase gets ticket id 2 and a `TIX`
      reference, which never equals the seeded ticket's. */
  lemma FirstPurchase(b: TicketBody, k: int, now: Timestamp)
    requires Reference.IsDraw(k) && Complete(b)
    ensures var r := Routes.PostTicket(Storage.Initial(), b, k, now);
      && r.1.status == Routes.Created
      && r.1.body.ticket.id == 2
      && Reference.WellFormed(r.1.body.ticket.referenceNumber)
      && r.1.body.ticket.referenceNumber != Storage.SeedReference
      && Storage.GetTicket(r.0, 1) == Storage.GetTicket(Storage.Initial(), 1)
  {
    Storage.InitialState();
    Reference.SeedReferenceNotGenerated();
  }

  /** `quantity` is only required to be present: zero or a negative number
      is stored as given. */
  lemma AnyQuantityAccepted(s: Storage.Store, b: TicketBody, k: int, now: Timestamp, q: int)
    requires Reference.IsDraw(k) && Complete(b)
    ensures var r := Routes.PostTicket(s, b.(quantity := Some(q)), k, now);
      r.1.status == Routes.Created && r.1.body.ticket.quantity == q
  {
  }

  /** A ticket carries no redemption state and the lookup route only reads,
      so validating the same reference again, any number of times, gives
      the same answer and leaves the store as it was. */
  lemma {:induction false} RevalidationRepeats(s: Storage.Store, reference: string, steps: seq<Server.Step>)
    requires Server.Draws(steps)
    requires Storage.Valid(s)
    requires forall i :: 0 <= i < |steps| ==> steps[i].request == Server.ShowTicketByReference(reference)
    ensures Server.Run(s, steps) == s
    ensures forall i :: 0 <= i < |steps| ==>
      Server.Handle(s, steps[i].request, steps[i].draw, steps[i].now).1 == Routes.ShowTicketByReference(s, reference)
    decreases |steps|
  {
    if |steps| > 0 {
      Server.HandleReads(s, steps[0].request, steps[0].draw, steps[0].now);
      RevalidationRepeats(s, reference, steps[1..]);
      assert forall i :: 1 <= i < |steps| ==> steps[i] == steps[1..][i - 1];
    }
  }

  // ---------------------------------------------------------------------
  // The PUT routes as written

  /** A PUT body whose `id` differs from the path id is merged into the
      stored event as is: the event is then stored under key 1 but calls
      itself 99, and a GET of /api/events/1 returns an event with id 99. */
  lemma PutEventBreaksIds()
    ensures Storage.IdsMatchKeys(Storage.Initial())
    ensures var r := Routes.PutEventAsWritten(Storage.Initial(), Some(1), NoEventChange.(id := Some(99)));
      && r.1.status == Routes.Ok
      && !Storage.IdsMatchKeys(r.0)
      && Routes.ShowEvent(r.0, Some(1)).body.event.id == 99
      && Routes.ShowEvent(r.0, Some(99)).status == Routes.NotFound
  {
    Storage.InitialState();
    var s := Storage.Initial();
    var r := Routes.PutEventAsWritten(s, Some(1), NoEventChange.(id := Some(99)));
    assert s.events[0].key == 1;
    GetAscending(s.events, 0);
    assert Storage.GetEvent(r.0, 1).value.id == 99;
    OverwriteEntry(s.events, s.eventIdCounter, 1, MergeEvent(s.events[0].val, NoEventChange.(id := Some(99))), Storage.EventId);
    SetAt(s.events, 0, MergeEvent(s.events[0].val, NoEventChange.(id := Some(99))));
    assert r.0.events[0].val.id == 99 && r.0.events[0].key == 1;
    assert 99 !in Keys(r.0.events);
  }

  /** The same for ticket types: key 1 ends up holding ticket type 99. */
  lemma PutTicketTypeBreaksIds()
    ensures var r := Routes.PutTicketTypeAsWritten(Storage.Initial(), Some(1), NoTicketTypeChange.(id := Some(99)));
      && r.1.status == Routes.Ok
      && !Storage.IdsMatchKeys(r.0)
  {
    Storage.InitialState();
    var s := Storage.Initial();
    var r := Routes.PutTicketTypeAsWritten(s, Some(1), NoTicketTypeChange.(id := Some(99)));
    assert s.ticketTypes[0].key == 1;
    var v := MergeTicketType(s.ticketTypes[0].val, NoTicketTypeChange.(id := Some(99)));
    SetAt(s.ticketTypes, 0, v);
    assert r.0.ticketTypes[0].val.id == 99 && r.0.ticketTypes[0].key == 1;
  }

  /** With the body's `id` dropped, the PUT routes ignore any client id. */
  lemma PutIgnoresClientId(s: Storage.Store, id: Option<int>, p: EventPatch, q: TicketTypePatch, x: Option<int>)
    ensures Routes.PutEvent(s, id, p.(id := x)) == Routes.PutEvent(s, id, p)
    ensures Routes.PutTicketType(s, id, q.(id := x)) == Routes.PutTicketType(s, id, q)
  {
    assert p.(id := x).(id := None) == p.(id := None);
    assert q.(id := x).(id := None) == q.(id := None);
  }
}
