/** The repository layer. Every statement sent to the database may fail, as the script `faults` says: true for a
    failure, one entry a statement; an exhausted script means healthy. */
module Repository {
  import opened Model
  import opened Operations
  import opened Lists

  function OrNotFound<T>(found: Option<T>): Result<T> {
    if found.Some? then Ok(found.value) else Err(RecordNotFound)
  }

  function OrDuplicate(clash: bool): Result<()> {
    if clash then Err(DuplicateKey) else Ok(())
  }

  predicate Healthy(faults: seq<bool>) {
    forall i | 0 <= i < |faults| :: !faults[i]
  }

  /** A statement gave what the tables say, or it failed as scripted. */
  predicate Gave<T(==)>(r: Result<T>, expected: Result<T>, before: seq<bool>, after: seq<bool>) {
    && (r == expected || (r == Err(DatabaseFailure) && !Healthy(before)))
    && (Healthy(before) ==> Healthy(after))
  }

  class Store {
    var db: Db
    var faults: seq<bool>

    constructor (db: Db, faults: seq<bool>)
      ensures this.db == db && this.faults == faults
    {
      this.db, this.faults := db, faults;
    }

    method Fails() returns (failed: bool)
      modifies this`faults
      ensures failed ==> !Healthy(old(faults))
      ensures Healthy(old(faults)) ==> Healthy(faults)
    {
      failed := false;
      if faults != [] {
        failed := faults[0];
        faults := faults[1..];
      }
    }

    /** The statements that preload n associations; the first failure ends them. */
    method Preload(n: nat) returns (failed: bool)
      modifies this`faults
      ensures failed ==> !Healthy(old(faults))
      ensures Healthy(old(faults)) ==> Healthy(faults)
    {
      failed := false;
      for i := 0 to n
        invariant !failed
        invariant Healthy(old(faults)) ==> Healthy(faults)
      {
        failed := Fails();
        if failed { return; }
      }
    }

    // ----- transactions -----

    /** BEGIN; the result is what ROLLBACK goes back to. */
    method Begin() returns (r: Result<Db>)
      modifies this`faults
      ensures Gave(r, Ok(db), old(faults), faults)
    {
      var failed := Fails();
      r := if failed then Err(DatabaseFailure) else Ok(db);
    }

    /** COMMIT after a success, ROLLBACK after an error or when the COMMIT fails. */
    method End<T>(saved: Db, outcome: Result<T>) returns (r: Result<T>)
      modifies this
      ensures Gave(r, outcome, old(faults), faults) && (outcome.Err? ==> r == outcome)
      ensures db == if r.Ok? then old(db) else saved
    {
      r := outcome;
      if r.Ok? {
        var failed := Fails();
        if failed { r := Err(DatabaseFailure); }
      }
      if r.Err? { db := saved; }
    }

    // ----- reads -----

    method GetTenant(tenant: Id) returns (r: Result<Id>)
      modifies this`faults
      ensures Gave(r, if tenant in db.tenants then Ok(tenant) else Err(RecordNotFound), old(faults), faults)
    {
      var failed := Fails();
      r := if failed then Err(DatabaseFailure) else if tenant in db.tenants then Ok(tenant) else Err(RecordNotFound);
    }

    method GetUserByIDAndTenant(user: Id, tenant: Id) returns (r: Result<User>)
      modifies this`faults
      ensures Gave(r, OrNotFound(FindUser(db, user, tenant)), old(faults), faults)
    {
      var failed := Fails();
      r := if failed then Err(DatabaseFailure) else OrNotFound(FindUser(db, user, tenant));
    }

    method GetChannelByKey(tenant: Id, key: string) returns (r: Result<Id>)
      modifies this`faults
      ensures Gave(r, OrNotFound(FindChannel(db, tenant, key)), old(faults), faults)
    {
      var failed := Fails();
      r := if failed then Err(DatabaseFailure) else OrNotFound(FindChannel(db, tenant, key));
    }

    method FindActiveConversation(tenant: Id, customer: Id, channel: Id) returns (r: Result<Id>)
      modifies this`faults
      ensures Gave(r, OrNotFound(Operations.FindActiveConversation(db, tenant, customer, channel)), old(faults), faults)
    {
      var failed := Fails();
      if failed { return Err(DatabaseFailure); }
      r := OrNotFound(Operations.FindActiveConversation(db, tenant, customer, channel));
      if r.Err? { return; }
      failed := Preload(3);
      if failed { r := Err(DatabaseFailure); }
    }

    method FindTicketByConversation(tenant: Id, conversation: Id) returns (r: Result<Id>)
      modifies this`faults
      ensures Gave(r, OrNotFound(Operations.FindTicketByConversation(db, tenant, conversation)), old(faults), faults)
    {
      var failed := Fails();
      if failed { return Err(DatabaseFailure); }
      r := OrNotFound(Operations.FindTicketByConversation(db, tenant, conversation));
      if r.Err? { return; }
      failed := Preload(1);
      if failed { r := Err(DatabaseFailure); }
    }

    /** The conversation with its customer, channel and agent, its messages, and its ticket with the ticket's agent: a
        statement each, of which only a missing ticket is no error. */
    method GetConversationByID(tenant: Id, conversation: Id) returns (r: Result<Response>)
      modifies this`faults
      ensures Gave(r, GetConversation(db, tenant, conversation), old(faults), faults)
    {
      var failed := Fails();
      if failed { return Err(DatabaseFailure); }
      if FindConversation(db, tenant, conversation).None? { return Err(RecordNotFound); }
      var row := FindConversation(db, tenant, conversation).value;
      failed := Preload(3);
      if failed { return Err(DatabaseFailure); }
      failed := Fails();
      if failed { return Err(DatabaseFailure); }
      var messages := MessagesOf(db.messages, conversation);
      var found := FindTicketByConversation(tenant, conversation);
      if found.Err? && found.error != RecordNotFound { return Err(found.error); }
      var ticket: Option<Ticket>, ticketAgent: Option<User> := None, None;
      if found.Ok? {
        ticket := Lookup(db.tickets, found.value);
        if ticket.Some? { ticketAgent := Follow(db.users, ticket.value.agent); }
      }
      r := Ok(ConversationView(row, Lookup(db.customers, row.customer), Lookup(db.channels, row.channel),
                               Follow(db.users, row.agent), messages, ticket, ticketAgent));
    }

    method GetTicketByID(tenant: Id, ticket: Id) returns (r: Result<Response>)
      modifies this`faults
      ensures Gave(r, GetTicket(db, tenant, ticket), old(faults), faults)
    {
      var failed := Fails();
      if failed { return Err(DatabaseFailure); }
      r := GetTicket(db, tenant, ticket);
      if r.Err? { return; }
      failed := Preload(1);
      if failed { r := Err(DatabaseFailure); }
    }

    /** ListConversations and ListTickets: a count, a page query and the preloads. A limit of zero means 20 here too. */
    method List(query: Query) returns (r: Result<(seq<Row>, nat)>)
      modifies this`faults
      ensures var q := if query.limit == 0 then query.(limit := 20) else query;
              Gave(r, Ok((Page(db, q), Total(db, q))), old(faults), faults)
    {
      var q := query;
      if q.limit == 0 { q := q.(limit := 20); }
      var failed := Fails();
      if failed { return Err(DatabaseFailure); }
      var total := Total(db, q);
      failed := Fails();
      if failed { return Err(DatabaseFailure); }
      failed := Preload(if q.ConversationQuery? then 3 else 1);
      if failed { return Err(DatabaseFailure); }
      r := Ok((Page(db, q), total));
    }

    // ----- writes -----

    /** Loads the customer and brings its name up to date, or inserts it. */
    method GetOrCreateCustomer(tenant: Id, externalId: string, name: string, newId: Id) returns (r: Result<Customer>)
      modifies this
      ensures var (row, w) := CustomerFor(old(db), tenant, externalId, name, newId);
              && Gave(r, if w.Insert? && newId in old(db).customers then Err(DuplicateKey) else Ok(row),
                      old(faults), faults)
              && db == if r.Ok? then old(db).(customers := Put(old(db).customers, w)) else old(db)
    {
      var failed := Fails();
      if failed { return Err(DatabaseFailure); }
      var found := FindCustomer(db, tenant, externalId);
      if found.Some? {
        var customer := db.customers[found.value];
        if name != "" && customer.name != name {
          customer := customer.(name := name);
          failed := Fails();
          if failed { return Err(DatabaseFailure); }
          db := db.(customers := db.customers[found.value := customer]);
        }
        return Ok(customer);
      }
      failed := Fails();
      if failed { return Err(DatabaseFailure); }
      if newId in db.customers { return Err(DuplicateKey); }
      var customer := Customer(newId, tenant, externalId, if name == "" then externalId else name);
      db := db.(customers := db.customers[newId := customer]);
      r := Ok(customer);
    }

    method CreateConversation(row: Conversation) returns (r: Result<()>)
      modifies this
      ensures Gave(r, OrDuplicate(row.id in old(db).conversations), old(faults), faults)
      ensures db == if r.Ok? then old(db).(conversations := old(db).conversations[row.id := row]) else old(db)
    {
      var failed := Fails();
      if failed { return Err(DatabaseFailure); }
      if row.id in db.conversations { return Err(DuplicateKey); }
      db := db.(conversations := db.conversations[row.id := row]);
      r := Ok(());
    }

    method SaveConversation(row: Conversation) returns (r: Result<()>)
      modifies this
      ensures Gave(r, Ok(()), old(faults), faults)
      ensures db == if r.Ok? then old(db).(conversations := old(db).conversations[row.id := row]) else old(db)
    {
      var failed := Fails();
      if failed { return Err(DatabaseFailure); }
      db := db.(conversations := db.conversations[row.id := row]);
      r := Ok(());
    }

    method CreateMessage(message: Message) returns (r: Result<()>)
      modifies this
      ensures Gave(r, OrDuplicate(MessageIdTaken(old(db), message.id)), old(faults), faults)
      ensures db == if r.Ok? then old(db).(messages := old(db).messages + [message]) else old(db)
    {
      var failed := Fails();
      if failed { return Err(DatabaseFailure); }
      if MessageIdTaken(db, message.id) { return Err(DuplicateKey); }
      db := db.(messages := db.messages + [message]);
      r := Ok(());
    }

    method CreateTicket(row: Ticket) returns (r: Result<()>)
      modifies this
      ensures Gave(r, OrDuplicate(TicketKeyTaken(old(db), row.id, row.conversation)), old(faults), faults)
      ensures db == if r.Ok? then old(db).(tickets := old(db).tickets[row.id := row]) else old(db)
    {
      var failed := Fails();
      if failed { return Err(DatabaseFailure); }
      if TicketKeyTaken(db, row.id, row.conversation) {
        return Err(DuplicateKey);
      }
      db := db.(tickets := db.tickets[row.id := row]);
      r := Ok(());
    }

    method SaveTicket(row: Ticket) returns (r: Result<()>)
      modifies this
      ensures Gave(r, Ok(()), old(faults), faults)
      ensures db == if r.Ok? then old(db).(tickets := old(db).tickets[row.id := row]) else old(db)
    {
      var failed := Fails();
      if failed { return Err(DatabaseFailure); }
      db := db.(tickets := db.tickets[row.id := row]);
      r := Ok(());
    }

    method CreateActivityLog(tenant: Id, event: Event) returns (r: Result<()>)
      modifies this
      ensures Gave(r, Ok(()), old(faults), faults)
      ensures db == if r.Ok? then old(db).(activity := old(db).activity + [ActivityLog(tenant, event)]) else old(db)
    {
      var failed := Fails();
      if failed { return Err(DatabaseFailure); }
      db := db.(activity := db.activity + [ActivityLog(tenant, event)]);
      r := Ok(());
    }

    method CreateOutboxEvent(row: OutboxEvent) returns (r: Result<()>)
      modifies this
      ensures Gave(r, Ok(()), old(faults), faults)
      ensures db == if r.Ok? then old(db).(outbox := old(db).outbox + [row]) else old(db)
    {
      var failed := Fails();
      if failed { return Err(DatabaseFailure); }
      db := db.(outbox := db.outbox + [row]);
      r := Ok(());
    }
  }
}
