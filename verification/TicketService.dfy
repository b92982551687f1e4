/** The ticket service, statement by statement. */
module TicketService {
  import opened Text
  import opened Model
  import opened Operations
  import opened Lists
  import opened CacheProtocol
  import opened CacheKeys
  import opened CacheClient
  import opened Repository
  import opened Services
  import opened CachedService

  class Service {
    const store: Store
    const cache: Client

    constructor (store: Store, cache: Client)
      ensures this.store == store && this.cache == cache
    {
      this.store, this.cache := store, cache;
    }

    // ----- EscalateConversation -----

    /** An unassigned conversation goes to the escalating agent. */
    method TakeOver(op: Op, row: Conversation, agent: Id) returns (r: Result<Conversation>)
      requires op.Escalate?
      modifies store
      ensures var taken := if row.agent.None? then TakenBy(row, agent).(updatedAt := op.stamp) else row;
              && Gave(r, Ok(taken), old(store.faults), store.faults)
              && store.db == if r.Ok? && row.agent.None?
                             then old(store.db).(conversations := old(store.db).conversations[row.id := taken])
                                 else old(store.db)
    {
      if row.agent.Some? { return Ok(row); }
      var taken := row.(agent := Some(agent), status := Assigned, updatedAt := op.stamp);
      var saved := store.SaveConversation(taken);
      if saved.Err? { return Err(saved.error); }
      r := Ok(taken);
    }

    /** The ticket and the two events. */
    method Open(tenant: Id, ticket: Ticket, agent: Id) returns (r: Result<()>)
      modifies store
      ensures Gave(r, OrDuplicate(TicketKeyTaken(old(store.db), ticket.id, ticket.conversation)), old(store.faults),
                store.faults)
      ensures var events := [Escalated(ticket.conversation, ticket.id, agent), TicketCreated(ticket)];
              r.Ok? ==> store.db == old(store.db).(
                tickets := old(store.db).tickets[ticket.id := ticket],
                activity := old(store.db).activity + Logged(tenant, events),
                outbox := old(store.db).outbox + Queued(tenant, events))
    {
      r := store.CreateTicket(ticket);
      if r.Err? { return; }
      r := AppendDomainEvent(store, tenant, Escalated(ticket.conversation, ticket.id, agent));
      if r.Err? { return; }
      r := AppendDomainEvent(store, tenant, TicketCreated(ticket));
      TwoAppends(tenant, Escalated(ticket.conversation, ticket.id, agent), TicketCreated(ticket));
    }

    /** The transaction of EscalateConversation, for an agent of the tenant. */
    method EscalateAs(op: Op, priority: Priority, agent: User) returns (r: Result<()>)
      requires op.Escalate? && TrimSpace(op.title) != "" && TrimSpace(op.description) != ""
      requires PriorityOrDefault(TrimSpace(op.priority)) == Some(priority)
      requires FindUser(store.db, op.agent, op.tenant) == Some(agent) && agent.role == ROLE_AGENT
      modifies store
      ensures Ran(old(store.db), store.db, op, r, old(store.faults), store.faults)
    {
      hide TrimSpace, PriorityOrDefault, TicketsOfConversation, MessagesOf, Lookup;
      var loaded := store.GetConversationByID(op.tenant, op.conversation);
      if loaded.Err? { return Err(loaded.error); }
      var row := loaded.value.conversation;
      if row.status == Closed { return Err(Error.ConversationClosed); }
      if row.agent.Some? && row.agent.value != agent.id { return Err(AssignedElsewhere); }
      var existing := store.FindTicketByConversation(op.tenant, op.conversation);
      if existing.Ok? { return Err(TicketExists); }
      if existing.error != RecordNotFound { return Err(existing.error); }

      var taken := TakeOver(op, row, agent.id);
      if taken.Err? { return Err(taken.error); }
      var ticket := Ticket(op.newTicket, op.tenant, taken.value.id, TrimSpace(op.title), TrimSpace(op.description),
                           TicketOpen, priority, taken.value.agent, op.stamp);
      r := Open(op.tenant, ticket, agent.id);
      assert old(store.db).messages + [] == old(store.db).messages;
    }

    method EscalateConversation(op: Op) returns (r: Result<Response>, committed: bool)
      requires op.Escalate?
      modifies store, cache
      ensures Completed(op, r, committed, old(store.db), store.db, old(store.faults), old(cache.entries), cache.entries)
      ensures Sound(old(store.db), old(cache.entries)) ==> Sound(store.db, cache.entries)
    {
      hide TrimSpace, Commit, VersionKey, GetTicket, Incremented;
      committed := false;
      if TrimSpace(op.title) == "" || TrimSpace(op.description) == "" { return Err(InvalidTicket), false; }
      var priority := PriorityOrDefault(TrimSpace(op.priority));
      if priority.None? { return Err(InvalidPriority), false; }
      var agent := store.GetUserByIDAndTenant(op.agent, op.tenant);
      if agent.Err? || agent.value.role != ROLE_AGENT { return Err(Forbidden), false; }

      var saved := store.Begin();
      if saved.Err? { return Err(saved.error), false; }
      var ran := EscalateAs(op, priority.value, agent.value);
      var done := store.End(saved.value, ran);
      if done.Err? { return Err(done.error), false; }
      BumpedTwo(cache.entries, op.tenant, Conversations, Tickets);
      cache.BumpVersion(op.tenant, Conversations);
      cache.BumpVersion(op.tenant, Tickets);
      r := store.GetTicketByID(op.tenant, op.newTicket);
      committed := true;
      if Sound(old(store.db), old(cache.entries)) {
        CompletedKeepsSound(op, r, committed, old(store.db), store.db, old(store.faults), old(cache.entries),
            cache.entries);
      }
    }

    // ----- UpdateStatus -----

    /** The transaction of UpdateStatus; any valid status may follow any other. */
    method SetStatus(op: Op, status: TicketStatus) returns (r: Result<()>)
      requires op.UpdateStatus? && op.actorRole == ROLE_ADMIN && FindUser(store.db, op.actor, op.tenant).Some?
      requires ParseTicketStatus(TrimSpace(op.statusText)) == Some(status)
      modifies store
      ensures Ran(old(store.db), store.db, op, r, old(store.faults), store.faults)
    {
      hide TrimSpace, ParseTicketStatus;
      var loaded := store.GetTicketByID(op.tenant, op.ticket);
      if loaded.Err? { return Err(loaded.error); }
      var row := loaded.value.ticketRow.(status := status, updatedAt := op.stamp);
      r := store.SaveTicket(row);
      if r.Err? { return; }
      r := AppendDomainEvent(store, op.tenant, StatusUpdated(row.id, row.status));
      assert old(store.db).messages + [] == old(store.db).messages;
    }

    method UpdateStatus(op: Op) returns (r: Result<Response>, committed: bool)
      requires op.UpdateStatus?
      modifies store, cache
      ensures Completed(op, r, committed, old(store.db), store.db, old(store.faults), old(cache.entries), cache.entries)
      ensures Sound(old(store.db), old(cache.entries)) ==> Sound(store.db, cache.entries)
    {
      hide TrimSpace, ParseTicketStatus, Commit, VersionKey, GetTicket, Incremented;
      committed := false;
      if op.actorRole != ROLE_ADMIN { return Err(Forbidden), false; }
      var actor := store.GetUserByIDAndTenant(op.actor, op.tenant);
      if actor.Err? { return Err(Forbidden), false; }
      var status := ParseTicketStatus(TrimSpace(op.statusText));
      if status.None? { return Err(InvalidStatus), false; }

      var saved := store.Begin();
      if saved.Err? { return Err(saved.error), false; }
      var ran := SetStatus(op, status.value);
      var done := store.End(saved.value, ran);
      if done.Err? { return Err(done.error), false; }
      BumpedOne(cache.entries, op.tenant, Tickets);
      cache.BumpVersion(op.tenant, Tickets);
      r := store.GetTicketByID(op.tenant, op.ticket);
      committed := true;
      if Sound(old(store.db), old(cache.entries)) {
        CompletedKeepsSound(op, r, committed, old(store.db), store.db, old(store.faults), old(cache.entries),
            cache.entries);
      }
    }

    // ----- ListTickets -----

    method ListTickets(tenant: Id, status: string, priority: string, agent: string, offset: int, limit: int)
      returns (r: Result<(seq<Row>, nat)>)
      modifies store`faults, cache
      ensures var q := TicketQuery(tenant, TrimSpace(status), TrimSpace(priority), TrimSpace(agent),
                                   NormalizeOffset(offset), NormalizeLimit(limit));
              && ListedAs(q, r, store.db, old(store.faults), store.faults, old(cache.entries), cache.entries)
              && (Sound(store.db, old(cache.entries)) && tenant in store.db.tenants ==>
                    && (r.Ok? ==> r.value == (Page(store.db, q), Total(store.db, q)))
                    && Sound(store.db, cache.entries))
    {
      hide TrimSpace, Page, Total, Sound, VersionKey, Joined, Decimal;
      var q := TicketQuery(tenant, TrimSpace(status), TrimSpace(priority), TrimSpace(agent), NormalizeOffset(offset),
                           NormalizeLimit(limit));
      var version := cache.Version(tenant, Tickets);
      var key := cache.Key(["tenant", tenant, "tickets", "v" + Decimal(version), "offset=" + Decimal(q.offset),
                            "limit=" + Decimal(q.limit), "status=" + q.status, "priority=" + q.priority,
                            "agent=" + q.agent]);
      assert key == ListKey(q, version) by {
        assert HeadParts(q, version) + FilterParts(q)
            == ["tenant", tenant, "tickets", "v" + Decimal(version), "offset=" + Decimal(q.offset),
                "limit=" + Decimal(q.limit), "status=" + q.status, "priority=" + q.priority, "agent=" + q.agent];
      }
      var hit := cache.GetJSON(key);
      if hit.Some? {
        r := Ok((hit.value.rows, hit.value.total));
      } else {
        r := store.List(q);
        if r.Ok? {
          cache.SetJSON(key, r.value.0, r.value.1);
        }
      }
      if Sound(store.db, old(cache.entries)) && tenant in store.db.tenants {
        ListedIsFresh(q, r, store.db, old(store.faults), store.faults, old(cache.entries), cache.entries);
      }
    }
  }
}
