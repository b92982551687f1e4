/** The conversation service, statement by statement. */
module ConversationService {
  import opened Text
  import opened Model
  import opened Operations
  import opened Lists
  import opened CacheProtocol
  import opened CacheKeys
  import opened CacheClient
  import opened Repository
  import opened Services
  import opened CachedService

  /** A customer is inserted under the new id, and only when its external id is not taken. */
  lemma NewCustomerIsNew(db: Db, tenant: Id, externalId: string, name: string, newId: Id)
    ensures var (row, w) := CustomerFor(db, tenant, externalId, name, newId);
            w.Insert? ==> w.id == newId && CustomersByExternalId(db, w.row.tenant, w.row.externalId) == {}
  {
  }

  lemma SameActive(db: Db, db': Db, tenant: Id, customer: Id, channel: Id)
    requires db.conversations == db'.conversations
    ensures FindActiveConversation(db, tenant, customer, channel)
              == FindActiveConversation(db', tenant, customer, channel)
  {
    assert ActiveConversations(db, tenant, customer, channel) == ActiveConversations(db', tenant, customer, channel);
  }

  class Service {
    const store: Store
    const cache: Client

    constructor (store: Store, cache: Client)
      ensures this.store == store && this.cache == cache
    {
      this.store, this.cache := store, cache;
    }

    // ----- HandleWebhook -----

    /** The active conversation, or a new one. */
    method StartOrContinue(tenant: Id, customer: Id, channel: Id, newId: Id)
      returns (r: Result<Conversation>, started: bool)
      modifies store
      ensures var active := FindActiveConversation(old(store.db), tenant, customer, channel);
              var row := if active.Some? then old(store.db).conversations[active.value]
                         else Conversation(newId, tenant, customer, channel, Open, None, 0);
              && Gave(r, if active.None? && newId in old(store.db).conversations then Err(DuplicateKey) else Ok(row),
                      old(store.faults), store.faults)
              && (r.Ok? ==>
                    && started == active.None? && (started ==> newId !in old(store.db).conversations)
                    && store.db == old(store.db).(
                         conversations := if started then old(store.db).conversations[newId := row]
                                          else old(store.db).conversations))
    {
      started := false;
      var active := store.FindActiveConversation(tenant, customer, channel);
      if active.Ok? {
        return Ok(store.db.conversations[active.value]), false;
      }
      if active.error != RecordNotFound { return Err(active.error), false; }
      var row := Conversation(newId, tenant, customer, channel, Open, None, 0);
      var created := store.CreateConversation(row);
      if created.Err? { return Err(created.error), false; }
      r, started := Ok(row), true;
    }

    /** The message, the conversation with its new time, and the events. */
    method Receive(tenant: Id, row: Conversation, message: Message, started: bool) returns (r: Result<()>)
      modifies store
      ensures Gave(r, OrDuplicate(MessageIdTaken(old(store.db), message.id)), old(store.faults), store.faults)
      ensures var events := if started then [Created(row), Received(message)] else [Received(message)];
              r.Ok? ==> store.db == old(store.db).(
                messages := old(store.db).messages + [message],
                conversations := old(store.db).conversations[row.id := row],
                activity := old(store.db).activity + Logged(tenant, events),
                outbox := old(store.db).outbox + Queued(tenant, events))
    {
      r := store.CreateMessage(message);
      if r.Err? { return; }
      r := store.SaveConversation(row);
      if r.Err? { return; }
      if started {
        r := AppendDomainEvent(store, tenant, Created(row));
        if r.Err? { return; }
        TwoAppends(tenant, Created(row), Received(message));
      }
      r := AppendDomainEvent(store, tenant, Received(message));
    }

    /** Everything after the lookups of tenant and channel. */
    method Deliver(op: Op, channel: Id) returns (r: Result<Id>)
      requires op.Webhook?
      modifies store
      ensures var change := IntakeChange(old(store.db), op, channel);
              && (r.Ok? ==>
                    && Commit(old(store.db), change) == Ok(store.db)
                    && !change.conversation.Keep? && r.value == change.conversation.id)
              && (Healthy(old(store.faults)) ==>
                    Healthy(store.faults) && (r.Err? ==> Commit(old(store.db), change) == Err(r.error)))
    {
      hide TrimSpace, CustomerFor, CustomersByExternalId, Operations.FindActiveConversation, Logged, Queued;
      var tenant := TrimSpace(op.tenantId);
      NewCustomerIsNew(store.db, tenant, TrimSpace(op.externalId), TrimSpace(op.name), op.newCustomer);
      var customer := store.GetOrCreateCustomer(tenant, TrimSpace(op.externalId), TrimSpace(op.name), op.newCustomer);
      if customer.Err? { return Err(customer.error); }
      SameActive(old(store.db), store.db, tenant, customer.value.id, channel);
      var found, started := StartOrContinue(tenant, customer.value.id, channel, op.newConversation);
      if found.Err? { return Err(found.error); }
      var row := found.value.(updatedAt := op.now);
      var message := Message(op.newMessage, row.id, FromCustomer, None, TrimSpace(op.text));
      var received := Receive(tenant, row, message, started);
      if received.Err? { return Err(received.error); }
      r := Ok(row.id);
      ghost var change := IntakeChange(old(store.db), op, channel);
      assert change.conversation == if started then Insert(row.id, row) else Update(row.id, row);
      assert change.message == Some(message);
      assert store.db == Written(old(store.db), change);
      assert !Clashes(old(store.db), change);
    }

    /** The transaction of HandleWebhook. */
    method Intake(op: Op) returns (r: Result<Id>)
      requires op.Webhook?
      requires TrimSpace(op.tenantId) != "" && TrimSpace(op.channelKey) != ""
      requires TrimSpace(op.externalId) != "" && TrimSpace(op.text) != ""
      modifies store
      ensures Ran(old(store.db), store.db, op, r, old(store.faults), store.faults)
      ensures r.Ok? ==>
                var written := Decide(old(store.db), op).value.conversation;
                !written.Keep? && r.value == written.id
    {
      hide IntakeChange, Commit, TrimSpace;
      var tenantId := TrimSpace(op.tenantId);
      var tenant := store.GetTenant(tenantId);
      if tenant.Err? { return Err(TenantNotFound); }
      var channel := store.GetChannelByKey(tenantId, TrimSpace(op.channelKey));
      if channel.Err? {
        return Err(if channel.error == RecordNotFound then InvalidChannel else channel.error);
      }
      r := Deliver(op, channel.value);
    }

    method HandleWebhook(op: Op) returns (r: Result<Response>, committed: bool)
      requires op.Webhook?
      modifies store, cache
      ensures Completed(op, r, committed, old(store.db), store.db, old(store.faults), old(cache.entries), cache.entries)
      ensures Sound(old(store.db), old(cache.entries)) ==> Sound(store.db, cache.entries)
    {
      hide TrimSpace, IntakeChange, Commit, VersionKey, GetConversation;
      if TrimSpace(op.tenantId) == "" || TrimSpace(op.channelKey) == ""
         || TrimSpace(op.externalId) == "" || TrimSpace(op.text) == "" {
        return Err(InvalidWebhook), false;
      }
      var saved := store.Begin();
      if saved.Err? { return Err(saved.error), false; }
      var ran := Intake(op);
      var done := store.End(saved.value, ran);
      if done.Err? { return Err(done.error), false; }
      BumpedOne(cache.entries, op.Tenant(), Conversations);
      cache.BumpVersion(TrimSpace(op.tenantId), Conversations);
      r := store.GetConversationByID(TrimSpace(op.tenantId), done.value);
      committed := true;
      if Sound(old(store.db), old(cache.entries)) {
        CompletedKeepsSound(op, r, committed, old(store.db), store.db, old(store.faults), old(cache.entries),
            cache.entries);
      }
    }

    // ----- AssignConversation -----

    /** The transaction of AssignConversation, for an agent of the tenant. */
    method AssignTo(op: Op, agent: User) returns (r: Result<()>)
      requires op.Assign? && op.actorRole == ROLE_ADMIN && FindUser(store.db, op.actor, op.tenant).Some?
      requires TrimSpace(op.agentId) != "" && FindUser(store.db, TrimSpace(op.agentId), op.tenant) == Some(agent)
      requires agent.role == ROLE_AGENT
      modifies store
      ensures Ran(old(store.db), store.db, op, r, old(store.faults), store.faults)
    {
      hide TrimSpace;
      var loaded := store.GetConversationByID(op.tenant, op.conversation);
      if loaded.Err? { return Err(loaded.error); }
      var row := loaded.value.conversation;
      if row.status == Closed { return Err(Error.ConversationClosed); }
      row := row.(agent := Some(agent.id), status := Assigned, updatedAt := op.stamp);
      r := store.SaveConversation(row);
      if r.Err? { return; }
      r := AppendDomainEvent(store, op.tenant, AgentAssigned(row.id, agent.id));
      assert old(store.db).messages + [] == old(store.db).messages;
    }

    method AssignConversation(op: Op) returns (r: Result<Response>, committed: bool)
      requires op.Assign?
      modifies store, cache
      ensures Completed(op, r, committed, old(store.db), store.db, old(store.faults), old(cache.entries), cache.entries)
      ensures Sound(old(store.db), old(cache.entries)) ==> Sound(store.db, cache.entries)
    {
      hide TrimSpace, Commit, VersionKey, GetConversation, Incremented;
      committed := false;
      if op.actorRole != ROLE_ADMIN { return Err(Forbidden), false; }
      var actor := store.GetUserByIDAndTenant(op.actor, op.tenant);
      if actor.Err? { return Err(Forbidden), false; }
      var agentId := TrimSpace(op.agentId);
      if agentId == "" { return Err(InvalidAssignment), false; }
      var agent := store.GetUserByIDAndTenant(agentId, op.tenant);
      if agent.Err? { return Err(InvalidAssignment), false; }
      if agent.value.role != ROLE_AGENT { return Err(InvalidAssignment), false; }

      var saved := store.Begin();
      if saved.Err? { return Err(saved.error), false; }
      var ran := AssignTo(op, agent.value);
      var done := store.End(saved.value, ran);
      if done.Err? { return Err(done.error), false; }
      BumpedOne(cache.entries, op.tenant, Conversations);
      cache.BumpVersion(op.tenant, Conversations);
      r := store.GetConversationByID(op.tenant, op.conversation);
      committed := true;
      if Sound(old(store.db), old(cache.entries)) {
        CompletedKeepsSound(op, r, committed, old(store.db), store.db, old(store.faults), old(cache.entries),
            cache.entries);
      }
    }

    // ----- ReplyToConversation -----

    /** The transaction of ReplyToConversation, for an agent of the tenant. */
    method ReplyAs(op: Op, agent: User) returns (r: Result<()>)
      requires op.Reply? && TrimSpace(op.text) != ""
      requires FindUser(store.db, op.agent, op.tenant) == Some(agent) && agent.role == ROLE_AGENT
      modifies store
      ensures Ran(old(store.db), store.db, op, r, old(store.faults), store.faults)
    {
      hide TrimSpace;
      var loaded := store.GetConversationByID(op.tenant, op.conversation);
      if loaded.Err? { return Err(loaded.error); }
      var row := loaded.value.conversation;
      if row.status == Closed { return Err(Error.ConversationClosed); }
      if row.agent.Some? && row.agent.value != agent.id { return Err(AssignedElsewhere); }
      if row.agent.None? {
        row := row.(agent := Some(agent.id), status := Assigned);
      }
      var message := Message(op.newMessage, row.id, FromAgent, Some(agent.id), TrimSpace(op.text));
      r := store.CreateMessage(message);
      if r.Err? { return; }
      row := row.(updatedAt := op.now);
      r := store.SaveConversation(row);
      if r.Err? { return; }
      r := AppendDomainEvent(store, op.tenant, Replied(row.id, agent.id, message.id));
    }

    method ReplyToConversation(op: Op) returns (r: Result<Response>, committed: bool)
      requires op.Reply?
      modifies store, cache
      ensures Completed(op, r, committed, old(store.db), store.db, old(store.faults), old(cache.entries), cache.entries)
      ensures Sound(old(store.db), old(cache.entries)) ==> Sound(store.db, cache.entries)
    {
      hide TrimSpace, Commit, VersionKey, GetConversation, Incremented;
      committed := false;
      if TrimSpace(op.text) == "" { return Err(InvalidMessage), false; }
      var agent := store.GetUserByIDAndTenant(op.agent, op.tenant);
      if agent.Err? || agent.value.role != ROLE_AGENT { return Err(Forbidden), false; }

      var saved := store.Begin();
      if saved.Err? { return Err(saved.error), false; }
      var ran := ReplyAs(op, agent.value);
      var done := store.End(saved.value, ran);
      if done.Err? { return Err(done.error), false; }
      BumpedOne(cache.entries, op.tenant, Conversations);
      cache.BumpVersion(op.tenant, Conversations);
      r := store.GetConversationByID(op.tenant, op.conversation);
      committed := true;
      if Sound(old(store.db), old(cache.entries)) {
        CompletedKeepsSound(op, r, committed, old(store.db), store.db, old(store.faults), old(cache.entries),
            cache.entries);
      }
    }

    // ----- CloseConversation -----

    /** The transaction of CloseConversation; closing twice is no error and writes nothing. */
    method CloseOnce(op: Op) returns (r: Result<()>)
      requires op.Close?
      modifies store
      ensures Ran(old(store.db), store.db, op, r, old(store.faults), store.faults)
    {
      var loaded := store.GetConversationByID(op.tenant, op.conversation);
      if loaded.Err? { return Err(loaded.error); }
      var row := loaded.value.conversation;
      if op.actorRole == ROLE_AGENT {
        if row.agent.None? || row.agent.value != op.actor { return Err(Forbidden); }
      }
      assert old(store.db).messages + [] == old(store.db).messages;
      if row.status == Closed {
        NothingWritten(store.db, op.tenant);
        return Ok(());
      }
      row := row.(status := Closed, updatedAt := op.stamp);
      r := store.SaveConversation(row);
      if r.Err? { return; }
      r := AppendDomainEvent(store, op.tenant, Event.ConversationClosed(row.id, op.actor, op.actorRole));
    }

    method CloseConversation(op: Op) returns (r: Result<Response>, committed: bool)
      requires op.Close?
      modifies store, cache
      ensures Completed(op, r, committed, old(store.db), store.db, old(store.faults), old(cache.entries), cache.entries)
      ensures Sound(old(store.db), old(cache.entries)) ==> Sound(store.db, cache.entries)
    {
      hide Decide, Commit, VersionKey, GetConversation, Incremented;
      var saved := store.Begin();
      if saved.Err? { return Err(saved.error), false; }
      var ran := CloseOnce(op);
      var done := store.End(saved.value, ran);
      if done.Err? { return Err(done.error), false; }
      BumpedOne(cache.entries, op.tenant, Conversations);
      cache.BumpVersion(op.tenant, Conversations);
      r := store.GetConversationByID(op.tenant, op.conversation);
      committed := true;
      if Sound(old(store.db), old(cache.entries)) {
        CompletedKeepsSound(op, r, committed, old(store.db), store.db, old(store.faults), old(cache.entries),
            cache.entries);
      }
    }

    // ----- ListConversations -----

    method ListConversations(tenant: Id, status: string, agent: string, offset: int, limit: int)
      returns (r: Result<(seq<Row>, nat)>)
      modifies store`faults, cache
      ensures var q := ConversationQuery(tenant, TrimSpace(status), TrimSpace(agent), NormalizeOffset(offset),
                NormalizeLimit(limit));
              && ListedAs(q, r, store.db, old(store.faults), store.faults, old(cache.entries), cache.entries)
              && (Sound(store.db, old(cache.entries)) && tenant in store.db.tenants ==>
                    && (r.Ok? ==> r.value == (Page(store.db, q), Total(store.db, q)))
                    && Sound(store.db, cache.entries))
    {
      hide TrimSpace, Page, Total, Sound, VersionKey, Joined, Decimal;
      var q := ConversationQuery(tenant, TrimSpace(status), TrimSpace(agent), NormalizeOffset(offset),
          NormalizeLimit(limit));
      var version := cache.Version(tenant, Conversations);
      var key := cache.Key(["tenant", tenant, "conversations", "v" + Decimal(version), "offset=" + Decimal(q.offset),
                            "limit=" + Decimal(q.limit), "status=" + q.status, "agent=" + q.agent]);
      assert key == ListKey(q, version) by {
        assert HeadParts(q, version) + FilterParts(q)
            == ["tenant", tenant, "conversations", "v" + Decimal(version), "offset=" + Decimal(q.offset),
                "limit=" + Decimal(q.limit), "status=" + q.status, "agent=" + q.agent];
      }
      var hit := cache.GetJSON(key);
      if hit.Some? {
        r := Ok((hit.value.rows, hit.value.total));
      } else {
        r := store.List(q);
        if r.Ok? {
          cache.SetJSON(key, r.value.0, r.value.1);
        }
      }
      if Sound(store.db, old(cache.entries)) && tenant in store.db.tenants {
        ListedIsFresh(q, r, store.db, old(store.faults), store.faults, old(cache.entries), cache.entries);
      }
    }
  }
}
