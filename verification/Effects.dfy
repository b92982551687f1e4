/** What each call does, told by its inputs and the tables alone: exactly when it is refused and with which error, the
    whole database it leaves, and what the caller is shown. */
module Effects {
  import opened Text
  import opened Model
  import opened Operations
  import opened Invariants
  import opened Tenancy

  // ----- vocabulary -----

  predicate UserOf(db: Db, tenant: Id, user: Id) {
    user in db.users && db.users[user].tenant == tenant
  }

  predicate AgentOf(db: Db, tenant: Id, user: Id) {
    UserOf(db, tenant, user) && db.users[user].role == "agent"
  }

  predicate ConversationOf(db: Db, tenant: Id, c: Id) {
    c in db.conversations && db.conversations[c].tenant == tenant
  }

  ghost predicate HasChannel(db: Db, tenant: Id, key: string) {
    exists h :: h in db.channels && db.channels[h].tenant == tenant && db.channels[h].key == key
  }

  /** The database with the events appended to both logs: unpublished, never attempted, routed by type. */
  function Reporting(db: Db, tenant: Id, events: seq<Event>): Db {
    db.(activity := db.activity + seq(|events|, i requires 0 <= i < |events| => ActivityLog(tenant, events[i])),
        outbox := db.outbox + seq(|events|, i requires 0 <= i < |events| =>
                                    OutboxEvent(tenant, events[i], events[i].Type(), 0, false, false)))
  }

  lemma WrittenIsReporting(db: Db, ch: Change)
    ensures Written(db, ch) ==
            Reporting(db.(customers := Put(db.customers, ch.customer),
                          conversations := Put(db.conversations, ch.conversation),
                          messages := db.messages + (if ch.message.Some? then [ch.message.value] else []),
                          tickets := Put(db.tickets, ch.ticket)),
                      ch.tenant, ch.events)
  {
    assert Logged(ch.tenant, ch.events)
        == seq(|ch.events|, i requires 0 <= i < |ch.events| => ActivityLog(ch.tenant, ch.events[i]));
    assert Queued(ch.tenant, ch.events)
        == seq(|ch.events|, i requires 0 <= i < |ch.events| =>
                 OutboxEvent(ch.tenant, ch.events[i], ch.events[i].Type(), 0, false, false));
  }

  /** The event types, which are also the routing keys. */
  lemma EventTypesAre(e: Event)
    ensures e.Type() == "conversation.created" <==> e.Created?
    ensures e.Type() == "channel.message.received" <==> e.Received?
    ensures e.Type() == "conversation.assigned" <==> e.AgentAssigned?
    ensures e.Type() == "conversation.replied" <==> e.Replied?
    ensures e.Type() == "conversation.escalated" <==> e.Escalated?
    ensures e.Type() == "conversation.closed" <==> e.ConversationClosed?
    ensures e.Type() == "ticket.created" <==> e.TicketCreated?
    ensures e.Type() == "ticket.status.updated" <==> e.StatusUpdated?
    ensures e.EntityType() == TicketEntity <==> e.TicketCreated? || e.StatusUpdated?
  {
    assert e.Type()[0] == 't' <==> e.TicketCreated? || e.StatusUpdated?;
    assert !e.TicketCreated? && !e.StatusUpdated? && !e.Received? ==> |e.Type()| >= 19 && e.Type()[13] in "carec";
    assert e.Created? ==> e.Type()[14] == 'r';
    assert e.ConversationClosed? ==> e.Type()[14] == 'l';
  }

  /** The stored texts of a conversation's status. */
  lemma ConversationStatusTexts(s: ConversationStatus)
    ensures s.Text() == "open" <==> s == Open
    ensures s.Text() == "assigned" <==> s == Assigned
    ensures s.Text() == "closed" <==> s == Closed
  {
    assert |Open.Text()| == 4 && |Assigned.Text()| == 8 && |Closed.Text()| == 6;
  }

  // ----- refusals -----

  /** Why the call is refused, if it is; the first reason that applies. */
  ghost function Refusal(db: Db, op: Op): Option<Error> {
    match op
    case Webhook(tenant, key, externalId, _, text, _, _, _, _) =>
      if "" in [TrimSpace(tenant), TrimSpace(key), TrimSpace(externalId), TrimSpace(text)] then Some(InvalidWebhook)
      else if TrimSpace(tenant) !in db.tenants then Some(TenantNotFound)
      else if !HasChannel(db, TrimSpace(tenant), TrimSpace(key)) then Some(InvalidChannel)
      else None
    case Assign(tenant, c, actor, role, agent, _) =>
      if role != "admin" || !UserOf(db, tenant, actor) then Some(Forbidden)
      else if TrimSpace(agent) == "" || !AgentOf(db, tenant, TrimSpace(agent)) then Some(InvalidAssignment)
      else if !ConversationOf(db, tenant, c) then Some(RecordNotFound)
      else if db.conversations[c].status == Closed then Some(Error.ConversationClosed)
      else None
    case Reply(tenant, c, agent, text, _, _) =>
      if TrimSpace(text) == "" then Some(InvalidMessage)
      else if !AgentOf(db, tenant, agent) then Some(Forbidden)
      else AgentRefusal(db, tenant, c, agent)
    case Close(tenant, c, actor, role, _) =>
      if !ConversationOf(db, tenant, c) then Some(RecordNotFound)
      else if role == "agent" && db.conversations[c].agent != Some(actor) then Some(Forbidden)
      else None
    case Escalate(tenant, c, agent, title, description, priority, _, _) =>
      if TrimSpace(title) == "" || TrimSpace(description) == "" then Some(InvalidTicket)
      else if TrimSpace(priority) !in {"", "low", "medium", "high"} then Some(InvalidPriority)
      else if !AgentOf(db, tenant, agent) then Some(Forbidden)
      else if AgentRefusal(db, tenant, c, agent).Some? then AgentRefusal(db, tenant, c, agent)
      else if HasTicket(db, c) then Some(TicketExists)
      else None
    case UpdateStatus(tenant, ticket, actor, role, status, _) =>
      if role != "admin" || !UserOf(db, tenant, actor) then Some(Forbidden)
      else if TrimSpace(status) !in {"open", "in_progress", "resolved", "closed"} then Some(InvalidStatus)
      else if ticket !in db.tickets || db.tickets[ticket].tenant != tenant then Some(RecordNotFound)
      else None
  }

  /** Why an agent may not work on a conversation. */
  function AgentRefusal(db: Db, tenant: Id, c: Id, agent: Id): Option<Error> {
    if !ConversationOf(db, tenant, c) then Some(RecordNotFound)
    else if db.conversations[c].status == Closed then Some(Error.ConversationClosed)
    else if db.conversations[c].agent.Some? && db.conversations[c].agent != Some(agent) then Some(AssignedElsewhere)
    else None
  }

  lemma ChannelFound(db: Db, tenant: Id, key: string)
    ensures FindChannel(db, tenant, key).Some? <==> HasChannel(db, tenant, key)
  {
    if h :| h in db.channels && db.channels[h].tenant == tenant && db.channels[h].key == key {
      assert h in ChannelsByKey(db, tenant, key);
    }
    if FindChannel(db, tenant, key).Some? {
      assert FindChannel(db, tenant, key).value in ChannelsByKey(db, tenant, key);
    }
  }

  lemma TicketFoundIff(db: Db, tenant: Id, c: Id)
    requires Tables(db) && ConversationOf(db, tenant, c)
    ensures FindTicketByConversation(db, tenant, c).Some? <==> HasTicket(db, c)
  {
    if t :| t in db.tickets && db.tickets[t].conversation == c {
      assert TicketInTenant(db, t);
      assert t in TicketsOfConversation(db, tenant, c);
    }
    if FindTicketByConversation(db, tenant, c).Some? {
      assert FindTicketByConversation(db, tenant, c).value in TicketsOfConversation(db, tenant, c);
    }
  }

  lemma PrioritiesAre(text: string)
    ensures PriorityOrDefault(text).Some? <==> text in {"", "low", "medium", "high"}
    ensures PriorityOrDefault(text).Some? ==>
              PriorityOrDefault(text).value.Text() == if text == "" then "medium" else text
  {
  }

  lemma StatusesAre(text: string)
    ensures ParseTicketStatus(text).Some? <==> text in {"open", "in_progress", "resolved", "closed"}
    ensures ParseTicketStatus(text).Some? ==> ParseTicketStatus(text).value.Text() == text
  {
  }

  lemma DecisionRefusal(db: Db, op: Op)
    requires Tables(db)
    ensures Refusal(db, op).Some? ==> Decide(db, op) == Err(Refusal(db, op).value)
    ensures Refusal(db, op).None? ==> Decide(db, op).Ok?
  {
    hide TrimSpace, References, OneActive, Ownership, FindChannel, FindTicketByConversation, HasTicket, HasChannel;
    hide IntakeChange, PriorityOrDefault, ParseTicketStatus;
    match op
    case Webhook(tenant, key, _, _, _, _, _, _, _) => ChannelFound(db, TrimSpace(tenant), TrimSpace(key));
    case Assign(_, _, _, _, _, _) =>
    case Reply(_, _, _, _, _, _) =>
    case Close(_, _, _, _, _) =>
    case Escalate(tenant, c, _, _, _, priority, _, _) =>
      PrioritiesAre(TrimSpace(priority));
      if ConversationOf(db, tenant, c) { TicketFoundIff(db, tenant, c); }
    case UpdateStatus(_, _, _, _, status, _) => StatusesAre(TrimSpace(status));
  }

  /** Main result (exact refusals): a call is refused with exactly the first reason that applies, and one with no
      reason against it and new identifiers succeeds. */
  lemma RefusedExactly(db: Db, op: Op)
    requires Tables(db)
    ensures Refusal(db, op).Some? ==> Apply(db, op) == Err(Refusal(db, op).value)
    ensures Refusal(db, op).None? ==> Apply(db, op).Ok? || Apply(db, op) == Err(DuplicateKey)
    ensures Fresh(db, op) ==> (Apply(db, op).Ok? <==> Refusal(db, op).None?)
  {
    hide Tables, Refusal, Decide, Clashes, Fresh;
    DecisionRefusal(db, op);
    if Fresh(db, op) && Decide(db, op).Ok? { FreshDoesNotClash(db, op); }
  }

  // ----- effects -----

  predicate AssignDone(db: Db, db': Db, op: Op)
    requires op.Assign?
  {
    var agent := TrimSpace(op.agentId);
    && op.conversation in db.conversations
    && var row := db.conversations[op.conversation].(agent := Some(agent), status := Assigned, updatedAt := op.stamp);
    db' == Reporting(db.(conversations := db.conversations[op.conversation := row]), op.tenant,
                     [AgentAssigned(op.conversation, agent)])
  }

  /** Main result: an assignment gives the conversation to the agent asked for, and changes and reports nothing else. */
  lemma AssignEffect(db: Db, op: Op)
    requires Tables(db) && op.Assign? && Apply(db, op).Ok?
    ensures AssignDone(db, After(db, op), op)
  {
    hide TrimSpace, References, OneActive, Ownership, Reporting, Clashes;
    WrittenIsReporting(db, Decide(db, op).value);
    assert db.messages + [] == db.messages;
  }

  predicate ReplyDone(db: Db, db': Db, op: Op)
    requires op.Reply?
  {
    var message := Message(op.newMessage, op.conversation, FromAgent, Some(op.agent), TrimSpace(op.text));
    && op.conversation in db.conversations
    && var row := db.conversations[op.conversation].(agent := Some(op.agent), status := Assigned, updatedAt := op.now);
    db' == Reporting(db.(conversations := db.conversations[op.conversation := row],
        messages := db.messages + [message]),
                     op.tenant, [Replied(op.conversation, op.agent, op.newMessage)])
  }

  /** Main result: a reply adds the agent's message, makes the agent the holder,
      and changes and reports nothing else. */
  lemma ReplyEffect(db: Db, op: Op)
    requires Tables(db) && op.Reply? && Apply(db, op).Ok?
    ensures ReplyDone(db, After(db, op), op)
  {
    hide TrimSpace, References, OneActive, Reporting, Clashes;
    WrittenIsReporting(db, Decide(db, op).value);
  }

  predicate CloseDone(db: Db, db': Db, op: Op)
    requires op.Close?
  {
    && op.conversation in db.conversations
    && var row := db.conversations[op.conversation];
    db' ==
    if row.status == Closed then db
    else Reporting(db.(conversations := db.conversations[op.conversation := row.(status := Closed,
        updatedAt := op.stamp)]),
                   op.tenant, [Event.ConversationClosed(op.conversation, op.actor, op.actorRole)])
  }

  /** Main result: a close changes the status of the conversation, once, and says who closed it. */
  lemma CloseEffect(db: Db, op: Op)
    requires Tables(db) && op.Close? && Apply(db, op).Ok?
    ensures CloseDone(db, After(db, op), op)
  {
    hide References, OneActive, Ownership, Reporting, Clashes;
    WrittenIsReporting(db, Decide(db, op).value);
    NothingReported(db, op.tenant);
    assert db.messages + [] == db.messages;
  }

  lemma NothingReported(db: Db, tenant: Id)
    ensures Reporting(db, tenant, []) == db
  {
    assert db.activity + [] == db.activity && db.outbox + [] == db.outbox;
  }

  predicate EscalateDone(db: Db, db': Db, op: Op)
    requires op.Escalate?
  {
    && op.newTicket !in db.tickets && op.newTicket in db'.tickets && op.conversation in db.conversations
    && var ticket, row := db'.tickets[op.newTicket], db.conversations[op.conversation];
    && ticket.priority.Text() == (if TrimSpace(op.priority) == "" then "medium" else TrimSpace(op.priority))
    && ticket == Ticket(op.newTicket, op.tenant, op.conversation, TrimSpace(op.title), TrimSpace(op.description),
                        TicketOpen, ticket.priority, Some(op.agent), op.stamp)
    && var taken := if row.agent == None then row.(agent := Some(op.agent), status := Assigned, updatedAt := op.stamp)
                    else row;
    db' == Reporting(db.(conversations := db.conversations[op.conversation := taken],
                         tickets := db.tickets[op.newTicket := ticket]),
                     op.tenant, [Escalated(op.conversation, op.newTicket, op.agent), TicketCreated(ticket)])
  }

  /** Main result: an escalation opens one ticket with the title and description sent and the priority sent, or medium;
      the ticket and the conversation are the escalating agent's. */
  lemma EscalateEffect(db: Db, op: Op)
    requires Tables(db) && op.Escalate? && Apply(db, op).Ok?
    ensures EscalateDone(db, After(db, op), op)
  {
    hide TrimSpace, References, OneActive, Ownership, Reporting, PriorityOrDefault, FindTicketByConversation, HasTicket;
    PrioritiesAre(TrimSpace(op.priority));
    WrittenIsReporting(db, Decide(db, op).value);
    assert db.messages + [] == db.messages;
    assert db.conversations[op.conversation := db.conversations[op.conversation]] == db.conversations;
  }

  predicate StatusDone(db: Db, db': Db, op: Op, status: TicketStatus)
    requires op.UpdateStatus?
  {
    && status.Text() == TrimSpace(op.statusText) && op.ticket in db.tickets
    && var row := db.tickets[op.ticket].(status := status, updatedAt := op.stamp);
    db' == Reporting(db.(tickets := db.tickets[op.ticket := row]), op.tenant, [StatusUpdated(op.ticket, status)])
  }

  /** Main result: a status update sets the status asked for on the ticket, and changes and reports nothing else. */
  lemma UpdateStatusEffect(db: Db, op: Op) returns (status: TicketStatus)
    requires Tables(db) && op.UpdateStatus? && Apply(db, op).Ok?
    ensures StatusDone(db, After(db, op), op, status)
  {
    hide TrimSpace, References, OneActive, Ownership, Reporting, ParseTicketStatus;
    StatusesAre(TrimSpace(op.statusText));
    status := ParseTicketStatus(TrimSpace(op.statusText)).value;
    WrittenIsReporting(db, Decide(db, op).value);
    assert db.messages + [] == db.messages;
  }

  // ----- webhooks -----

  predicate IsCustomer(db: Db, tenant: Id, externalId: string, c: Id) {
    c in db.customers && db.customers[c].tenant == tenant && db.customers[c].externalId == externalId
  }

  predicate IsActive(db: Db, tenant: Id, customer: Id, channel: Id, c: Id) {
    && c in db.conversations && db.conversations[c].status != Closed
    && db.conversations[c].tenant == tenant && db.conversations[c].customer == customer
         && db.conversations[c].channel == channel
  }

  /** The customer a webhook is from: the tenant's row with the external id, renamed if a name was sent, or a new row
      named after the name sent or else the external id. */
  ghost predicate CustomerKnown(db: Db, customers: map<Id, Customer>, op: Op, customer: Id)
    requires op.Webhook?
  {
    var tenant, externalId, name := TrimSpace(op.tenantId), TrimSpace(op.externalId), TrimSpace(op.name);
    if exists c :: IsCustomer(db, tenant, externalId, c) then
      && IsCustomer(db, tenant, externalId, customer)
      && var row := db.customers[customer];
      customers == db.customers[customer := row.(name := if name == "" then row.name else name)]
    else
      && customer == op.newCustomer && customer !in db.customers
      && customers ==
         db.customers[customer := Customer(customer, tenant, externalId, if name == "" then externalId else name)]
  }

  /** The message of a webhook. */
  function Sent(op: Op, conversation: Id): Message
    requires op.Webhook?
  {
    Message(op.newMessage, conversation, FromCustomer, None, TrimSpace(op.text))
  }

  lemma CustomerOfWebhook(db: Db, op: Op)
    requires Tables(db) && op.Webhook? && Apply(db, op).Ok?
    ensures var (customer, w) := CustomerFor(db, TrimSpace(op.tenantId), TrimSpace(op.externalId),
              TrimSpace(op.name), op.newCustomer);
            CustomerKnown(db, Put(db.customers, w), op, customer.id)
  {
    hide TrimSpace, References, OneActive, Ownership, FindActiveConversation, FindChannel;
    var tenant, externalId := TrimSpace(op.tenantId), TrimSpace(op.externalId);
    if c :| IsCustomer(db, tenant, externalId, c) {
      assert c in CustomersByExternalId(db, tenant, externalId);
    }
    if FindCustomer(db, tenant, externalId).Some? {
      var id := FindCustomer(db, tenant, externalId).value;
      assert IsCustomer(db, tenant, externalId, id);
      assert db.customers[id := db.customers[id]] == db.customers;
    }
  }

  lemma ChannelOfWebhook(db: Db, tenant: Id, key: string)
    ensures var h := FindChannel(db, tenant, key);
            h.Some? ==>
              h.value in db.channels && db.channels[h.value].tenant == tenant
                && db.channels[h.value].key == key
  {
  }

  /** The conversation found is active and none of its kind is newer; none is found only if there is none. */
  lemma ActiveFound(db: Db, tenant: Id, customer: Id, channel: Id)
    ensures var found := FindActiveConversation(db, tenant, customer, channel);
            if found.Some? then
              && IsActive(db, tenant, customer, channel, found.value)
              && forall c :: IsActive(db, tenant, customer, channel, c) ==>
                   db.conversations[c].updatedAt <= db.conversations[found.value].updatedAt
            else forall c :: !IsActive(db, tenant, customer, channel, c)
  {
    var rows := ActiveConversations(db, tenant, customer, channel);
    forall c ensures IsActive(db, tenant, customer, channel, c) <==> c in rows {
    }
  }

  /** The webhook's message is in conversation c of the customer on the channel, as the documentation of WebhookEffect
      says. */
  ghost predicate WebhookDone(db: Db, db': Db, op: Op, c: Id, customer: Id, channel: Id)
    requires op.Webhook?
  {
    var tenant := TrimSpace(op.tenantId);
    && CustomerKnown(db, db'.customers, op, customer)
    && channel in db.channels && db.channels[channel].tenant == tenant
         && db.channels[channel].key == TrimSpace(op.channelKey)
    && (forall d :: IsActive(db, tenant, customer, channel, d) ==>
          c in db.conversations && db.conversations[d].updatedAt <= db.conversations[c].updatedAt)
    && (if c in db.conversations then
          && IsActive(db, tenant, customer, channel, c)
          && db' == Reporting(db.(customers := db'.customers,
                                  conversations := db.conversations[c := db.conversations[c].(updatedAt := op.now)],
                                  messages := db.messages + [Sent(op, c)]),
                              tenant, [Received(Sent(op, c))])
        else
          var row := Conversation(op.newConversation, tenant, customer, channel, Open, None, op.now);
          && c == op.newConversation
          && db' == Reporting(db.(customers := db'.customers, conversations := db.conversations[c := row],
                                  messages := db.messages + [Sent(op, c)]),
                              tenant, [Created(row), Received(Sent(op, c))]))
  }

  /** Main result: a webhook stores the text sent as one message of the customer with the external id, in the active
      conversation of that customer on the channel with the key, or in a new open one if there is none; it makes that
      conversation current, and changes and reports nothing else. */
  lemma WebhookEffect(db: Db, op: Op) returns (c: Id, customer: Id, channel: Id)
    requires Tables(db) && op.Webhook? && Apply(db, op).Ok?
    ensures WebhookDone(db, After(db, op), op, c, customer, channel)
  {
    hide TrimSpace, References, OneActive, Ownership, CustomerFor, CustomerKnown, IsActive, Reporting, FindChannel;
    hide FindActiveConversation;
    var tenant, ch := TrimSpace(op.tenantId), Decide(db, op).value;
    customer := CustomerFor(db, tenant, TrimSpace(op.externalId), TrimSpace(op.name), op.newCustomer).0.id;
    channel := FindChannel(db, tenant, TrimSpace(op.channelKey)).value;
    c := ch.conversation.id;
    CustomerOfWebhook(db, op);
    ChannelOfWebhook(db, tenant, TrimSpace(op.channelKey));
    ActiveFound(db, tenant, customer, channel);
    ActiveIsThere(db, tenant, customer, channel, c);
    WrittenIsReporting(db, ch);
  }

  lemma ActiveIsThere(db: Db, tenant: Id, customer: Id, channel: Id, c: Id)
    ensures IsActive(db, tenant, customer, channel, c) ==> c in db.conversations
  {
  }

  /** The call has done all that it should to db, and nothing else. */
  ghost predicate Done(db: Db, db': Db, op: Op) {
    match op
    case Webhook(_, _, _, _, _, _, _, _, _) => exists c, customer, channel ::
        WebhookDone(db, db', op, c, customer, channel)
    case Assign(_, _, _, _, _, _) => AssignDone(db, db', op)
    case Reply(_, _, _, _, _, _) => ReplyDone(db, db', op)
    case Close(_, _, _, _, _) => CloseDone(db, db', op)
    case Escalate(_, _, _, _, _, _, _, _) => EscalateDone(db, db', op)
    case UpdateStatus(_, _, _, _, _, _) => exists status :: StatusDone(db, db', op, status)
  }

  lemma EffectsAreDone(db: Db, op: Op)
    requires Tables(db) && Apply(db, op).Ok?
    ensures Done(db, After(db, op), op)
  {
    hide Tables, Apply, After, WebhookDone, AssignDone, ReplyDone, CloseDone, EscalateDone, StatusDone;
    match op {
    case Webhook(_, _, _, _, _, _, _, _, _) => var c, customer, channel := WebhookEffect(db, op);
    case Assign(_, _, _, _, _, _) => AssignEffect(db, op);
    case Reply(_, _, _, _, _, _) => ReplyEffect(db, op);
    case Close(_, _, _, _, _) => CloseEffect(db, op);
    case Escalate(_, _, _, _, _, _, _, _) => EscalateEffect(db, op);
    case UpdateStatus(_, _, _, _, _, _) => var status := UpdateStatusEffect(db, op);
    }
  }

  // ----- what the caller is shown -----

  /** The positions of the conversation's messages, in order. */
  ghost predicate PositionsOf(messages: seq<Message>, c: Id, at: seq<nat>) {
    && (forall i | 0 <= i < |at| :: at[i] < |messages| && messages[at[i]].conversation == c)
    && (forall i, j | 0 <= i < j < |at| :: at[i] < at[j])
    && (forall k | 0 <= k < |messages| && messages[k].conversation == c :: k in at)
  }

  /** The thread shown is every message of the conversation, once, oldest first. */
  lemma {:induction false} ThreadIsWhole(messages: seq<Message>, c: Id) returns (at: seq<nat>)
    ensures PositionsOf(messages, c, at) && |MessagesOf(messages, c)| == |at|
    ensures forall i | 0 <= i < |at| :: MessagesOf(messages, c)[i] == messages[at[i]]
  {
    if messages == [] {
      at := [];
    } else {
      var n := |messages| - 1;
      at := ThreadIsWhole(messages[..n], c);
      if messages[n].conversation == c { at := at + [n]; }
    }
  }

  /** The record shows the conversation with its own customer, channel and agent, its thread and its ticket. */
  ghost predicate ShowsConversation(db: Db, c: Id, shown: Response) {
    && shown.ConversationView? && c in db.conversations
    && var row := db.conversations[c];
    && shown.conversation == row && shown.messages == MessagesOf(db.messages, c)
    && row.customer in db.customers && shown.customer == Some(db.customers[row.customer])
    && row.channel in db.channels && shown.channel == Some(db.channels[row.channel])
    && (if row.agent.Some? then row.agent.value in db.users && shown.agent == Some(db.users[row.agent.value])
        else shown.agent == None)
    && (if HasTicket(db, c)
        then shown.ticket.Some? && ShowsTicket(db, c, shown.ticket.value, shown.ticketAgent)
        else shown.ticket == None && shown.ticketAgent == None)
  }

  /** The ticket is the stored one of the conversation, with its agent. */
  ghost predicate ShowsTicket(db: Db, c: Id, ticket: Ticket, agent: Option<User>) {
    && ticket.id in db.tickets && db.tickets[ticket.id] == ticket && ticket.conversation == c
    && ticket.agent.Some? && ticket.agent.value in db.users && agent == Some(db.users[ticket.agent.value])
  }

  lemma ConversationShown(db: Db, tenant: Id, c: Id)
    requires Tables(db)
    ensures GetConversation(db, tenant, c).Ok? <==> ConversationOf(db, tenant, c)
    ensures GetConversation(db, tenant, c).Err? ==> GetConversation(db, tenant, c).error == RecordNotFound
    ensures GetConversation(db, tenant, c).Ok? ==> ShowsConversation(db, c, GetConversation(db, tenant, c).value)
  {
    hide OneActive, Ownership, MessagesOf;
    if ConversationOf(db, tenant, c) {
      assert ConversationInTenant(db, c);
      TicketFoundIff(db, tenant, c);
      var found := FindTicketByConversation(db, tenant, c);
      if found.Some? {
        assert found.value in TicketsOfConversation(db, tenant, c);
        assert TicketInTenant(db, found.value);
      }
    }
  }

  lemma TicketShown(db: Db, tenant: Id, t: Id)
    requires Tables(db)
    ensures GetTicket(db, tenant, t).Ok? <==> t in db.tickets && db.tickets[t].tenant == tenant
    ensures GetTicket(db, tenant, t).Err? ==> GetTicket(db, tenant, t).error == RecordNotFound
    ensures GetTicket(db, tenant, t).Ok? ==>
              var shown := GetTicket(db, tenant, t).value;
              && shown.TicketView? && shown.ticketRow == db.tickets[t]
              && ShowsTicket(db, shown.ticketRow.conversation, shown.ticketRow, shown.ticketAgent)
  {
    hide OneActive, Ownership;
    if t in db.tickets { assert TicketInTenant(db, t); }
  }

  /** The record a call answers with: the conversation of the new message, the one named, or the ticket. */
  ghost predicate ShowsResult(db: Db, op: Op, shown: Response) {
    match op
    case Webhook(_, _, _, _, _, _, _, newMessage, _) =>
      db.messages != [] && ShowsConversation(db, db.messages[|db.messages| - 1].conversation, shown)
    case Assign(_, c, _, _, _, _) => ShowsConversation(db, c, shown)
    case Reply(_, c, _, _, _, _) => ShowsConversation(db, c, shown)
    case Close(_, c, _, _, _) => ShowsConversation(db, c, shown)
    case Escalate(_, c, _, _, _, _, newTicket, _) =>
      && shown.TicketView? && newTicket == shown.ticketRow.id && ShowsTicket(db, c, shown.ticketRow, shown.ticketAgent)
    case UpdateStatus(_, t, _, _, _, _) =>
      && shown.TicketView? && t == shown.ticketRow.id
      && ShowsTicket(db, shown.ticketRow.conversation, shown.ticketRow, shown.ticketAgent)
  }

  lemma ResultOfWebhook(db: Db, op: Op)
    requires Tables(db) && op.Webhook? && Apply(db, op).Ok?
    ensures Answer(After(db, op), op, Decide(db, op).value)
         == GetConversation(After(db, op), op.Tenant(), After(db, op).messages[|db.messages|].conversation)
    ensures |After(db, op).messages| == |db.messages| + 1
    ensures ConversationOf(After(db, op), op.Tenant(), After(db, op).messages[|db.messages|].conversation)
  {
    hide Tables, Decide, GetConversation, Clashes;
    DecideIsLegal(db, op);
    WebhookIntake(db, op);
  }

  lemma WebhookIntake(db: Db, op: Op)
    requires Tables(db) && op.Webhook? && Decide(db, op).Ok?
    ensures Intake(db, Decide(db, op).value) && Decide(db, op).value.tenant == op.Tenant()
  {
    hide DecideWebhook, Tables, Intake;
    WebhookIsIntake(db, op);
  }

  lemma ResultOfOthers(db: Db, op: Op)
    requires Tables(db) && !op.Webhook? && Apply(db, op).Ok?
    ensures op.Escalate? || op.UpdateStatus? ==>
              var t := if op.Escalate? then op.newTicket else op.ticket;
              && t in After(db, op).tickets && After(db, op).tickets[t].tenant == op.tenant
              && (op.Escalate? ==> After(db, op).tickets[t].conversation == op.conversation)
    ensures op.Assign? || op.Reply? || op.Close? ==> ConversationOf(After(db, op), op.tenant, op.conversation)
  {
    hide TrimSpace, References, OneActive, Ownership, Clashes;
  }

  /** Main result: a call that commits is always answered, and with the record it concerns as stored after it; a call
      that is refused answers with the refusal. */
  lemma AnswersShowResult(db: Db, op: Op)
    requires Tables(db)
    ensures Outcome(db, op).Ok? <==> Apply(db, op).Ok?
    ensures Outcome(db, op).Err? ==> Outcome(db, op).error == Apply(db, op).error
    ensures Outcome(db, op).Ok? ==> ShowsResult(After(db, op), op, Outcome(db, op).value)
  {
    hide Tables, Decide, GetConversation, GetTicket, ShowsConversation, Commit, ShowsTicket, After;
    if Apply(db, op).Ok? {
      KeepsTables(db, op);
      AfterIsCommit(db, op);
      var db' := After(db, op);
      TablesKeyed(db');
      if op.Webhook? {
        ResultOfWebhook(db, op);
        ConversationShown(db', op.Tenant(), db'.messages[|db.messages|].conversation);
      } else {
        ResultOfOthers(db, op);
        if op.Escalate? || op.UpdateStatus? {
          TicketShown(db', op.tenant, if op.Escalate? then op.newTicket else op.ticket);
        } else {
          ConversationShown(db', op.tenant, op.conversation);
        }
      }
    }
  }

  lemma AfterIsCommit(db: Db, op: Op)
    requires Apply(db, op).Ok?
    ensures Decide(db, op).Ok? && Commit(db, Decide(db, op).value) == Ok(After(db, op))
  {
    hide Decide, Commit;
  }

  lemma TablesKeyed(db: Db)
    requires Tables(db)
    ensures forall t | t in db.tickets :: db.tickets[t].id == t
  {
  }
}
