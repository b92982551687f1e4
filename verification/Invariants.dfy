/** What a decided transaction can look like, and the table invariants every transaction keeps. */
module Invariants {
  import opened Text
  import opened Model
  import opened Operations

  // ----- invariants of the tables -----

  /** Rows sit under their own key and the unique keys of the schema hold. */
  ghost predicate Schema(db: Db) {
    && (forall c | c in db.customers :: db.customers[c].id == c)
    && (forall c | c in db.conversations :: db.conversations[c].id == c)
    && (forall t | t in db.tickets :: db.tickets[t].id == t)
    && (forall u | u in db.users :: db.users[u].id == u)
    && (forall c, d | c in db.customers && d in db.customers
          && db.customers[c].tenant == db.customers[d].tenant
               && db.customers[c].externalId == db.customers[d].externalId :: c == d)
    && (forall t, u | t in db.tickets && u in db.tickets && db.tickets[t].conversation == db.tickets[u].conversation ::
         t == u)
  }

  predicate IsAgent(db: Db, tenant: Id, agent: Id) {
    agent in db.users && db.users[agent].tenant == tenant && db.users[agent].role == ROLE_AGENT
  }

  predicate ConversationInTenant(db: Db, c: Id)
    requires c in db.conversations
  {
    var row := db.conversations[c];
    && row.tenant in db.tenants
    && row.customer in db.customers && db.customers[row.customer].tenant == row.tenant
    && row.channel in db.channels && db.channels[row.channel].tenant == row.tenant
    && (row.agent.Some? ==> IsAgent(db, row.tenant, row.agent.value))
  }

  predicate TicketInTenant(db: Db, t: Id)
    requires t in db.tickets
  {
    var row := db.tickets[t];
    && row.conversation in db.conversations && db.conversations[row.conversation].tenant == row.tenant
    && row.agent.Some? && IsAgent(db, row.tenant, row.agent.value)
  }

  /** Whatever a row points at belongs to the row's own tenant. */
  ghost predicate References(db: Db) {
    && (forall c | c in db.conversations :: ConversationInTenant(db, c))
    && (forall t | t in db.tickets :: TicketInTenant(db, t))
    && (forall m | m in db.messages :: m.conversation in db.conversations)
  }

  /** An open conversation has no agent, an assigned one has. */
  ghost predicate Ownership(db: Db) {
    forall c | c in db.conversations ::
      && (db.conversations[c].status == Open ==> db.conversations[c].agent == None)
      && (db.conversations[c].status == Assigned ==> db.conversations[c].agent.Some?)
  }

  predicate SameTriple(a: Conversation, b: Conversation) {
    a.tenant == b.tenant && a.customer == b.customer && a.channel == b.channel
  }

  /** At most one conversation that is not closed per tenant, customer and channel. */
  ghost predicate OneActive(db: Db) {
    forall c, d | c in db.conversations && d in db.conversations
      && db.conversations[c].status != Closed && db.conversations[d].status != Closed
      && SameTriple(db.conversations[c], db.conversations[d]) :: c == d
  }

  ghost predicate Tables(db: Db) {
    Schema(db) && References(db) && Ownership(db) && OneActive(db)
  }

  // ----- the shapes of a transaction -----

  /** The transaction updates conversation c, which is the tenant's and not closed. */
  predicate Touches(db: Db, ch: Change) {
    && ch.conversation.Update?
    && ch.conversation.id in db.conversations
    && db.conversations[ch.conversation.id].tenant == ch.tenant
    && db.conversations[ch.conversation.id].status != Closed
  }

  predicate CustomerWrite(db: Db, ch: Change) {
    match ch.customer
    case Keep => true
    case Insert(id, row) => row.id == id && row.tenant == ch.tenant
    case Update(id, row) =>
      id in db.customers && db.customers[id].tenant == ch.tenant && row == db.customers[id].(name := row.name)
  }

  /** A customer message arrives: it joins the active conversation or starts a new one. */
  predicate Intake(db: Db, ch: Change) {
    && ch.tenant in db.tenants
    && CustomerWrite(db, ch)
    && !ch.conversation.Keep? && ch.message.Some? && ch.ticket == Keep
    && var row := ch.conversation.row;
    && row.id == ch.conversation.id && row.tenant == ch.tenant && ch.message.value.conversation == row.id
    && row.customer in Put(db.customers, ch.customer)
         && Put(db.customers, ch.customer)[row.customer].tenant == ch.tenant
    && row.channel in db.channels && db.channels[row.channel].tenant == ch.tenant
    && if ch.conversation.Insert? then
         && row.status == Open && row.agent == None
         && ActiveConversations(db, ch.tenant, row.customer, row.channel) == map[]
         && ch.events == [Created(row), Received(ch.message.value)]
       else
         && Touches(db, ch)
         && row == db.conversations[row.id].(updatedAt := row.updatedAt)
         && ch.events == [Received(ch.message.value)]
  }

  /** The conversation after agent a has it. */
  function HeldBy(row: Conversation, a: Id, stamp: nat): Conversation {
    row.(agent := Some(a), status := Assigned, updatedAt := stamp)
  }

  predicate Assignment(db: Db, ch: Change) {
    && ch.customer == Keep && Touches(db, ch) && ch.message == None && ch.ticket == Keep
    && var row := ch.conversation.row;
    && row.agent.Some? && IsAgent(db, ch.tenant, row.agent.value)
    && row == HeldBy(db.conversations[ch.conversation.id], row.agent.value, row.updatedAt)
    && ch.events == [AgentAssigned(row.id, row.agent.value)]
  }

  /** Nobody else holds the conversation. */
  predicate FreeFor(row: Conversation, a: Id) {
    row.agent == None || row.agent == Some(a)
  }

  predicate Replying(db: Db, ch: Change) {
    && ch.customer == Keep && Touches(db, ch) && ch.message.Some? && ch.ticket == Keep
    && var row := ch.conversation.row;
    && row.agent.Some? && IsAgent(db, ch.tenant, row.agent.value)
    && FreeFor(db.conversations[ch.conversation.id], row.agent.value)
    && row == HeldBy(db.conversations[ch.conversation.id], row.agent.value, row.updatedAt)
    && ch.message.value.conversation == row.id
    && ch.events == [Replied(row.id, row.agent.value, ch.message.value.id)]
  }

  predicate Closing(db: Db, ch: Change) {
    && ch.customer == Keep && Touches(db, ch) && ch.message == None && ch.ticket == Keep
    && var row := ch.conversation.row;
    && row == db.conversations[ch.conversation.id].(status := Closed, updatedAt := row.updatedAt)
    && |ch.events| == 1 && ch.events[0].ConversationClosed? && ch.events[0].conversation == row.id
    && (ch.events[0].actorRole == "agent" ==> row.agent == Some(ch.events[0].actor))
  }

  predicate Nothing(ch: Change) {
    ch.customer == Keep && ch.conversation == Keep && ch.message == None && ch.ticket == Keep && ch.events == []
  }

  predicate Escalation(db: Db, ch: Change) {
    && ch.customer == Keep && ch.message == None && ch.ticket.Insert?
    && var ticket := ch.ticket.row;
    && ticket.id == ch.ticket.id && ticket.tenant == ch.tenant
    && ticket.conversation in db.conversations
    && var row := db.conversations[ticket.conversation];
    && row.tenant == ch.tenant && row.status != Closed
    && TicketsOfConversation(db, ch.tenant, ticket.conversation) == {}
    && ticket.agent.Some? && IsAgent(db, ch.tenant, ticket.agent.value) && FreeFor(row, ticket.agent.value)
    && (if row.agent == None
        then ch.conversation.Update? && ch.conversation.id == row.id
             && ch.conversation.row == HeldBy(row, ticket.agent.value, ch.conversation.row.updatedAt)
        else ch.conversation == Keep)
    && ch.events == [Escalated(row.id, ticket.id, ticket.agent.value), TicketCreated(ticket)]
  }

  predicate StatusChange(db: Db, ch: Change) {
    && ch.customer == Keep && ch.conversation == Keep && ch.message == None
    && ch.ticket.Update? && ch.ticket.id in db.tickets && db.tickets[ch.ticket.id].tenant == ch.tenant
    && var row := ch.ticket.row;
    && row == db.tickets[ch.ticket.id].(status := row.status, updatedAt := row.updatedAt)
    && ch.events == [StatusUpdated(row.id, row.status)]
  }

  ghost predicate Legal(db: Db, ch: Change) {
    || Intake(db, ch) || Assignment(db, ch) || Replying(db, ch) || Closing(db, ch) || Nothing(ch)
    || Escalation(db, ch) || StatusChange(db, ch)
  }

  /** GetOrCreateCustomer answers with a customer of the tenant that is there once its write is done. */
  lemma CustomerIsTheTenants(db: Db, tenant: Id, externalId: string, name: string, newId: Id)
    requires Schema(db)
    ensures var (row, w) := CustomerFor(db, tenant, externalId, name, newId);
            && (w.Insert? ==> w.row.id == w.id && w.row.tenant == tenant)
            && (w.Update? ==>
                  w.id in db.customers && db.customers[w.id].tenant == tenant
                      && w.row == db.customers[w.id].(name := w.row.name))
            && row.id in Put(db.customers, w) && Put(db.customers, w)[row.id].tenant == tenant
  {
  }

  lemma WebhookIsIntake(db: Db, op: Op)
    requires Tables(db) && op.Webhook? && DecideWebhook(db, op).Ok?
    ensures Intake(db, DecideWebhook(db, op).value) && DecideWebhook(db, op).value.tenant == op.Tenant()
  {
    hide TrimSpace, References, OneActive, Ownership, CustomerFor;
    CustomerIsTheTenants(db, TrimSpace(op.tenantId), TrimSpace(op.externalId), TrimSpace(op.name), op.newCustomer);
  }

  lemma AssignIsAssignment(db: Db, op: Op)
    requires Tables(db) && op.Assign? && DecideAssign(db, op).Ok?
    ensures Assignment(db, DecideAssign(db, op).value) && DecideAssign(db, op).value.tenant == op.Tenant()
  {
  }

  lemma ReplyIsReplying(db: Db, op: Op)
    requires Tables(db) && op.Reply? && DecideReply(db, op).Ok?
    ensures Replying(db, DecideReply(db, op).value) && DecideReply(db, op).value.tenant == op.Tenant()
  {
  }

  lemma CloseIsClosing(db: Db, op: Op)
    requires Tables(db) && op.Close? && DecideClose(db, op).Ok?
    ensures Closing(db, DecideClose(db, op).value) || Nothing(DecideClose(db, op).value)
    ensures DecideClose(db, op).value.tenant == op.Tenant()
  {
  }

  lemma EscalateIsEscalation(db: Db, op: Op)
    requires Tables(db) && op.Escalate? && DecideEscalate(db, op).Ok?
    ensures Escalation(db, DecideEscalate(db, op).value) && DecideEscalate(db, op).value.tenant == op.Tenant()
  {
    hide TrimSpace, References, OneActive, Ownership;
  }

  lemma UpdateStatusIsStatusChange(db: Db, op: Op)
    requires Tables(db) && op.UpdateStatus? && DecideUpdateStatus(db, op).Ok?
    ensures StatusChange(db, DecideUpdateStatus(db, op).value) && DecideUpdateStatus(db, op).value.tenant == op.Tenant()
  {
  }

  /** Every decided transaction has one of the shapes, and writes for the caller's tenant. */
  lemma DecideIsLegal(db: Db, op: Op)
    requires Tables(db) && Decide(db, op).Ok?
    ensures Legal(db, Decide(db, op).value)
    ensures Decide(db, op).value.tenant == op.Tenant()
  {
    match op
    case Webhook(_, _, _, _, _, _, _, _, _) => WebhookIsIntake(db, op);
    case Assign(_, _, _, _, _, _) => AssignIsAssignment(db, op);
    case Reply(_, _, _, _, _, _) => ReplyIsReplying(db, op);
    case Close(_, _, _, _, _) => CloseIsClosing(db, op);
    case Escalate(_, _, _, _, _, _, _, _) => EscalateIsEscalation(db, op);
    case UpdateStatus(_, _, _, _, _, _) => UpdateStatusIsStatusChange(db, op);
  }

  // ----- each invariant survives a legal commit -----

  /** What all shapes say about the single rows they write. */
  ghost predicate SoundRows(db: Db, ch: Change) {
    && CustomerWrite(db, ch)
    && (ch.conversation.Insert? || ch.conversation.Update? ==> ch.conversation.row.id == ch.conversation.id)
    && (ch.conversation.Update? ==>
          ch.conversation.id in db.conversations
              && SameTriple(db.conversations[ch.conversation.id], ch.conversation.row))
    && (ch.ticket.Insert? || ch.ticket.Update? ==> ch.ticket.row.id == ch.ticket.id)
    && (ch.ticket.Update? ==>
          ch.ticket.id in db.tickets && ch.ticket.row.tenant == db.tickets[ch.ticket.id].tenant
          && ch.ticket.row.conversation == db.tickets[ch.ticket.id].conversation
          && ch.ticket.row.agent == db.tickets[ch.ticket.id].agent)
  }

  lemma LegalRowsAreSound(db: Db, ch: Change)
    requires Tables(db) && Legal(db, ch)
    ensures SoundRows(db, ch)
  {
  }

  lemma KeepsSchema(db: Db, ch: Change)
    requires Schema(db) && SoundRows(db, ch) && !Clashes(db, ch)
    ensures Schema(Written(db, ch))
  {
    hide Logged, Queued, MessageIdTaken;
    if ch.customer.Insert? {
      assert forall c | c in db.customers && db.customers[c].tenant == ch.customer.row.tenant
                        && db.customers[c].externalId == ch.customer.row.externalId
        :: c in CustomersByExternalId(db, ch.customer.row.tenant, ch.customer.row.externalId);
    }
  }

  lemma WritesConversationInTenant(db: Db, ch: Change)
    requires Tables(db) && Legal(db, ch) && !ch.conversation.Keep?
    ensures ConversationInTenant(Written(db, ch), ch.conversation.id)
  {
    hide OneActive, Ownership, TicketsOfConversation, ActiveConversations, TicketInTenant;
    if ch.conversation.Update? {
      assert ConversationInTenant(db, ch.conversation.id);
    }
  }

  lemma WritesTicketInTenant(db: Db, ch: Change)
    requires Tables(db) && Legal(db, ch) && !ch.ticket.Keep?
    ensures TicketInTenant(Written(db, ch), ch.ticket.id)
  {
    if ch.ticket.Update? {
      assert TicketInTenant(db, ch.ticket.id);
    }
  }

  lemma OtherRowsStayInTenant(db: Db, ch: Change)
    requires References(db) && SoundRows(db, ch) && !Clashes(db, ch)
    ensures forall c | c in db.conversations && (ch.conversation.Keep? || c != ch.conversation.id) ::
              ConversationInTenant(Written(db, ch), c)
    ensures forall t | t in db.tickets && (ch.ticket.Keep? || t != ch.ticket.id) :: TicketInTenant(Written(db, ch), t)
  {
    var db' := Written(db, ch);
    forall c | c in db.conversations && (ch.conversation.Keep? || c != ch.conversation.id)
      ensures ConversationInTenant(db', c)
    {
      assert ConversationInTenant(db, c);
    }
    forall t | t in db.tickets && (ch.ticket.Keep? || t != ch.ticket.id) ensures TicketInTenant(db', t) {
      assert TicketInTenant(db, t);
    }
  }

  lemma MessagesStayAttached(db: Db, ch: Change)
    requires Tables(db) && Legal(db, ch)
    ensures forall m | m in Written(db, ch).messages :: m.conversation in Written(db, ch).conversations
  {
  }

  lemma KeepsReferences(db: Db, ch: Change)
    requires Tables(db) && Legal(db, ch) && !Clashes(db, ch)
    ensures References(Written(db, ch))
  {
    LegalRowsAreSound(db, ch);
    OtherRowsStayInTenant(db, ch);
    MessagesStayAttached(db, ch);
    if !ch.conversation.Keep? { WritesConversationInTenant(db, ch); }
    if !ch.ticket.Keep? { WritesTicketInTenant(db, ch); }
  }

  lemma KeepsOwnership(db: Db, ch: Change)
    requires Tables(db) && Legal(db, ch) && !Clashes(db, ch)
    ensures Ownership(Written(db, ch))
  {
    hide References, OneActive, IsAgent, TicketsOfConversation, ActiveConversations, CustomersByExternalId;
  }

  lemma KeepsOneActive(db: Db, ch: Change)
    requires Tables(db) && Legal(db, ch) && !Clashes(db, ch)
    ensures OneActive(Written(db, ch))
  {
    hide References, Ownership, IsAgent, TicketsOfConversation, CustomersByExternalId;
    if ch.conversation.Insert? {
      var row := ch.conversation.row;
      forall c | c in db.conversations && SameTriple(db.conversations[c], row)
        ensures db.conversations[c].status == Closed
      {
        assert c !in ActiveConversations(db, ch.tenant, row.customer, row.channel);
      }
    }
  }

  /** The tables' invariants hold after every call, whatever the call and its inputs. */
  lemma KeepsTables(db: Db, op: Op)
    requires Tables(db)
    ensures Tables(After(db, op))
  {
    if Apply(db, op).Ok? {
      var ch := Decide(db, op).value;
      DecideIsLegal(db, op);
      LegalRowsAreSound(db, ch);
      KeepsSchema(db, ch);
      KeepsReferences(db, ch);
      KeepsOwnership(db, ch);
      KeepsOneActive(db, ch);
    }
  }

  // ----- runs -----

  /** A deployment before its first webhook: configured tenants, users and channels, nothing else. */
  ghost predicate Initial(db: Db) {
    && (forall t | t in db.tenants :: ColonFree(t))
    && (forall u | u in db.users :: ColonFree(u) && db.users[u].id == u)
    && db.customers == map[] && db.conversations == map[] && db.messages == [] && db.tickets == map[]
    && db.activity == [] && db.outbox == []
  }

  /** Tenants, users and channels are configuration: no call changes them. */
  lemma {:induction false} RunKeepsTables(db: Db, ops: seq<Op>)
    requires Initial(db)
    ensures Tables(Run(db, ops))
    ensures Run(db, ops).tenants == db.tenants && Run(db, ops).users == db.users && Run(db, ops).channels == db.channels
  {
    if ops == [] {
    } else {
      RunKeepsTables(db, ops[..|ops| - 1]);
      KeepsTables(Run(db, ops[..|ops| - 1]), ops[|ops| - 1]);
    }
  }
}
