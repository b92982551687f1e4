/** Tenant isolation as non-interference: what a tenant can see after any mixed run is what it would see had only
    its own calls been made on only its own rows. */
module Tenancy {
  import opened Text
  import opened Model
  import opened Operations
  import opened Invariants

  // ----- one tenant's part of the database -----

  function CustomersIn(table: map<Id, Customer>, tenant: Id): map<Id, Customer> {
    map c | c in table && table[c].tenant == tenant :: table[c]
  }

  function ConversationsIn(table: map<Id, Conversation>, tenant: Id): map<Id, Conversation> {
    map c | c in table && table[c].tenant == tenant :: table[c]
  }

  function TicketsIn(table: map<Id, Ticket>, tenant: Id): map<Id, Ticket> {
    map t | t in table && table[t].tenant == tenant :: table[t]
  }

  /** The messages of the given conversations, in order. */
  function MessagesWithin(messages: seq<Message>, conversations: map<Id, Conversation>): seq<Message> {
    if messages == [] then [] else
    var rest, last := MessagesWithin(messages[..|messages| - 1], conversations), messages[|messages| - 1];
    if last.conversation in conversations then rest + [last] else rest
  }

  function ActivityOf(log: seq<ActivityLog>, tenant: Id): seq<ActivityLog> {
    if log == [] then [] else
    var rest, last := ActivityOf(log[..|log| - 1], tenant), log[|log| - 1];
    if last.tenant == tenant then rest + [last] else rest
  }

  function OutboxOf(log: seq<OutboxEvent>, tenant: Id): seq<OutboxEvent> {
    if log == [] then [] else
    var rest, last := OutboxOf(log[..|log| - 1], tenant), log[|log| - 1];
    if last.tenant == tenant then rest + [last] else rest
  }

  /** Exactly the tenant's rows of every table. */
  function View(db: Db, tenant: Id): Db {
    Db(db.tenants * {tenant},
       map u | u in db.users && db.users[u].tenant == tenant :: db.users[u],
       map c | c in db.channels && db.channels[c].tenant == tenant :: db.channels[c],
       CustomersIn(db.customers, tenant),
       ConversationsIn(db.conversations, tenant),
       MessagesWithin(db.messages, ConversationsIn(db.conversations, tenant)),
       TicketsIn(db.tickets, tenant),
       ActivityOf(db.activity, tenant),
       OutboxOf(db.outbox, tenant))
  }

  // ----- the decision depends on the view only -----

  lemma ViewQueries(db: Db, tenant: Id)
    ensures forall u: Id :: FindUser(View(db, tenant), u, tenant) == FindUser(db, u, tenant)
    ensures forall k: string :: FindChannel(View(db, tenant), tenant, k) == FindChannel(db, tenant, k)
    ensures forall e: string :: FindCustomer(View(db, tenant), tenant, e) == FindCustomer(db, tenant, e)
    ensures forall c: Id, h: Id ::
              FindActiveConversation(View(db, tenant), tenant, c, h) == FindActiveConversation(db, tenant, c, h)
    ensures forall c: Id :: FindConversation(View(db, tenant), tenant, c) == FindConversation(db, tenant, c)
    ensures forall c: Id ::
              FindTicketByConversation(View(db, tenant), tenant, c) == FindTicketByConversation(db, tenant, c)
    ensures forall t: Id :: FindTicket(View(db, tenant), tenant, t) == FindTicket(db, tenant, t)
  {
    var v := View(db, tenant);
    forall k: string ensures FindChannel(v, tenant, k) == FindChannel(db, tenant, k) {
      assert ChannelsByKey(v, tenant, k) == ChannelsByKey(db, tenant, k);
    }
    forall e: string ensures FindCustomer(v, tenant, e) == FindCustomer(db, tenant, e) {
      assert CustomersByExternalId(v, tenant, e) == CustomersByExternalId(db, tenant, e);
    }
    forall c: Id, h: Id ensures FindActiveConversation(v, tenant, c, h) == FindActiveConversation(db, tenant, c, h) {
      assert ActiveConversations(v, tenant, c, h) == ActiveConversations(db, tenant, c, h);
    }
    forall c: Id ensures FindTicketByConversation(v, tenant, c) == FindTicketByConversation(db, tenant, c) {
      assert TicketsOfConversation(v, tenant, c) == TicketsOfConversation(db, tenant, c);
    }
  }

  lemma WebhookSeesView(db: Db, op: Op)
    requires op.Webhook?
    ensures DecideWebhook(View(db, op.Tenant()), op) == DecideWebhook(db, op)
  {
    ViewQueries(db, op.Tenant());
  }

  lemma DecisionSeesView(db: Db, op: Op)
    ensures Decide(View(db, op.Tenant()), op) == Decide(db, op)
  {
    if op.Webhook? {
      WebhookSeesView(db, op);
    } else {
      ViewQueries(db, op.Tenant());
    }
  }

  // ----- the commit stays inside the tenant -----

  lemma {:induction false} SameMessages(messages: seq<Message>, a: map<Id, Conversation>, b: map<Id, Conversation>)
    requires forall m | m in messages :: m.conversation in a <==> m.conversation in b
    ensures MessagesWithin(messages, a) == MessagesWithin(messages, b)
  {
    if messages == [] {
    } else {
      SameMessages(messages[..|messages| - 1], a, b);
    }
  }

  /** All rows a transaction writes, old and new version, belong to its tenant. */
  ghost predicate OwnRows(db: Db, ch: Change) {
    && (ch.customer.Keep? || ch.customer.row.tenant == ch.tenant)
    && (ch.customer.Update? ==> ch.customer.id in db.customers && db.customers[ch.customer.id].tenant == ch.tenant)
    && (ch.conversation.Keep? || ch.conversation.row.tenant == ch.tenant)
    && (ch.conversation.Update? ==>
          ch.conversation.id in db.conversations && db.conversations[ch.conversation.id].tenant == ch.tenant)
    && (ch.message.Some? ==> !ch.conversation.Keep? && ch.message.value.conversation == ch.conversation.id)
    && (ch.ticket.Keep? || ch.ticket.row.tenant == ch.tenant)
    && (ch.ticket.Update? ==> ch.ticket.id in db.tickets && db.tickets[ch.ticket.id].tenant == ch.tenant)
  }

  lemma WritesOwnRows(db: Db, ch: Change)
    requires Tables(db) && Legal(db, ch)
    ensures OwnRows(db, ch)
  {
  }

  lemma CustomersAfterPut(table: map<Id, Customer>, w: Write<Customer>, owner: Id, tenant: Id)
    requires w.Keep? || w.row.tenant == owner
    requires (w.Insert? ==> w.id !in table) && (w.Update? ==> w.id in table && table[w.id].tenant == owner)
    ensures CustomersIn(Put(table, w), tenant) ==
            if owner == tenant then Put(CustomersIn(table, tenant), w) else CustomersIn(table, tenant)
  {
  }

  lemma ConversationsAfterPut(table: map<Id, Conversation>, w: Write<Conversation>, owner: Id, tenant: Id)
    requires w.Keep? || w.row.tenant == owner
    requires (w.Insert? ==> w.id !in table) && (w.Update? ==> w.id in table && table[w.id].tenant == owner)
    ensures ConversationsIn(Put(table, w), tenant) ==
            if owner == tenant then Put(ConversationsIn(table, tenant), w) else ConversationsIn(table, tenant)
  {
  }

  lemma TicketsAfterPut(table: map<Id, Ticket>, w: Write<Ticket>, owner: Id, tenant: Id)
    requires w.Keep? || w.row.tenant == owner
    requires (w.Insert? ==> w.id !in table) && (w.Update? ==> w.id in table && table[w.id].tenant == owner)
    ensures TicketsIn(Put(table, w), tenant) ==
            if owner == tenant then Put(TicketsIn(table, tenant), w) else TicketsIn(table, tenant)
  {
  }

  lemma MessagesAfterPut(messages: seq<Message>, m: Option<Message>, table: map<Id, Conversation>,
                         w: Write<Conversation>, owner: Id, tenant: Id)
    requires w.Keep? || w.row.tenant == owner
    requires (w.Insert? ==> w.id !in table) && (w.Update? ==> w.id in table && table[w.id].tenant == owner)
    requires m.Some? ==> !w.Keep? && m.value.conversation == w.id
    requires forall x | x in messages :: x.conversation in table
    ensures var more := if m.Some? then [m.value] else [];
            MessagesWithin(messages + more, ConversationsIn(Put(table, w), tenant)) ==
            MessagesWithin(messages, ConversationsIn(table, tenant)) + (if owner == tenant then more else [])
  {
    var before, after := ConversationsIn(table, tenant), ConversationsIn(Put(table, w), tenant);
    ConversationsAfterPut(table, w, owner, tenant);
    forall x | x in messages ensures x.conversation in before <==> x.conversation in after {
      assert x.conversation in table;
    }
    SameMessages(messages, before, after);
    if m.Some? {
      assert (messages + [m.value])[..|messages|] == messages;
    } else {
      assert messages + [] == messages;
    }
  }

  lemma TableViewsAfter(db: Db, ch: Change, tenant: Id)
    requires OwnRows(db, ch) && (forall m | m in db.messages :: m.conversation in db.conversations)
    requires ch.customer.Insert? ==> ch.customer.id !in db.customers
    requires ch.conversation.Insert? ==> ch.conversation.id !in db.conversations
    requires ch.ticket.Insert? ==> ch.ticket.id !in db.tickets
    ensures var own, more := ch.tenant == tenant, if ch.message.Some? then [ch.message.value] else [];
            && CustomersIn(Put(db.customers, ch.customer), tenant)
               == (if own then Put(CustomersIn(db.customers, tenant), ch.customer)
                   else CustomersIn(db.customers, tenant))
            && ConversationsIn(Put(db.conversations, ch.conversation), tenant)
               == (if own then Put(ConversationsIn(db.conversations, tenant), ch.conversation)
                   else ConversationsIn(db.conversations, tenant))
            && MessagesWithin(db.messages + more, ConversationsIn(Put(db.conversations, ch.conversation), tenant))
               == MessagesWithin(db.messages, ConversationsIn(db.conversations, tenant)) + (if own then more else [])
            && TicketsIn(Put(db.tickets, ch.ticket), tenant)
               == (if own then Put(TicketsIn(db.tickets, tenant), ch.ticket) else TicketsIn(db.tickets, tenant))
  {
    CustomersAfterPut(db.customers, ch.customer, ch.tenant, tenant);
    ConversationsAfterPut(db.conversations, ch.conversation, ch.tenant, tenant);
    MessagesAfterPut(db.messages, ch.message, db.conversations, ch.conversation, ch.tenant, tenant);
    TicketsAfterPut(db.tickets, ch.ticket, ch.tenant, tenant);
  }

  lemma ActivityOfOne(log: seq<ActivityLog>, a: ActivityLog, tenant: Id)
    ensures ActivityOf(log + [a], tenant) == ActivityOf(log, tenant) + (if a.tenant == tenant then [a] else [])
  {
    assert (log + [a])[..|log|] == log;
  }

  lemma {:induction false} ActivityOfAppend(log: seq<ActivityLog>, more: seq<ActivityLog>, owner: Id, tenant: Id)
    requires forall a | a in more :: a.tenant == owner
    ensures ActivityOf(log + more, tenant) == ActivityOf(log, tenant) + (if owner == tenant then more else [])
  {
    hide ActivityOf;
    if more == [] {
      assert log + more == log;
    } else {
      var init, last := more[..|more| - 1], more[|more| - 1];
      ActivityOfAppend(log, init, owner, tenant);
      assert more == init + [last] && log + more == (log + init) + [last];
      ActivityOfOne(log + init, last, tenant);
      assert last.tenant == owner;
    }
  }

  lemma OutboxOfOne(log: seq<OutboxEvent>, a: OutboxEvent, tenant: Id)
    ensures OutboxOf(log + [a], tenant) == OutboxOf(log, tenant) + (if a.tenant == tenant then [a] else [])
  {
    assert (log + [a])[..|log|] == log;
  }

  lemma {:induction false} OutboxOfAppend(log: seq<OutboxEvent>, more: seq<OutboxEvent>, owner: Id, tenant: Id)
    requires forall a | a in more :: a.tenant == owner
    ensures OutboxOf(log + more, tenant) == OutboxOf(log, tenant) + (if owner == tenant then more else [])
  {
    hide OutboxOf;
    if more == [] {
      assert log + more == log;
    } else {
      var init, last := more[..|more| - 1], more[|more| - 1];
      OutboxOfAppend(log, init, owner, tenant);
      assert more == init + [last] && log + more == (log + init) + [last];
      OutboxOfOne(log + init, last, tenant);
    }
  }

  lemma LogViewsAfter(db: Db, ch: Change, tenant: Id)
    ensures ActivityOf(Written(db, ch).activity, tenant) ==
            ActivityOf(db.activity, tenant) + (if ch.tenant == tenant then Logged(ch.tenant, ch.events) else [])
    ensures OutboxOf(Written(db, ch).outbox, tenant) ==
            OutboxOf(db.outbox, tenant) + (if ch.tenant == tenant then Queued(ch.tenant, ch.events) else [])
  {
    ActivityOfAppend(db.activity, Logged(ch.tenant, ch.events), ch.tenant, tenant);
    OutboxOfAppend(db.outbox, Queued(ch.tenant, ch.events), ch.tenant, tenant);
  }

  /** The tenant's own commit, seen through its view, is the same commit on the view. */
  lemma OwnCommit(db: Db, ch: Change)
    requires References(db) && OwnRows(db, ch) && !Clashes(db, ch)
    ensures View(Written(db, ch), ch.tenant) == Written(View(db, ch.tenant), ch)
  {
    TableViewsAfter(db, ch, ch.tenant);
    LogViewsAfter(db, ch, ch.tenant);
  }

  /** Nobody else sees anything of it. */
  lemma OthersCommit(db: Db, ch: Change, tenant: Id)
    requires References(db) && OwnRows(db, ch) && !Clashes(db, ch) && ch.tenant != tenant
    ensures View(Written(db, ch), tenant) == View(db, tenant)
  {
    TableViewsAfter(db, ch, tenant);
    LogViewsAfter(db, ch, tenant);
  }

  // ----- calls -----

  /** The identifiers the call generates are new. */
  ghost predicate Fresh(db: Db, op: Op) {
    && (op.Webhook? ==> op.newCustomer !in db.customers && op.newConversation !in db.conversations)
    && (op.Webhook? || op.Reply? ==> forall m | m in db.messages :: m.id != op.newMessage)
    && (op.Escalate? ==> op.newTicket !in db.tickets)
  }

  lemma FreshWebhookDoesNotClash(db: Db, op: Op)
    requires Fresh(db, op) && op.Webhook? && Decide(db, op).Ok?
    ensures !Clashes(db, Decide(db, op).value)
  {
  }

  lemma EscalationInsertsNewTicket(db: Db, op: Op)
    requires op.Escalate? && Decide(db, op).Ok?
    ensures var ch := Decide(db, op).value;
            ch.ticket.Insert? && ch.ticket.id == op.newTicket && ch.customer == Keep && !ch.conversation.Insert?
                && ch.message == None
  {
    hide TrimSpace;
  }

  lemma FreshEscalationDoesNotClash(db: Db, op: Op)
    requires Tables(db) && Fresh(db, op) && op.Escalate? && Decide(db, op).Ok?
    ensures !Clashes(db, Decide(db, op).value)
  {
    hide DecideEscalate, OneActive, Ownership, IsAgent, TrimSpace;
    EscalateIsEscalation(db, op);
    EscalationInsertsNewTicket(db, op);
    var ch := Decide(db, op).value;
    forall t | t in db.tickets ensures db.tickets[t].conversation != ch.ticket.row.conversation {
      assert TicketInTenant(db, t);
      assert t !in TicketsOfConversation(db, ch.tenant, ch.ticket.row.conversation);
    }
  }

  lemma OthersInsertMessagesOnly(db: Db, op: Op)
    requires !op.Webhook? && !op.Escalate? && Decide(db, op).Ok?
    ensures var ch := Decide(db, op).value;
            && ch.customer == Keep && !ch.conversation.Insert? && !ch.ticket.Insert?
            && (ch.message.Some? ==> op.Reply? && ch.message.value.id == op.newMessage)
  {
    hide TrimSpace;
  }

  lemma FreshDoesNotClash(db: Db, op: Op)
    requires Tables(db) && Fresh(db, op) && Decide(db, op).Ok?
    ensures !Clashes(db, Decide(db, op).value)
  {
    hide Decide, Tables, CustomersByExternalId;
    if op.Webhook? {
      FreshWebhookDoesNotClash(db, op);
    } else if op.Escalate? {
      FreshEscalationDoesNotClash(db, op);
    } else {
      OthersInsertMessagesOnly(db, op);
    }
  }

  lemma {:induction false} MessagesWithinAreMessages(messages: seq<Message>, conversations: map<Id, Conversation>)
    ensures forall m | m in MessagesWithin(messages, conversations) :: m in messages && m.conversation in conversations
  {
    if messages == [] {
    } else {
      MessagesWithinAreMessages(messages[..|messages| - 1], conversations);
    }
  }

  lemma ViewDoesNotClash(db: Db, ch: Change, tenant: Id)
    requires !Clashes(db, ch)
    ensures !Clashes(View(db, tenant), ch)
  {
    var v := View(db, tenant);
    MessagesWithinAreMessages(db.messages, v.conversations);
    if ch.customer.Insert? {
      var t, e := ch.customer.row.tenant, ch.customer.row.externalId;
      assert CustomersByExternalId(v, t, e) <= CustomersByExternalId(db, t, e);
    }
  }

  lemma OwnCall(db: Db, op: Op)
    requires Tables(db) && Fresh(db, op)
    ensures View(After(db, op), op.Tenant()) == After(View(db, op.Tenant()), op)
  {
    DecisionSeesView(db, op);
    if Decide(db, op).Ok? {
      var ch := Decide(db, op).value;
      DecideIsLegal(db, op);
      FreshDoesNotClash(db, op);
      ViewDoesNotClash(db, ch, op.Tenant());
      WritesOwnRows(db, ch);
      OwnCommit(db, ch);
    }
  }

  lemma OthersCall(db: Db, op: Op, tenant: Id)
    requires Tables(db) && op.Tenant() != tenant
    ensures View(After(db, op), tenant) == View(db, tenant)
  {
    if Apply(db, op).Ok? {
      DecideIsLegal(db, op);
      WritesOwnRows(db, Decide(db, op).value);
      OthersCommit(db, Decide(db, op).value, tenant);
    }
  }

  // ----- what the caller is told -----

  lemma {:induction false} MessagesSeenWithin(messages: seq<Message>, conversations: map<Id, Conversation>, c: Id)
    requires c in conversations
    ensures MessagesOf(MessagesWithin(messages, conversations), c) == MessagesOf(messages, c)
  {
    if messages == [] {
    } else {
      var n := |messages| - 1;
      MessagesSeenWithin(messages[..n], conversations, c);
      var rest := MessagesWithin(messages[..n], conversations);
      if messages[n].conversation in conversations {
        assert (rest + [messages[n]])[..|rest|] == rest;
      }
    }
  }

  lemma ConversationReadSeesView(db: Db, tenant: Id, id: Id)
    requires Tables(db)
    ensures GetConversation(View(db, tenant), tenant, id) == GetConversation(db, tenant, id)
  {
    hide OneActive, Ownership, MessagesOf, MessagesWithin, ActivityOf, OutboxOf, TicketsOfConversation;
    ViewQueries(db, tenant);
    if id in db.conversations && db.conversations[id].tenant == tenant {
      assert ConversationInTenant(db, id);
      MessagesSeenWithin(db.messages, ConversationsIn(db.conversations, tenant), id);
      var ticket := FindTicketByConversation(db, tenant, id);
      if ticket.Some? {
        TicketFound(db, tenant, id);
        assert TicketInTenant(db, ticket.value);
      }
    }
  }

  lemma TicketFound(db: Db, tenant: Id, conversation: Id)
    ensures var t := FindTicketByConversation(db, tenant, conversation);
            t.Some? ==> t.value in db.tickets && db.tickets[t.value].tenant == tenant
  {
  }

  lemma TicketReadSeesView(db: Db, tenant: Id, id: Id)
    requires Tables(db)
    ensures GetTicket(View(db, tenant), tenant, id) == GetTicket(db, tenant, id)
  {
    hide OneActive, Ownership, MessagesOf, MessagesWithin, ActivityOf, OutboxOf;
    if id in db.tickets && db.tickets[id].tenant == tenant {
      assert TicketInTenant(db, id);
    }
  }

  lemma ReadsSeeView(db: Db, tenant: Id, id: Id)
    requires Tables(db)
    ensures GetConversation(View(db, tenant), tenant, id) == GetConversation(db, tenant, id)
    ensures GetTicket(View(db, tenant), tenant, id) == GetTicket(db, tenant, id)
  {
    ConversationReadSeesView(db, tenant, id);
    TicketReadSeesView(db, tenant, id);
  }

  lemma OutcomeSeesView(db: Db, op: Op)
    requires Tables(db) && Fresh(db, op)
    ensures Outcome(View(db, op.Tenant()), op) == Outcome(db, op)
  {
    DecisionSeesView(db, op);
    if Decide(db, op).Ok? {
      var ch := Decide(db, op).value;
      var id := if op.Escalate? then op.newTicket else if op.UpdateStatus? then op.ticket
                else if op.Webhook? && ch.conversation != Keep then ch.conversation.id
                else if op.Webhook? then op.newConversation else op.conversation;
      DecideIsLegal(db, op);
      FreshDoesNotClash(db, op);
      ViewDoesNotClash(db, ch, op.Tenant());
      WritesOwnRows(db, ch);
      OwnCommit(db, ch);
      KeepsTables(db, op);
      ReadsSeeView(Written(db, ch), op.Tenant(), id);
    }
  }

  /** Two databases a tenant cannot tell apart stay so, whatever the tenant calls, and answer it alike. */
  lemma IndistinguishableCalls(db1: Db, db2: Db, op: Op)
    requires Tables(db1) && Tables(db2) && Fresh(db1, op) && Fresh(db2, op)
    requires View(db1, op.Tenant()) == View(db2, op.Tenant())
    ensures Outcome(db1, op) == Outcome(db2, op)
    ensures View(After(db1, op), op.Tenant()) == View(After(db2, op), op.Tenant())
  {
    OutcomeSeesView(db1, op);
    OutcomeSeesView(db2, op);
    OwnCall(db1, op);
    OwnCall(db2, op);
  }

  // ----- runs -----

  /** Every call of the run generates new identifiers. */
  ghost predicate FreshRun(db: Db, ops: seq<Op>) {
    ops == [] || (FreshRun(db, ops[..|ops| - 1]) && Fresh(Run(db, ops[..|ops| - 1]), ops[|ops| - 1]))
  }

  /** The calls of one tenant. */
  function CallsOf(ops: seq<Op>, tenant: Id): seq<Op> {
    if ops == [] then [] else
    var rest, last := CallsOf(ops[..|ops| - 1], tenant), ops[|ops| - 1];
    if last.Tenant() == tenant then rest + [last] else rest
  }

  /** Main result: run everybody's calls and look at one tenant's rows, or run only its own calls on only its own
      rows: the same. */
  lemma {:induction false} TenantsDoNotInterfere(db: Db, ops: seq<Op>, tenant: Id)
    requires Initial(db) && FreshRun(db, ops)
    ensures View(Run(db, ops), tenant) == Run(View(db, tenant), CallsOf(ops, tenant))
  {
    if ops == [] {
    } else {
      var rest, last := ops[..|ops| - 1], ops[|ops| - 1];
      TenantsDoNotInterfere(db, rest, tenant);
      RunKeepsTables(db, rest);
      if last.Tenant() == tenant {
        OwnCall(Run(db, rest), last);
        assert (CallsOf(rest, tenant) + [last])[..|CallsOf(rest, tenant)|] == CallsOf(rest, tenant);
      } else {
        OthersCall(Run(db, rest), last, tenant);
      }
    }
  }
}
