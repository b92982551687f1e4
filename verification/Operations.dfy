/** The service operations as functions on the database value. Each operation is a decision taken
    on what the transaction reads, followed by a commit of the rows and events it writes; the
    methods in ConversationService and TicketService are proved against these functions. */
module Operations {
  import opened Text
  import opened Model
  import opened Ordering

  // ----- repository queries -----

  function FindUser(db: Db, user: Id, tenant: Id): Option<User> {
    if user in db.users && db.users[user].tenant == tenant then Some(db.users[user]) else None
  }

  function ChannelsByKey(db: Db, tenant: Id, key: string): set<Id> {
    set c | c in db.channels && db.channels[c].tenant == tenant && db.channels[c].key == key
  }

  function FindChannel(db: Db, tenant: Id, key: string): Option<Id> {
    var ids := ChannelsByKey(db, tenant, key);
    if ids == {} then None else Some(First(ids))
  }

  function CustomersByExternalId(db: Db, tenant: Id, externalId: string): set<Id> {
    set c | c in db.customers && db.customers[c].tenant == tenant && db.customers[c].externalId == externalId
  }

  function FindCustomer(db: Db, tenant: Id, externalId: string): Option<Id> {
    var ids := CustomersByExternalId(db, tenant, externalId);
    if ids == {} then None else Some(First(ids))
  }

  /** The open or assigned conversations of one customer on one channel, with their updated_at. */
  function ActiveConversations(db: Db, tenant: Id, customer: Id, channel: Id): map<Id, nat> {
    map c | c in db.conversations
            && db.conversations[c].tenant == tenant && db.conversations[c].customer == customer
            && db.conversations[c].channel == channel && db.conversations[c].status != Closed
      :: db.conversations[c].updatedAt
  }

  function FindActiveConversation(db: Db, tenant: Id, customer: Id, channel: Id): Option<Id> {
    var rows := ActiveConversations(db, tenant, customer, channel);
    if rows == map[] then None else Some(Newest(rows))
  }

  function FindConversation(db: Db, tenant: Id, conversation: Id): Option<Conversation> {
    if conversation in db.conversations && db.conversations[conversation].tenant == tenant
    then Some(db.conversations[conversation]) else None
  }

  function TicketsOfConversation(db: Db, tenant: Id, conversation: Id): set<Id> {
    set t | t in db.tickets && db.tickets[t].tenant == tenant && db.tickets[t].conversation == conversation
  }

  function FindTicketByConversation(db: Db, tenant: Id, conversation: Id): Option<Id> {
    var ids := TicketsOfConversation(db, tenant, conversation);
    if ids == {} then None else Some(First(ids))
  }

  function FindTicket(db: Db, tenant: Id, ticket: Id): Option<Ticket> {
    if ticket in db.tickets && db.tickets[ticket].tenant == tenant then Some(db.tickets[ticket]) else None
  }

  // ----- what one transaction writes -----

  datatype Write<+T> = Keep | Insert(id: Id, row: T) | Update(id: Id, row: T)

  datatype Change = Change(
    tenant: Id,
    customer: Write<Customer>,
    conversation: Write<Conversation>,
    message: Option<Message>,
    ticket: Write<Ticket>,
    events: seq<Event>)

  function Put<T>(table: map<Id, T>, w: Write<T>): map<Id, T> {
    match w
    case Keep => table
    case Insert(id, row) => table[id := row]
    case Update(id, row) => table[id := row]
  }

  predicate MessageIdTaken(db: Db, id: Id) {
    exists m | m in db.messages :: m.id == id
  }

  predicate HasTicket(db: Db, conversation: Id) {
    exists t | t in db.tickets :: db.tickets[t].conversation == conversation
  }

  /** The primary key or the unique key on the conversation is taken. */
  predicate TicketKeyTaken(db: Db, id: Id, conversation: Id) {
    id in db.tickets || HasTicket(db, conversation)
  }

  /** An insert violates a primary key or one of the unique keys of the schema. */
  predicate Clashes(db: Db, ch: Change) {
    || (ch.customer.Insert?
        && (ch.customer.id in db.customers
            || CustomersByExternalId(db, ch.customer.row.tenant, ch.customer.row.externalId) != {}))
    || (ch.conversation.Insert? && ch.conversation.id in db.conversations)
    || (ch.message.Some? && MessageIdTaken(db, ch.message.value.id))
    || (ch.ticket.Insert? && TicketKeyTaken(db, ch.ticket.id, ch.ticket.row.conversation))
  }

  function Logged(tenant: Id, events: seq<Event>): seq<ActivityLog> {
    seq(|events|, i requires 0 <= i < |events| => ActivityLog(tenant, events[i]))
  }

  function Queued(tenant: Id, events: seq<Event>): seq<OutboxEvent> {
    seq(|events|, i requires 0 <= i < |events| => OutboxEvent(tenant, events[i], events[i].Type(), 0, false, false))
  }

  function Written(db: Db, ch: Change): Db {
    db.(customers := Put(db.customers, ch.customer),
        conversations := Put(db.conversations, ch.conversation),
        messages := db.messages + (if ch.message.Some? then [ch.message.value] else []),
        tickets := Put(db.tickets, ch.ticket),
        activity := db.activity + Logged(ch.tenant, ch.events),
        outbox := db.outbox + Queued(ch.tenant, ch.events))
  }

  function Commit(db: Db, ch: Change): Result<Db> {
    if Clashes(db, ch) then Err(DuplicateKey) else Ok(Written(db, ch))
  }

  // ----- the operations -----

  /** A call of one of the mutating service methods. New primary keys and the clock are inputs; stamp is
      whatever updated_at the ORM leaves on a row whose UpdatedAt the service does not set. */
  datatype Op =
    | Webhook(tenantId: string, channelKey: string, externalId: string, name: string, text: string,
              newCustomer: Id, newConversation: Id, newMessage: Id, now: nat)
    | Assign(tenant: Id, conversation: Id, actor: Id, actorRole: string, agentId: string, stamp: nat)
    | Reply(tenant: Id, conversation: Id, agent: Id, text: string, newMessage: Id, now: nat)
    | Close(tenant: Id, conversation: Id, actor: Id, actorRole: string, stamp: nat)
    | Escalate(tenant: Id, conversation: Id, agent: Id, title: string, description: string, priority: string,
               newTicket: Id, stamp: nat)
    | UpdateStatus(tenant: Id, ticket: Id, actor: Id, actorRole: string, statusText: string, stamp: nat)
  {
    function Tenant(): Id {
      if Webhook? then TrimSpace(tenantId) else tenant
    }
  }

  /** GetOrCreateCustomer: the row to use and the write that makes it current. */
  function CustomerFor(db: Db, tenant: Id, externalId: string, name: string, newId: Id): (Customer, Write<Customer>) {
    match FindCustomer(db, tenant, externalId)
    case Some(id) =>
      if name != "" && db.customers[id].name != name
      then var row := db.customers[id].(name := name); (row, Update(id, row))
      else (db.customers[id], Keep)
    case None =>
      var row := Customer(newId, tenant, externalId, if name == "" then externalId else name);
      (row, Insert(newId, row))
  }

  /** The customer's message joins the active conversation on the channel, or starts one. */
  function IntakeChange(db: Db, op: Op, channel: Id): Change
    requires op.Webhook?
  {
    var tenant := TrimSpace(op.tenantId);
    var (customer, customerWrite) := CustomerFor(db, tenant, TrimSpace(op.externalId), TrimSpace(op.name),
        op.newCustomer);
    match FindActiveConversation(db, tenant, customer.id, channel)
    case Some(id) =>
      var row := db.conversations[id].(updatedAt := op.now);
      var message := Message(op.newMessage, row.id, FromCustomer, None, TrimSpace(op.text));
      Change(tenant, customerWrite, Update(row.id, row), Some(message), Keep, [Received(message)])
    case None =>
      var row := Conversation(op.newConversation, tenant, customer.id, channel, Open, None, op.now);
      var message := Message(op.newMessage, row.id, FromCustomer, None, TrimSpace(op.text));
      Change(tenant, customerWrite, Insert(row.id, row), Some(message), Keep, [Created(row), Received(message)])
  }

  function DecideWebhook(db: Db, op: Op): Result<Change>
    requires op.Webhook?
  {
    var tenant, key := TrimSpace(op.tenantId), TrimSpace(op.channelKey);
    if tenant == "" || key == "" || TrimSpace(op.externalId) == "" || TrimSpace(op.text) == "" then Err(InvalidWebhook)
    else if tenant !in db.tenants then Err(TenantNotFound)
    else match FindChannel(db, tenant, key)
      case None => Err(InvalidChannel)
      case Some(channel) => Ok(IntakeChange(db, op, channel))
  }

  function DecideAssign(db: Db, op: Op): Result<Change>
    requires op.Assign?
  {
    var agentId := TrimSpace(op.agentId);
    if op.actorRole != ROLE_ADMIN then Err(Forbidden)
    else if FindUser(db, op.actor, op.tenant).None? then Err(Forbidden)
    else if agentId == "" then Err(InvalidAssignment)
    else match FindUser(db, agentId, op.tenant)
      case None => Err(InvalidAssignment)
      case Some(agent) =>
        if agent.role != ROLE_AGENT then Err(InvalidAssignment)
        else match FindConversation(db, op.tenant, op.conversation)
          case None => Err(RecordNotFound)
          case Some(row) =>
            if row.status == Closed then Err(Error.ConversationClosed)
            else
              var row' := row.(agent := Some(agent.id), status := Assigned, updatedAt := op.stamp);
              Ok(Change(op.tenant, Keep, Update(row.id, row'), None, Keep, [AgentAssigned(row.id, agent.id)]))
  }

  /** Reply and escalate take over an unassigned conversation. */
  function TakenBy(row: Conversation, agent: Id): Conversation {
    if row.agent.None? then row.(agent := Some(agent), status := Assigned) else row
  }

  function DecideReply(db: Db, op: Op): Result<Change>
    requires op.Reply?
  {
    var text := TrimSpace(op.text);
    if text == "" then Err(InvalidMessage)
    else match FindUser(db, op.agent, op.tenant)
      case None => Err(Forbidden)
      case Some(agent) =>
        if agent.role != ROLE_AGENT then Err(Forbidden)
        else match FindConversation(db, op.tenant, op.conversation)
          case None => Err(RecordNotFound)
          case Some(row) =>
            if row.status == Closed then Err(Error.ConversationClosed)
            else if row.agent.Some? && row.agent.value != agent.id then Err(AssignedElsewhere)
            else
              var row' := TakenBy(row, agent.id).(updatedAt := op.now);
              var message := Message(op.newMessage, row.id, FromAgent, Some(agent.id), text);
              Ok(Change(op.tenant, Keep, Update(row.id, row'), Some(message), Keep,
                        [Replied(row.id, agent.id, message.id)]))
  }

  function DecideClose(db: Db, op: Op): Result<Change>
    requires op.Close?
  {
    match FindConversation(db, op.tenant, op.conversation)
    case None => Err(RecordNotFound)
    case Some(row) =>
      if op.actorRole == ROLE_AGENT && row.agent != Some(op.actor) then Err(Forbidden)
      else if row.status == Closed then Ok(Change(op.tenant, Keep, Keep, None, Keep, []))
      else
        var row' := row.(status := Closed, updatedAt := op.stamp);
        Ok(Change(op.tenant, Keep, Update(row.id, row'), None, Keep,
                  [Event.ConversationClosed(row.id, op.actor, op.actorRole)]))
  }

  function ParsePriority(text: string): Option<Priority> {
    if text == Low.Text() then Some(Low) else if text == Medium.Text() then Some(Medium)
    else if text == High.Text() then Some(High) else None
  }

  function ParseTicketStatus(text: string): Option<TicketStatus> {
    if text == TicketOpen.Text() then Some(TicketOpen) else if text == InProgress.Text() then Some(InProgress)
    else if text == Resolved.Text() then Some(Resolved) else if text == TicketClosed.Text() then Some(TicketClosed)
    else None
  }

  /** A text is a valid priority, or ticket status, exactly when it is the stored text of one. */
  lemma TextsParseBack(text: string, p: Priority, s: TicketStatus)
    ensures ParsePriority(text) == Some(p) <==> text == p.Text()
    ensures ParseTicketStatus(text) == Some(s) <==> text == s.Text()
  {
    assert |Low.Text()| == 3 && |Medium.Text()| == 6 && |High.Text()| == 4;
    assert |TicketOpen.Text()| == 4 && |InProgress.Text()| == 11 && |Resolved.Text()| == 8
        && |TicketClosed.Text()| == 6;
  }

  /** An absent priority means medium. */
  function PriorityOrDefault(text: string): Option<Priority> {
    if text == "" then Some(Medium) else ParsePriority(text)
  }

  function DecideEscalate(db: Db, op: Op): Result<Change>
    requires op.Escalate?
  {
    var title, description := TrimSpace(op.title), TrimSpace(op.description);
    if title == "" || description == "" then Err(InvalidTicket)
    else match PriorityOrDefault(TrimSpace(op.priority))
      case None => Err(InvalidPriority)
      case Some(priority) =>
        match FindUser(db, op.agent, op.tenant)
        case None => Err(Forbidden)
        case Some(agent) =>
          if agent.role != ROLE_AGENT then Err(Forbidden)
          else match FindConversation(db, op.tenant, op.conversation)
            case None => Err(RecordNotFound)
            case Some(row) =>
              if row.status == Closed then Err(Error.ConversationClosed)
              else if row.agent.Some? && row.agent.value != agent.id then Err(AssignedElsewhere)
              else if FindTicketByConversation(db, op.tenant, op.conversation).Some? then Err(TicketExists)
              else
                var row' := TakenBy(row, agent.id);
                var ticket := Ticket(op.newTicket, op.tenant, row.id, title, description, TicketOpen, priority,
                                     row'.agent, op.stamp);
                Ok(Change(op.tenant, Keep,
                          if row.agent.None? then Update(row.id, row'.(updatedAt := op.stamp)) else Keep,
                          None, Insert(ticket.id, ticket),
                          [Escalated(row.id, ticket.id, agent.id), TicketCreated(ticket)]))
  }

  function DecideUpdateStatus(db: Db, op: Op): Result<Change>
    requires op.UpdateStatus?
  {
    if op.actorRole != ROLE_ADMIN then Err(Forbidden)
    else if FindUser(db, op.actor, op.tenant).None? then Err(Forbidden)
    else match ParseTicketStatus(TrimSpace(op.statusText))
      case None => Err(InvalidStatus)
      case Some(status) =>
        match FindTicket(db, op.tenant, op.ticket)
        case None => Err(RecordNotFound)
        case Some(row) =>
          var row' := row.(status := status, updatedAt := op.stamp);
          Ok(Change(op.tenant, Keep, Keep, None, Update(row.id, row'), [StatusUpdated(row.id, status)]))
  }

  function Decide(db: Db, op: Op): Result<Change> {
    match op
    case Webhook(_, _, _, _, _, _, _, _, _) => DecideWebhook(db, op)
    case Assign(_, _, _, _, _, _) => DecideAssign(db, op)
    case Reply(_, _, _, _, _, _) => DecideReply(db, op)
    case Close(_, _, _, _, _) => DecideClose(db, op)
    case Escalate(_, _, _, _, _, _, _, _) => DecideEscalate(db, op)
    case UpdateStatus(_, _, _, _, _, _) => DecideUpdateStatus(db, op)
  }

  /** The operation run as one serial transaction. */
  function Apply(db: Db, op: Op): Result<Db> {
    var ch :- Decide(db, op);
    Commit(db, ch)
  }

  /** The database after the call: a failed transaction leaves it alone. */
  function After(db: Db, op: Op): Db {
    var r := Apply(db, op);
    if r.Ok? then r.value else db
  }

  function Run(db: Db, ops: seq<Op>): Db {
    if ops == [] then db else After(Run(db, ops[..|ops| - 1]), ops[|ops| - 1])
  }

  // ----- what a call returns -----

  function MessagesOf(messages: seq<Message>, conversation: Id): seq<Message> {
    if messages == [] then [] else
    var rest, last := MessagesOf(messages[..|messages| - 1], conversation), messages[|messages| - 1];
    if last.conversation == conversation then rest + [last] else rest
  }

  function Lookup<T>(table: map<Id, T>, id: Id): Option<T> {
    if id in table then Some(table[id]) else None
  }

  /** A foreign key that may be null. */
  function Follow<T>(table: map<Id, T>, id: Option<Id>): Option<T> {
    if id.Some? then Lookup(table, id.value) else None
  }

  datatype Response =
    | ConversationView(conversation: Conversation, customer: Option<Customer>, channel: Option<Channel>,
                       agent: Option<User>, messages: seq<Message>, ticket: Option<Ticket>, ticketAgent: Option<User>)
    | TicketView(ticketRow: Ticket, ticketAgent: Option<User>)

  function GetConversation(db: Db, tenant: Id, conversation: Id): Result<Response> {
    match FindConversation(db, tenant, conversation)
    case None => Err(RecordNotFound)
    case Some(row) =>
      var ticket := Follow(db.tickets, FindTicketByConversation(db, tenant, conversation));
      Ok(ConversationView(row, Lookup(db.customers, row.customer), Lookup(db.channels, row.channel),
                          Follow(db.users, row.agent), MessagesOf(db.messages, conversation),
                          ticket, if ticket.Some? then Follow(db.users, ticket.value.agent) else None))
  }

  function GetTicket(db: Db, tenant: Id, ticket: Id): Result<Response> {
    match FindTicket(db, tenant, ticket)
    case None => Err(RecordNotFound)
    case Some(row) => Ok(TicketView(row, Follow(db.users, row.agent)))
  }

  /** Which record the call answers with, given the change it committed. */
  function Answer(db: Db, op: Op, ch: Change): Result<Response> {
    if op.Escalate? || op.UpdateStatus? then
      GetTicket(db, op.Tenant(), if op.Escalate? then op.newTicket else op.ticket)
    else
      GetConversation(db, op.Tenant(), if op.Webhook? && ch.conversation != Keep then ch.conversation.id
                                       else if op.Webhook? then op.newConversation else op.conversation)
  }

  function Outcome(db: Db, op: Op): Result<Response> {
    var ch :- Decide(db, op);
    var db' :- Commit(db, ch);
    Answer(db', op, ch)
  }
}
