/** The persisted entities, the domain events and the state of the database. */
module Model {

  type Id = string

  datatype Option<+T> = None | Some(value: T)

  datatype Error =
    | InvalidTenant | RateLimited | InvalidWebhook | TenantNotFound | InvalidChannel | Forbidden
    | InvalidAssignment | InvalidMessage | ConversationClosed | AssignedElsewhere
    | InvalidTicket | InvalidPriority | TicketExists | InvalidStatus
    | RecordNotFound | DuplicateKey | DatabaseFailure

  datatype Result<+T> = Ok(value: T) | Err(error: Error) {
    predicate IsFailure() { Err? }
    function PropagateFailure<U>(): Result<U> requires Err? { Err(error) }
    function Extract(): T requires Ok? { value }
  }

  const ROLE_ADMIN := "admin"
  const ROLE_AGENT := "agent"

  datatype ConversationStatus = Open | Assigned | Closed {
    function Text(): string {
      match this case Open => "open" case Assigned => "assigned" case Closed => "closed"
    }
  }

  datatype TicketStatus = TicketOpen | InProgress | Resolved | TicketClosed {
    function Text(): string {
      match this
      case TicketOpen => "open"
      case InProgress => "in_progress"
      case Resolved => "resolved"
      case TicketClosed => "closed"
    }
  }

  datatype Priority = Low | Medium | High {
    function Text(): string {
      match this case Low => "low" case Medium => "medium" case High => "high"
    }
  }

  datatype SenderType = FromCustomer | FromAgent

  datatype User = User(id: Id, tenant: Id, name: string, role: string)
  datatype Channel = Channel(id: Id, tenant: Id, key: string, name: string)
  datatype Customer = Customer(id: Id, tenant: Id, externalId: string, name: string)
  datatype Conversation = Conversation(
    id: Id, tenant: Id, customer: Id, channel: Id, status: ConversationStatus, agent: Option<Id>, updatedAt: nat)
  datatype Message = Message(id: Id, conversation: Id, senderType: SenderType, sender: Option<Id>, text: string)
  datatype Ticket = Ticket(
    id: Id, tenant: Id, conversation: Id, title: string, description: string,
    status: TicketStatus, priority: Priority, agent: Option<Id>, updatedAt: nat)

  datatype EntityType = ConversationEntity | TicketEntity

  /** A domain event with its payload; the constructor fixes the event type and the entity. */
  datatype Event =
    | Created(row: Conversation)
    | Received(message: Message)
    | AgentAssigned(conversation: Id, agent: Id)
    | Replied(conversation: Id, agent: Id, messageId: Id)
    | Escalated(conversation: Id, ticketId: Id, agent: Id)
    | ConversationClosed(conversation: Id, actor: Id, actorRole: string)
    | TicketCreated(ticket: Ticket)
    | StatusUpdated(ticketId: Id, status: TicketStatus)
  {
    function Type(): string {
      match this
      case Created(_) => "conversation.created"
      case Received(_) => "channel.message.received"
      case AgentAssigned(_, _) => "conversation.assigned"
      case Replied(_, _, _) => "conversation.replied"
      case Escalated(_, _, _) => "conversation.escalated"
      case ConversationClosed(_, _, _) => "conversation.closed"
      case TicketCreated(_) => "ticket.created"
      case StatusUpdated(_, _) => "ticket.status.updated"
    }

    function EntityType(): EntityType {
      if TicketCreated? || StatusUpdated? then TicketEntity else ConversationEntity
    }

    function EntityId(): Id {
      match this
      case Created(row) => row.id
      case Received(m) => m.conversation
      case AgentAssigned(c, _) => c
      case Replied(c, _, _) => c
      case Escalated(c, _, _) => c
      case ConversationClosed(c, _, _) => c
      case TicketCreated(t) => t.id
      case StatusUpdated(t, _) => t
    }

    /** The event is about conversation c. */
    predicate About(c: Id) {
      EntityType() == ConversationEntity && EntityId() == c
    }
  }

  datatype ActivityLog = ActivityLog(tenant: Id, event: Event)
  datatype OutboxEvent = OutboxEvent(
    tenant: Id, event: Event, routingKey: string, attempts: nat, published: bool, failed: bool)

  /** All tables. Rows with a primary key are maps; messages and both logs are kept in created_at order. */
  datatype Db = Db(
    tenants: set<Id>,
    users: map<Id, User>,
    channels: map<Id, Channel>,
    customers: map<Id, Customer>,
    conversations: map<Id, Conversation>,
    messages: seq<Message>,
    tickets: map<Id, Ticket>,
    activity: seq<ActivityLog>,
    outbox: seq<OutboxEvent>)
}
