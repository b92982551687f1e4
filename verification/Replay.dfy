/** Event sourcing: folding the activity log rebuilds the conversation and ticket tables. */
module Replay {
  import opened Model
  import opened Operations
  import opened Invariants

  /** What the log knows of one conversation, and of one ticket. */
  datatype LiveConversation = LiveConversation(status: ConversationStatus, agent: Option<Id>, messages: seq<Id>)
  datatype LiveTicket = LiveTicket(status: TicketStatus, agent: Option<Id>, conversation: Id)

  function Advance(before: Option<LiveConversation>, e: Event, c: Id): Option<LiveConversation> {
    if !e.About(c) then before
    else if e.Created? then Some(LiveConversation(e.row.status, e.row.agent, []))
    else if before.None? then None
    else
      var live := before.value;
      Some(match e
           case Received(m) => live.(messages := live.messages + [m.id])
           case AgentAssigned(_, a) => live.(status := Assigned, agent := Some(a))
           case Replied(_, a, m) => LiveConversation(Assigned, Some(a), live.messages + [m])
           case Escalated(_, _, a) => live.(status := Assigned, agent := Some(a))
           case _ => live.(status := Closed))
  }

  function AdvanceTicket(before: Option<LiveTicket>, e: Event, t: Id): Option<LiveTicket> {
    match e
    case TicketCreated(row) => if row.id == t then Some(LiveTicket(row.status, row.agent, row.conversation)) else before
    case StatusUpdated(id, status) =>
      if id == t && before.Some? then Some(before.value.(status := status)) else before
    case _ => before
  }

  /** The state of conversation c (None: not created yet) told by the log alone. */
  function ConversationAfter(log: seq<ActivityLog>, c: Id): Option<LiveConversation> {
    if log == [] then None
    else Advance(ConversationAfter(log[..|log| - 1], c), log[|log| - 1].event, c)
  }

  function TicketAfter(log: seq<ActivityLog>, t: Id): Option<LiveTicket> {
    if log == [] then None
    else AdvanceTicket(TicketAfter(log[..|log| - 1], t), log[|log| - 1].event, t)
  }

  function MessageIds(messages: seq<Message>, c: Id): seq<Id> {
    if messages == [] then [] else
    var rest, last := MessageIds(messages[..|messages| - 1], c), messages[|messages| - 1];
    if last.conversation == c then rest + [last.id] else rest
  }

  /** The same facts read from the tables. */
  function ConversationRow(db: Db, c: Id): Option<LiveConversation> {
    if c in db.conversations
    then Some(LiveConversation(db.conversations[c].status, db.conversations[c].agent, MessageIds(db.messages, c)))
    else None
  }

  function TicketRow(db: Db, t: Id): Option<LiveTicket> {
    if t in db.tickets
    then Some(LiveTicket(db.tickets[t].status, db.tickets[t].agent, db.tickets[t].conversation))
    else None
  }

  ghost predicate RecordedFor(db: Db, id: Id) {
    ConversationAfter(db.activity, id) == ConversationRow(db, id) && TicketAfter(db.activity, id) == TicketRow(db, id)
  }

  /** The log rebuilds the tables: same ids, same rows. */
  ghost predicate Recorded(db: Db) {
    forall id: Id :: RecordedFor(db, id)
  }

  // ----- appending -----

  lemma AfterOne(log: seq<ActivityLog>, a: ActivityLog, id: Id)
    ensures ConversationAfter(log + [a], id) == Advance(ConversationAfter(log, id), a.event, id)
    ensures TicketAfter(log + [a], id) == AdvanceTicket(TicketAfter(log, id), a.event, id)
  {
    assert (log + [a])[..|log|] == log;
  }

  lemma AfterTwo(log: seq<ActivityLog>, a: ActivityLog, b: ActivityLog, id: Id)
    ensures ConversationAfter(log + [a, b], id)
              == Advance(Advance(ConversationAfter(log, id), a.event, id), b.event, id)
    ensures TicketAfter(log + [a, b], id)
              == AdvanceTicket(AdvanceTicket(TicketAfter(log, id), a.event, id), b.event, id)
  {
    assert log + [a, b] == (log + [a]) + [b];
    AfterOne(log, a, id);
    AfterOne(log + [a], b, id);
  }

  /** The log after a commit, for the at most two events a transaction appends. */
  lemma AfterCommit(db: Db, ch: Change, id: Id)
    requires |ch.events| <= 2
    ensures var log, log' := db.activity, Written(db, ch).activity;
            && (|ch.events| == 0 ==> log' == log)
            && (|ch.events| == 1 ==>
                  && ConversationAfter(log', id) == Advance(ConversationAfter(log, id), ch.events[0], id)
                  && TicketAfter(log', id) == AdvanceTicket(TicketAfter(log, id), ch.events[0], id))
            && (|ch.events| == 2 ==>
                  && ConversationAfter(log', id)
                       == Advance(Advance(ConversationAfter(log, id), ch.events[0], id), ch.events[1], id)
                  && TicketAfter(log', id)
                       == AdvanceTicket(AdvanceTicket(TicketAfter(log, id), ch.events[0], id), ch.events[1], id))
  {
    var logged := Logged(ch.tenant, ch.events);
    if |ch.events| == 0 {
      assert logged == [];
    } else if |ch.events| == 1 {
      assert logged == [ActivityLog(ch.tenant, ch.events[0])];
      AfterOne(db.activity, logged[0], id);
    } else {
      assert logged == [ActivityLog(ch.tenant, ch.events[0]), ActivityLog(ch.tenant, ch.events[1])];
      AfterTwo(db.activity, logged[0], logged[1], id);
    }
  }

  lemma MessageIdsAfterOne(messages: seq<Message>, m: Message, c: Id)
    ensures MessageIds(messages + [m], c) == MessageIds(messages, c) + (if m.conversation == c then [m.id] else [])
  {
    assert (messages + [m])[..|messages|] == messages;
  }

  lemma {:induction false} NoMessagesYet(messages: seq<Message>, c: Id)
    requires forall m | m in messages :: m.conversation != c
    ensures MessageIds(messages, c) == []
  {
    if messages == [] {
    } else {
      NoMessagesYet(messages[..|messages| - 1], c);
    }
  }

  // ----- every commit keeps the log and the tables together -----

  /** The message ids of conversation c once the message is written. */
  function IdsAfter(db: Db, ch: Change, c: Id): seq<Id> {
    if ch.message.Some? && ch.message.value.conversation == c then MessageIds(db.messages, c) + [ch.message.value.id]
    else MessageIds(db.messages, c)
  }

  /** The rows after a write, told from the rows before it. */
  lemma RowsAfterWrite(db: Db, ch: Change, id: Id)
    ensures ConversationRow(Written(db, ch), id) ==
            if !ch.conversation.Keep? && ch.conversation.id == id
            then Some(LiveConversation(ch.conversation.row.status, ch.conversation.row.agent, IdsAfter(db, ch, id)))
            else if id in db.conversations
            then Some(LiveConversation(db.conversations[id].status, db.conversations[id].agent, IdsAfter(db, ch, id)))
            else None
    ensures TicketRow(Written(db, ch), id) ==
            if !ch.ticket.Keep? && ch.ticket.id == id
            then Some(LiveTicket(ch.ticket.row.status, ch.ticket.row.agent, ch.ticket.row.conversation))
            else TicketRow(db, id)
  {
    hide MessageIds, Logged, Queued;
    if ch.message.Some? {
      MessageIdsAfterOne(db.messages, ch.message.value, id);
      assert MessageIds(db.messages, id) + [] == MessageIds(db.messages, id);
    } else {
      assert db.messages + [] == db.messages;
    }
  }

  lemma IntakeStaysRecorded(db: Db, ch: Change, id: Id)
    requires Tables(db) && Intake(db, ch) && !Clashes(db, ch) && RecordedFor(db, id)
    ensures RecordedFor(Written(db, ch), id)
  {
    hide ConversationAfter, TicketAfter, Written, MessageIds, CustomersByExternalId;
    hide OneActive, Ownership, IsAgent, TicketsOfConversation, ActiveConversations, MessageIdTaken;
    AfterCommit(db, ch, id);
    RowsAfterWrite(db, ch, id);
    if ch.conversation.Insert? {
      NoMessagesYet(db.messages, ch.conversation.id);
    }
  }

  lemma AssignmentStaysRecorded(db: Db, ch: Change, id: Id)
    requires Tables(db) && Assignment(db, ch) && !Clashes(db, ch) && RecordedFor(db, id)
    ensures RecordedFor(Written(db, ch), id)
  {
    hide ConversationAfter, TicketAfter, Written, MessageIds, CustomersByExternalId;
    hide References, OneActive, Ownership, IsAgent, TicketsOfConversation, MessageIdTaken, TicketKeyTaken;
    AfterCommit(db, ch, id);
    RowsAfterWrite(db, ch, id);
  }

  lemma ReplyStaysRecorded(db: Db, ch: Change, id: Id)
    requires Tables(db) && Replying(db, ch) && !Clashes(db, ch) && RecordedFor(db, id)
    ensures RecordedFor(Written(db, ch), id)
  {
    hide ConversationAfter, TicketAfter, Written, MessageIds, CustomersByExternalId;
    hide References, OneActive, Ownership, IsAgent, TicketsOfConversation, MessageIdTaken, TicketKeyTaken;
    AfterCommit(db, ch, id);
    RowsAfterWrite(db, ch, id);
  }

  lemma ClosingStaysRecorded(db: Db, ch: Change, id: Id)
    requires Tables(db) && Closing(db, ch) && !Clashes(db, ch) && RecordedFor(db, id)
    ensures RecordedFor(Written(db, ch), id)
  {
    hide ConversationAfter, TicketAfter, Written, MessageIds, CustomersByExternalId;
    hide References, OneActive, Ownership, IsAgent, TicketsOfConversation, MessageIdTaken, TicketKeyTaken;
    AfterCommit(db, ch, id);
    RowsAfterWrite(db, ch, id);
  }

  lemma EscalationStaysRecorded(db: Db, ch: Change, id: Id)
    requires Tables(db) && Escalation(db, ch) && !Clashes(db, ch) && RecordedFor(db, id)
    ensures RecordedFor(Written(db, ch), id)
  {
    hide ConversationAfter, TicketAfter, Written, MessageIds, CustomersByExternalId;
    hide References, OneActive, IsAgent, TicketsOfConversation, MessageIdTaken, HasTicket;
    AfterCommit(db, ch, id);
    RowsAfterWrite(db, ch, id);
  }

  lemma StatusChangeStaysRecorded(db: Db, ch: Change, id: Id)
    requires Tables(db) && StatusChange(db, ch) && !Clashes(db, ch) && RecordedFor(db, id)
    ensures RecordedFor(Written(db, ch), id)
  {
    hide ConversationAfter, TicketAfter, Written, MessageIds, CustomersByExternalId;
    hide References, OneActive, Ownership, IsAgent, TicketsOfConversation, MessageIdTaken, TicketKeyTaken;
    AfterCommit(db, ch, id);
    RowsAfterWrite(db, ch, id);
  }

  lemma CommitStaysRecorded(db: Db, ch: Change, id: Id)
    requires Tables(db) && Legal(db, ch) && !Clashes(db, ch) && RecordedFor(db, id)
    ensures RecordedFor(Written(db, ch), id)
  {
    if Intake(db, ch) { IntakeStaysRecorded(db, ch, id); }
    else if Assignment(db, ch) { AssignmentStaysRecorded(db, ch, id); }
    else if Replying(db, ch) { ReplyStaysRecorded(db, ch, id); }
    else if Closing(db, ch) { ClosingStaysRecorded(db, ch, id); }
    else if Escalation(db, ch) { EscalationStaysRecorded(db, ch, id); }
    else if StatusChange(db, ch) { StatusChangeStaysRecorded(db, ch, id); }
    else {
      AfterCommit(db, ch, id);
      assert db.messages + [] == db.messages;
    }
  }

  lemma KeepsRecorded(db: Db, op: Op)
    requires Tables(db) && Recorded(db)
    ensures Recorded(After(db, op))
  {
    if Apply(db, op).Ok? {
      DecideIsLegal(db, op);
      forall id: Id ensures RecordedFor(After(db, op), id) {
        CommitStaysRecorded(db, Decide(db, op).value, id);
      }
    }
  }

  /** Main result: after any run of calls from an empty deployment, folding the activity log gives exactly
      each conversation's status, agent and message sequence, and each ticket's status, agent and conversation. */
  lemma {:induction false} LogRebuildsTables(db: Db, ops: seq<Op>)
    requires Initial(db)
    ensures Recorded(Run(db, ops))
  {
    if ops == [] {
    } else {
      LogRebuildsTables(db, ops[..|ops| - 1]);
      RunKeepsTables(db, ops[..|ops| - 1]);
      KeepsRecorded(Run(db, ops[..|ops| - 1]), ops[|ops| - 1]);
    }
  }
}
