/** Who held a conversation when something happened to it. */
module Custody {
  import opened Model
  import opened Operations
  import opened Invariants
  import opened Replay

  /** May event e happen to a conversation the log describes as `before`?  A conversation is created once, nothing
      happens to it after its close, only its holder (or the first comer) replies or escalates, and of the agents only
      its holder closes it. */
  predicate Permitted(before: Option<LiveConversation>, e: Event) {
    if e.Created? then before == None
    else
      && before.Some? && before.value.status != Closed
      && (e.Replied? || e.Escalated? ==> before.value.agent == None || before.value.agent == Some(e.agent))
      && (e.ConversationClosed? && e.actorRole == "agent" ==> before.value.agent == Some(e.actor))
  }

  /** The event at position k was permitted by the log before it, and leaves its agent in charge. */
  ghost predicate InOrder(log: seq<ActivityLog>, k: nat)
    requires k < |log|
  {
    var e := log[k].event;
    e.EntityType() == ConversationEntity ==>
      && Permitted(ConversationAfter(log[..k], e.EntityId()), e)
      && (e.Replied? || e.Escalated? || e.AgentAssigned? ==>
            var now := ConversationAfter(log[..k + 1], e.EntityId());
            now.Some? && now.value.agent == Some(e.agent) && now.value.status == Assigned)
  }

  ghost predicate Orderly(log: seq<ActivityLog>) {
    forall k | 0 <= k < |log| :: InOrder(log, k)
  }

  lemma OrderlyPrefix(log: seq<ActivityLog>, more: seq<ActivityLog>, k: nat)
    requires k < |log| && InOrder(log, k)
    ensures InOrder(log + more, k)
  {
    assert (log + more)[..k] == log[..k] && (log + more)[..k + 1] == log[..k + 1];
  }

  lemma InOrderNow(log: seq<ActivityLog>, a: ActivityLog)
    requires a.event.EntityType() == ConversationEntity ==>
               Permitted(ConversationAfter(log, a.event.EntityId()), a.event)
    ensures InOrder(log + [a], |log|)
  {
    var longer := log + [a];
    assert longer[..|log|] == log && longer[..|log| + 1] == longer;
  }

  lemma FirstEventPermitted(db: Db, ch: Change)
    requires Tables(db) && Legal(db, ch) && !Clashes(db, ch) && Recorded(db)
    requires |ch.events| > 0 && ch.events[0].EntityType() == ConversationEntity
    ensures Permitted(ConversationAfter(db.activity, ch.events[0].EntityId()), ch.events[0])
  {
    hide Advance, ConversationAfter, References, OneActive;
    assert RecordedFor(db, ch.events[0].EntityId());
  }

  lemma SecondEventPermitted(db: Db, ch: Change)
    requires Tables(db) && Legal(db, ch) && |ch.events| > 1 && ch.events[1].EntityType() == ConversationEntity
    ensures var c := ch.events[1].EntityId();
            Permitted(Advance(ConversationAfter(db.activity, c), ch.events[0], c), ch.events[1])
  {
  }

  lemma KeepsOrderly(db: Db, ch: Change)
    requires Tables(db) && Legal(db, ch) && !Clashes(db, ch) && Recorded(db) && Orderly(db.activity)
    ensures Orderly(Written(db, ch).activity)
  {
    hide InOrder, Permitted, Advance, ConversationAfter, Tables, Recorded;
    var log, log', n := db.activity, Written(db, ch).activity, |db.activity|;
    var more := Logged(ch.tenant, ch.events);
    assert |more| <= 2;
    forall k | 0 <= k < |log'| ensures InOrder(log', k) {
      if k < n {
        OrderlyPrefix(log, more, k);
      } else if k == n {
        if ch.events[0].EntityType() == ConversationEntity { FirstEventPermitted(db, ch); }
        InOrderNow(log, more[0]);
        assert log' == (log + [more[0]]) + more[1..];
        OrderlyPrefix(log + [more[0]], more[1..], n);
      } else {
        if ch.events[1].EntityType() == ConversationEntity {
          SecondEventPermitted(db, ch);
          AfterOne(log, more[0], ch.events[1].EntityId());
        }
        InOrderNow(log + [more[0]], more[1]);
        assert log' == (log + [more[0]]) + [more[1]];
      }
    }
  }

  /** The ticket's agent is the one who escalated, as the log has it. */
  ghost predicate EscalatedBy(log: seq<ActivityLog>, ticket: Ticket) {
    exists k | 0 <= k < |log| ::
      && log[k].event.Escalated? && log[k].event.conversation == ticket.conversation
      && log[k].event.ticketId == ticket.id && Some(log[k].event.agent) == ticket.agent
  }

  ghost predicate TicketsKeepEscalator(db: Db) {
    forall t | t in db.tickets :: EscalatedBy(db.activity, db.tickets[t])
  }

  lemma EscalatedByGrows(log: seq<ActivityLog>, more: seq<ActivityLog>, former: Ticket, ticket: Ticket)
    requires EscalatedBy(log, former)
    requires former.id == ticket.id && former.conversation == ticket.conversation && former.agent == ticket.agent
    ensures EscalatedBy(log + more, ticket)
  {
    var k :| 0 <= k < |log| && log[k].event.Escalated? && log[k].event.conversation == former.conversation
             && log[k].event.ticketId == former.id && Some(log[k].event.agent) == former.agent;
    assert (log + more)[k] == log[k];
  }

  lemma KeepsEscalator(db: Db, ch: Change)
    requires Tables(db) && Legal(db, ch) && !Clashes(db, ch) && TicketsKeepEscalator(db)
    ensures TicketsKeepEscalator(Written(db, ch))
  {
    LegalRowsAreSound(db, ch);
    var db' := Written(db, ch);
    forall t | t in db'.tickets ensures EscalatedBy(db'.activity, db'.tickets[t]) {
      if t in db.tickets {
        EscalatedByGrows(db.activity, Logged(ch.tenant, ch.events), db.tickets[t], db'.tickets[t]);
      } else {
        assert Escalation(db, ch) && ch.ticket.id == t;
        assert db'.activity[|db.activity|].event == ch.events[0];
        assert db.conversations[ch.ticket.row.conversation].id == ch.ticket.row.conversation;
      }
    }
  }

  /** Main result: in every run each event was permitted by the state the log gave just before it; in particular
      nothing follows a close, a reply or escalation is by the agent in force or takes over a free conversation,
      an agent closes only what the log says is held by that agent, and a ticket keeps the agent who escalated whatever
      is reassigned later. */
  lemma {:induction false} CustodyOverRuns(db: Db, ops: seq<Op>)
    requires Initial(db)
    ensures Orderly(Run(db, ops).activity) && TicketsKeepEscalator(Run(db, ops))
  {
    if ops == [] {
    } else {
      var before, op := Run(db, ops[..|ops| - 1]), ops[|ops| - 1];
      CustodyOverRuns(db, ops[..|ops| - 1]);
      RunKeepsTables(db, ops[..|ops| - 1]);
      LogRebuildsTables(db, ops[..|ops| - 1]);
      if Apply(before, op).Ok? {
        DecideIsLegal(before, op);
        KeepsOrderly(before, Decide(before, op).value);
        KeepsEscalator(before, Decide(before, op).value);
      }
    }
  }
}
