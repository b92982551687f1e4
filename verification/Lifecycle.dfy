/** The grammar of each conversation's events over whole runs. */
module Lifecycle {
  import opened Model
  import opened Operations
  import opened Invariants

  // ----- the events of one conversation -----

  function Trace(log: seq<ActivityLog>, c: Id): seq<Event> {
    if log == [] then [] else
    var rest, e := Trace(log[..|log| - 1], c), log[|log| - 1].event;
    if e.About(c) then rest + [e] else rest
  }

  predicate Middle(e: Event) {
    e.Received? || e.AgentAssigned? || e.Replied? || e.Escalated?
  }

  /** created, received, then any mix of received, assigned, replied and at most one escalated, then at most one
      closed, which is last. */
  ghost predicate WellFormed(trace: seq<Event>) {
    && |trace| >= 2 && trace[0].Created? && trace[1].Received?
    && (forall i | 2 <= i < |trace| :: Middle(trace[i]) || (trace[i].ConversationClosed? && i == |trace| - 1))
    && (forall i, j | 0 <= i < j < |trace| :: !(trace[i].Escalated? && trace[j].Escalated?))
  }

  ghost predicate HasEscalated(trace: seq<Event>) {
    exists i | 0 <= i < |trace| :: trace[i].Escalated?
  }

  /** The trace of c is well formed and ends the way the tables say. */
  ghost predicate TraceMatches(db: Db, c: Id) {
    var trace := Trace(db.activity, c);
    if c in db.conversations then
      && WellFormed(trace)
      && (trace[|trace| - 1].ConversationClosed? <==> db.conversations[c].status == Closed)
      && (HasEscalated(trace) <==> HasTicket(db, c))
    else trace == []
  }

  lemma TraceAfterOne(log: seq<ActivityLog>, a: ActivityLog, c: Id)
    ensures Trace(log + [a], c) == Trace(log, c) + (if a.event.About(c) then [a.event] else [])
  {
    assert (log + [a])[..|log|] == log;
  }

  lemma TraceAfterCommit(db: Db, ch: Change, c: Id)
    requires |ch.events| <= 2
    ensures Trace(Written(db, ch).activity, c) == Trace(db.activity, c)
              + (if |ch.events| > 0 && ch.events[0].About(c) then [ch.events[0]] else [])
              + (if |ch.events| > 1 && ch.events[1].About(c) then [ch.events[1]] else [])
  {
    var logged := Logged(ch.tenant, ch.events);
    if |ch.events| == 0 {
      assert db.activity + logged == db.activity;
    } else if |ch.events| == 1 {
      assert logged == [ActivityLog(ch.tenant, ch.events[0])];
      TraceAfterOne(db.activity, logged[0], c);
    } else {
      assert logged == [ActivityLog(ch.tenant, ch.events[0]), ActivityLog(ch.tenant, ch.events[1])];
      assert db.activity + logged == (db.activity + [logged[0]]) + [logged[1]];
      TraceAfterOne(db.activity, logged[0], c);
      TraceAfterOne(db.activity + [logged[0]], logged[1], c);
    }
  }

  lemma ExtendTrace(trace: seq<Event>, e: Event)
    requires WellFormed(trace) && !trace[|trace| - 1].ConversationClosed?
    requires Middle(e) || e.ConversationClosed?
    requires e.Escalated? ==> !HasEscalated(trace)
    ensures WellFormed(trace + [e])
    ensures HasEscalated(trace + [e]) <==> HasEscalated(trace) || e.Escalated?
  {
    var longer := trace + [e];
    if HasEscalated(trace) {
      var i :| 0 <= i < |trace| && trace[i].Escalated?;
      assert longer[i].Escalated?;
    }
    if e.Escalated? {
      assert longer[|trace|].Escalated?;
    }
  }

  /** Tickets are never detached: a commit gives c a ticket exactly when it escalates c. */
  lemma TicketAfterCommit(db: Db, ch: Change, c: Id)
    requires Tables(db) && Legal(db, ch) && !Clashes(db, ch)
    ensures HasTicket(Written(db, ch), c) <==>
              HasTicket(db, c) || (Escalation(db, ch) && ch.ticket.row.conversation == c)
  {
    hide References, Ownership, OneActive, ActiveConversations, TicketsOfConversation, IsAgent, CustomersByExternalId;
    LegalRowsAreSound(db, ch);
    var db' := Written(db, ch);
    if t :| t in db.tickets && db.tickets[t].conversation == c {
      assert t in db'.tickets && db'.tickets[t].conversation == c;
    }
    if ch.ticket.Insert? && ch.ticket.row.conversation == c {
      assert db'.tickets[ch.ticket.id].conversation == c;
    }
  }

  lemma EscalatedOnce(db: Db, ch: Change)
    requires Tables(db) && Escalation(db, ch)
    ensures !HasTicket(db, ch.ticket.row.conversation)
  {
    var c := ch.ticket.row.conversation;
    forall t | t in db.tickets ensures db.tickets[t].conversation != c {
      assert TicketInTenant(db, t);
      assert t !in TicketsOfConversation(db, ch.tenant, c);
    }
  }

  lemma NewTrace(db: Db, ch: Change)
    requires Tables(db) && Intake(db, ch) && ch.conversation.Insert? && !Clashes(db, ch)
    requires TraceMatches(db, ch.conversation.id)
    ensures TraceMatches(Written(db, ch), ch.conversation.id)
  {
    var c := ch.conversation.id;
    TraceAfterCommit(db, ch, c);
    assert Trace(Written(db, ch).activity, c) == ch.events;
    TicketAfterCommit(db, ch, c);
    forall t | t in db.tickets ensures db.tickets[t].conversation != c {
      assert TicketInTenant(db, t);
    }
  }

  /** What a transaction about an existing conversation does to its row, told by its first event. */
  lemma FirstEventTells(db: Db, ch: Change, c: Id)
    requires Tables(db) && Legal(db, ch) && !Clashes(db, ch)
    requires c in db.conversations && |ch.events| > 0 && ch.events[0].About(c)
    ensures db.conversations[c].status != Closed && c in Written(db, ch).conversations
    ensures ch.events[0].ConversationClosed? <==> Written(db, ch).conversations[c].status == Closed
    ensures Middle(ch.events[0]) || ch.events[0].ConversationClosed?
    ensures ch.events[0].Escalated? <==> Escalation(db, ch) && ch.ticket.row.conversation == c
    ensures |ch.events| <= 2 && (|ch.events| == 2 ==> !ch.events[1].About(c))
  {
    hide References, Ownership, OneActive, ActiveConversations, TicketsOfConversation, IsAgent, CustomersByExternalId;
  }

  lemma ExtendsTrace(db: Db, ch: Change, c: Id)
    requires Tables(db) && Legal(db, ch) && !Clashes(db, ch) && TraceMatches(db, c)
    requires c in db.conversations && |ch.events| > 0 && ch.events[0].About(c)
    ensures TraceMatches(Written(db, ch), c)
  {
    hide Tables, Legal, Clashes, HasTicket, HasEscalated, WellFormed, Written, Middle;
    FirstEventTells(db, ch, c);
    TicketAfterCommit(db, ch, c);
    if Escalation(db, ch) && ch.ticket.row.conversation == c { EscalatedOnce(db, ch); }
    TraceAfterCommit(db, ch, c);
    var trace := Trace(db.activity, c);
    assert Trace(Written(db, ch).activity, c) == trace + [ch.events[0]];
    ExtendTrace(trace, ch.events[0]);
  }

  /** A transaction whose first event is not about c leaves c alone altogether. */
  lemma LeavesAlone(db: Db, ch: Change, c: Id)
    requires Tables(db) && Legal(db, ch)
    requires |ch.events| > 0 ==> !ch.events[0].About(c)
    ensures |ch.events| <= 2
    ensures |ch.events| > 1 ==> !ch.events[1].About(c)
    ensures ch.conversation.Keep? || ch.conversation.id != c
    ensures !(Escalation(db, ch) && ch.ticket.row.conversation == c)
  {
    hide References, Ownership, OneActive, ActiveConversations, TicketsOfConversation, IsAgent;
  }

  lemma OtherTrace(db: Db, ch: Change, c: Id)
    requires Tables(db) && Legal(db, ch) && !Clashes(db, ch) && TraceMatches(db, c)
    requires |ch.events| > 0 ==> !ch.events[0].About(c)
    ensures TraceMatches(Written(db, ch), c)
  {
    hide Tables, Legal, Clashes, WellFormed, HasEscalated, HasTicket, Trace, Logged, Queued;
    LeavesAlone(db, ch, c);
    TicketAfterCommit(db, ch, c);
    TraceAfterCommit(db, ch, c);
    assert Trace(Written(db, ch).activity, c) == Trace(db.activity, c);
    assert c in db.conversations <==> c in Written(db, ch).conversations;
  }

  /** Only the transaction that starts a conversation logs about one that is not stored yet. */
  lemma KnownOrNew(db: Db, ch: Change, c: Id)
    requires Tables(db) && Legal(db, ch) && |ch.events| > 0 && ch.events[0].About(c)
    ensures c in db.conversations || (Intake(db, ch) && ch.conversation.Insert? && ch.conversation.id == c)
  {
    hide References, Ownership, OneActive, ActiveConversations, TicketsOfConversation, IsAgent;
  }

  lemma KeepsTrace(db: Db, op: Op, c: Id)
    requires Tables(db) && TraceMatches(db, c)
    ensures TraceMatches(After(db, op), c)
  {
    hide Tables, TraceMatches, Legal, Intake, Clashes, Decide, Written;
    if Apply(db, op).Ok? {
      DecideIsLegal(db, op);
      var ch := Decide(db, op).value;
      if |ch.events| == 0 || !ch.events[0].About(c) {
        OtherTrace(db, ch, c);
      } else {
        KnownOrNew(db, ch, c);
        if c in db.conversations { ExtendsTrace(db, ch, c); } else { NewTrace(db, ch); }
      }
    }
  }

  /** Main result: in every run, every conversation's events follow the grammar; a closed conversation's
      trace has ended, and its trace holds an escalation exactly when it has a ticket. */
  lemma {:induction false} TracesAreWellFormed(db: Db, ops: seq<Op>, c: Id)
    requires Initial(db)
    ensures TraceMatches(Run(db, ops), c)
  {
    if ops == [] {
    } else {
      var before := Run(db, ops[..|ops| - 1]);
      TracesAreWellFormed(db, ops[..|ops| - 1], c);
      RunKeepsTables(db, ops[..|ops| - 1]);
      KeepsTrace(before, ops[|ops| - 1], c);
    }
  }
}
