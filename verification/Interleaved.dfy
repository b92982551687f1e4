/** Transactions that overlap: each call decides on the snapshot it began with and commits later, with only the
    unique keys of the schema checked against the current tables. */
module Interleaved {
  import opened Model
  import opened Operations
  import opened Invariants

  datatype State = State(db: Db, snapshots: map<nat, Db>)

  datatype Action = Begin(p: nat) | Finish(p: nat, op: Op)

  /** Begin takes the snapshot; Finish decides on it and commits to what is there by now. A failed decision or a
      violated unique key rolls everything back. */
  function Next(s: State, a: Action): State {
    match a
    case Begin(p) => s.(snapshots := s.snapshots[p := s.db])
    case Finish(p, op) =>
      if p !in s.snapshots then s else
      var decided := Decide(s.snapshots[p], op);
      var done := s.(snapshots := s.snapshots - {p});
      if decided.Err? then done else
      var committed := Commit(s.db, decided.value);
      if committed.Err? then done else done.(db := committed.value)
  }

  function Interleave(s: State, actions: seq<Action>): State {
    if actions == [] then s
    else Next(Interleave(s, actions[..|actions| - 1]), actions[|actions| - 1])
  }

  // ----- one ticket per conversation -----

  predicate EscalationOf(e: Event, c: Id) {
    e.Escalated? && e.conversation == c
  }

  predicate TicketCreationFor(e: Event, c: Id) {
    e.TicketCreated? && e.ticket.conversation == c
  }

  function CountEscalations(log: seq<ActivityLog>, c: Id): nat {
    if log == [] then 0
    else CountEscalations(log[..|log| - 1], c) + (if EscalationOf(log[|log| - 1].event, c) then 1 else 0)
  }

  function CountCreations(log: seq<ActivityLog>, c: Id): nat {
    if log == [] then 0
    else CountCreations(log[..|log| - 1], c) + (if TicketCreationFor(log[|log| - 1].event, c) then 1 else 0)
  }

  ghost predicate TicketKeys(db: Db) {
    && (forall t | t in db.tickets :: db.tickets[t].id == t)
    && (forall t, u | t in db.tickets && u in db.tickets && db.tickets[t].conversation == db.tickets[u].conversation ::
         t == u)
  }

  /** One escalated and one ticket.created event for a conversation with a ticket, none without. */
  ghost predicate EventsMatchTicket(db: Db, c: Id) {
    var n := if HasTicket(db, c) then 1 else 0;
    CountEscalations(db.activity, c) == n && CountCreations(db.activity, c) == n
  }

  /** Tickets of an earlier state are still there, for the same conversation. */
  ghost predicate KeepsTickets(earlier: Db, db: Db) {
    forall t | t in earlier.tickets :: t in db.tickets && db.tickets[t].conversation == earlier.tickets[t].conversation
  }

  ghost predicate Inv(s: State) {
    && TicketKeys(s.db)
    && (forall c: Id :: EventsMatchTicket(s.db, c))
    && (forall p | p in s.snapshots :: TicketKeys(s.snapshots[p]) && KeepsTickets(s.snapshots[p], s.db))
  }

  predicate Plain(e: Event) {
    !e.Escalated? && !e.TicketCreated?
  }

  /** What a decision does about tickets, on any database. */
  ghost predicate TicketPart(db: Db, ch: Change) {
    match ch.ticket
    case Insert(id, row) =>
      && row.id == id && |ch.events| == 2
      && ch.events[0].Escalated? && ch.events[0].conversation == row.conversation && ch.events[1] == TicketCreated(row)
    case Update(id, row) =>
      && |ch.events| == 1 && Plain(ch.events[0])
      && exists t ::
           t in db.tickets && id == db.tickets[t].id == row.id && row.conversation == db.tickets[t].conversation
    case Keep => |ch.events| <= 2 && forall i | 0 <= i < |ch.events| :: Plain(ch.events[i])
  }

  lemma DecideTicketPart(db: Db, op: Op)
    requires Decide(db, op).Ok?
    ensures TicketPart(db, Decide(db, op).value)
  {
    match op
    case Webhook(_, _, _, _, _, _, _, _, _) => WebhookTicketPart(db, op);
    case Assign(_, _, _, _, _, _) =>
    case Reply(_, _, _, _, _, _) =>
    case Close(_, _, _, _, _) =>
    case Escalate(_, _, _, _, _, _, _, _) =>
    case UpdateStatus(_, _, _, _, _, _) => assert op.ticket in db.tickets;
  }

  lemma WebhookTicketPart(db: Db, op: Op)
    requires op.Webhook? && DecideWebhook(db, op).Ok?
    ensures TicketPart(db, DecideWebhook(db, op).value)
  {
  }

  lemma CountsAfterOne(log: seq<ActivityLog>, a: ActivityLog, c: Id)
    ensures CountEscalations(log + [a], c) == CountEscalations(log, c) + (if EscalationOf(a.event, c) then 1 else 0)
    ensures CountCreations(log + [a], c) == CountCreations(log, c) + (if TicketCreationFor(a.event, c) then 1 else 0)
  {
    assert (log + [a])[..|log|] == log;
  }

  lemma CountsAfterCommit(db: Db, ch: Change, c: Id)
    requires TicketPart(db, ch)
    ensures var log, log' := db.activity, Written(db, ch).activity;
            var n := if ch.ticket.Insert? && ch.ticket.row.conversation == c then 1 else 0;
            CountEscalations(log', c) == CountEscalations(log, c) + n
                && CountCreations(log', c) == CountCreations(log, c) + n
  {
    var logged, log := Logged(ch.tenant, ch.events), db.activity;
    if |ch.events| == 0 {
      assert log + logged == log;
    } else if |ch.events| == 1 {
      assert logged == [ActivityLog(ch.tenant, ch.events[0])];
      CountsAfterOne(log, logged[0], c);
    } else {
      assert logged == [ActivityLog(ch.tenant, ch.events[0]), ActivityLog(ch.tenant, ch.events[1])];
      assert log + logged == (log + [logged[0]]) + [logged[1]];
      CountsAfterOne(log, logged[0], c);
      CountsAfterOne(log + [logged[0]], logged[1], c);
    }
  }

  /** The written ticket, if any, is new for its conversation or replaces a row of the same conversation. */
  ghost predicate FitsTickets(db: Db, ch: Change) {
    && (ch.ticket.Insert? ==>
          ch.ticket.row.id == ch.ticket.id && ch.ticket.id !in db.tickets && !HasTicket(db, ch.ticket.row.conversation))
    && (ch.ticket.Update? ==>
          ch.ticket.row.id == ch.ticket.id && ch.ticket.id in db.tickets
          && ch.ticket.row.conversation == db.tickets[ch.ticket.id].conversation)
  }

  lemma StaleDecisionFits(earlier: Db, db: Db, ch: Change)
    requires TicketKeys(earlier) && KeepsTickets(earlier, db) && TicketPart(earlier, ch) && !Clashes(db, ch)
    ensures FitsTickets(db, ch)
  {
  }

  lemma TicketsAfterCommit(db: Db, ch: Change, c: Id)
    requires FitsTickets(db, ch)
    ensures HasTicket(Written(db, ch), c) <==>
              HasTicket(db, c) || (ch.ticket.Insert? && ch.ticket.row.conversation == c)
  {
    var db' := Written(db, ch);
    if t :| t in db.tickets && db.tickets[t].conversation == c {
      assert t in db'.tickets && db'.tickets[t].conversation == c;
    }
    if ch.ticket.Insert? && ch.ticket.row.conversation == c {
      assert db'.tickets[ch.ticket.id].conversation == c;
    }
  }

  lemma CommitKeepsMatch(db: Db, ch: Change, earlier: Db, c: Id)
    requires TicketPart(earlier, ch) && FitsTickets(db, ch) && EventsMatchTicket(db, c)
    ensures EventsMatchTicket(Written(db, ch), c)
  {
    CountsOfPart(db, ch, earlier, c);
    TicketsAfterCommit(db, ch, c);
  }

  lemma CountsOfPart(db: Db, ch: Change, earlier: Db, c: Id)
    requires TicketPart(earlier, ch)
    ensures var log, log' := db.activity, Written(db, ch).activity;
            var n := if ch.ticket.Insert? && ch.ticket.row.conversation == c then 1 else 0;
            CountEscalations(log', c) == CountEscalations(log, c) + n
                && CountCreations(log', c) == CountCreations(log, c) + n
  {
    CountsAfterCommit(earlier.(activity := db.activity), ch, c);
  }

  lemma NextKeepsInv(s: State, a: Action)
    requires Inv(s)
    ensures Inv(Next(s, a))
  {
    if a.Finish? && a.p in s.snapshots {
      var earlier := s.snapshots[a.p];
      if Decide(earlier, a.op).Ok? {
        var ch := Decide(earlier, a.op).value;
        if !Clashes(s.db, ch) {
          DecideTicketPart(earlier, a.op);
          StaleDecisionFits(earlier, s.db, ch);
          forall c: Id ensures EventsMatchTicket(Written(s.db, ch), c) {
            CommitKeepsMatch(s.db, ch, earlier, c);
          }
          FittingKeepsKeys(s, ch);
        }
      }
    }
  }

  lemma FittingKeepsKeys(s: State, ch: Change)
    requires Inv(s) && FitsTickets(s.db, ch)
    ensures TicketKeys(Written(s.db, ch))
    ensures forall p | p in s.snapshots :: KeepsTickets(s.snapshots[p], Written(s.db, ch))
  {
  }

  /** Main result: however the calls overlap, no conversation ever has two tickets, two escalated or two
      ticket.created events; the losing commit leaves no event behind. */
  lemma {:induction false} OneTicketHoweverInterleaved(db: Db, actions: seq<Action>, c: Id)
    requires Initial(db)
    ensures var t := Interleave(State(db, map[]), actions);
            && Inv(t)
            && CountEscalations(t.db.activity, c) == CountCreations(t.db.activity, c) <= 1
            && (forall x, y | x in t.db.tickets && y in t.db.tickets
                              && t.db.tickets[x].conversation == t.db.tickets[y].conversation :: x == y)
  {
    if actions != [] {
      OneTicketHoweverInterleaved(db, actions[..|actions| - 1], c);
      NextKeepsInv(Interleave(State(db, map[]), actions[..|actions| - 1]), actions[|actions| - 1]);
    }
    assert EventsMatchTicket(Interleave(State(db, map[]), actions).db, c);
  }
}
