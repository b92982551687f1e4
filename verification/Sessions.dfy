/** Successive conversations of one customer on one channel never overlap in time. */
module Sessions {
  import opened Model
  import opened Operations
  import opened Invariants

  /** Between positions i and j of the log conversation c is closed. */
  ghost predicate ClosedBetween(log: seq<ActivityLog>, i: int, j: int, c: Id) {
    exists k | 0 <= k < |log| :: i < k < j && log[k].event.ConversationClosed? && log[k].event.conversation == c
  }

  /** Every created event belongs to a stored conversation of the same tenant, customer and channel, and if that
      conversation is closed the log says so later on. */
  ghost predicate CreationsKnown(db: Db) {
    forall i | 0 <= i < |db.activity| && db.activity[i].event.Created? ::
      var row := db.activity[i].event.row;
      && row.id in db.conversations && SameTriple(row, db.conversations[row.id])
      && (db.conversations[row.id].status == Closed ==> ClosedBetween(db.activity, i, |db.activity|, row.id))
  }

  /** A conversation starts only after the previous one of the same tenant, customer and channel was closed. */
  ghost predicate NoOverlap(log: seq<ActivityLog>) {
    forall i, j | 0 <= i < j < |log| && log[i].event.Created? && log[j].event.Created?
                  && SameTriple(log[i].event.row, log[j].event.row)
      :: ClosedBetween(log, i, j, log[i].event.row.id)
  }

  lemma ClosedBetweenGrows(log: seq<ActivityLog>, more: seq<ActivityLog>, i: int, j: int, c: Id)
    requires ClosedBetween(log, i, j, c)
    ensures ClosedBetween(log + more, i, j, c)
    ensures j <= |log| ==> ClosedBetween(log + more, i, |log + more|, c)
  {
    var k :| 0 <= k < |log| && i < k < j && log[k].event.ConversationClosed? && log[k].event.conversation == c;
    assert (log + more)[k] == log[k];
  }

  /** Only a new conversation's transaction logs a created event, as its first. */
  lemma CreatedComesFirst(db: Db, ch: Change, k: nat)
    requires Tables(db) && Legal(db, ch) && k < |ch.events| && ch.events[k].Created?
    ensures k == 0 && Intake(db, ch) && ch.conversation.Insert? && ch.events[0] == Created(ch.conversation.row)
  {
  }

  lemma OldCreationStaysKnown(db: Db, ch: Change, i: nat)
    requires Tables(db) && Legal(db, ch) && !Clashes(db, ch) && CreationsKnown(db)
    requires i < |db.activity| && db.activity[i].event.Created?
    ensures var db' := Written(db, ch);
            var row := db.activity[i].event.row;
            && row.id in db'.conversations && SameTriple(row, db'.conversations[row.id])
            && (db'.conversations[row.id].status == Closed ==> ClosedBetween(db'.activity, i, |db'.activity|, row.id))
  {
    LegalRowsAreSound(db, ch);
    var db', row, n := Written(db, ch), db.activity[i].event.row, |db.activity|;
    if db.conversations[row.id].status == Closed {
      ClosedBetweenGrows(db.activity, Logged(ch.tenant, ch.events), i, n, row.id);
    } else if db'.conversations[row.id].status == Closed {
      assert Closing(db, ch);
      assert db'.activity[n].event == ch.events[0];
      assert ClosedBetween(db'.activity, i, |db'.activity|, row.id);
    }
  }

  lemma KeepsCreationsKnown(db: Db, ch: Change)
    requires Tables(db) && Legal(db, ch) && !Clashes(db, ch) && CreationsKnown(db)
    ensures CreationsKnown(Written(db, ch))
  {
    hide Tables, Legal, Clashes, ClosedBetween, Queued, CustomerWrite, ActiveConversations;
    var db', n := Written(db, ch), |db.activity|;
    forall i | 0 <= i < |db'.activity| && db'.activity[i].event.Created?
      ensures var row := db'.activity[i].event.row;
              && row.id in db'.conversations && SameTriple(row, db'.conversations[row.id])
              && (db'.conversations[row.id].status == Closed ==> ClosedBetween(db'.activity, i, |db'.activity|, row.id))
    {
      if i < n {
        assert db'.activity[i] == db.activity[i];
        OldCreationStaysKnown(db, ch, i);
      } else {
        assert db'.activity[i].event == ch.events[i - n];
        CreatedComesFirst(db, ch, i - n);
      }
    }
  }

  lemma KeepsNoOverlap(db: Db, ch: Change)
    requires Tables(db) && Legal(db, ch) && !Clashes(db, ch) && CreationsKnown(db) && NoOverlap(db.activity)
    ensures NoOverlap(Written(db, ch).activity)
  {
    hide References, OneActive, Ownership, ClosedBetween, IsAgent, TicketsOfConversation, CustomersByExternalId;
    var log, log', n := db.activity, Written(db, ch).activity, |db.activity|;
    var more := Logged(ch.tenant, ch.events);
    forall i, j | 0 <= i < j < |log'| && log'[i].event.Created? && log'[j].event.Created?
                  && SameTriple(log'[i].event.row, log'[j].event.row)
      ensures ClosedBetween(log', i, j, log'[i].event.row.id)
    {
      if j < n {
        assert log'[i] == log[i] && log'[j] == log[j];
        ClosedBetweenGrows(log, more, i, j, log[i].event.row.id);
      } else {
        assert log'[j].event == ch.events[j - n];
        CreatedComesFirst(db, ch, j - n);
        assert log'[i] == log[i];
        var earlier := log[i].event.row;
        var row := ch.conversation.row;
        assert earlier.id !in ActiveConversations(db, ch.tenant, row.customer, row.channel);
        assert db.conversations[earlier.id].status == Closed;
        ClosedBetweenGrows(log, more, i, n, earlier.id);
      }
    }
  }

  /** Main result: in every run, between the starts of two conversations of one tenant, customer and channel the
      earlier one was closed; with RunKeepsTables, at most one of them is not closed at any time. */
  lemma {:induction false} SessionsDoNotOverlap(db: Db, ops: seq<Op>)
    requires Initial(db)
    ensures CreationsKnown(Run(db, ops)) && NoOverlap(Run(db, ops).activity)
    ensures OneActive(Run(db, ops))
  {
    RunKeepsTables(db, ops);
    if ops == [] {
    } else {
      var before, op := Run(db, ops[..|ops| - 1]), ops[|ops| - 1];
      SessionsDoNotOverlap(db, ops[..|ops| - 1]);
      RunKeepsTables(db, ops[..|ops| - 1]);
      if Apply(before, op).Ok? {
        DecideIsLegal(before, op);
        KeepsCreationsKnown(before, Decide(before, op).value);
        KeepsNoOverlap(before, Decide(before, op).value);
      }
    }
  }
}
