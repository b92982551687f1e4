/** What overlapping transactions break, and exactly when: a closed conversation can be reopened, and a customer can
    get two active conversations on one channel. */
module Overlaps {
  import opened Text
  import opened Model
  import opened Operations
  import opened Invariants
  import opened Tenancy
  import opened Interleaved

  /** The database after `slow` began, `quick` ran from begin to end, and `slow` finished. */
  function Overtaken(db: Db, slow: Op, quick: Op): Db {
    Interleaved.Next(State(After(db, quick), map[0 := db]), Finish(0, slow)).db
  }

  lemma OvertakenIs(db: Db, slow: Op, quick: Op)
    ensures var mid, decided := After(db, quick), Decide(db, slow);
            Overtaken(db, slow, quick)
            == if decided.Ok? && !Clashes(mid, decided.value) then Written(mid, decided.value) else mid
  {
    hide Decide, Clashes, Written, After;
  }

  /** The transaction updates conversation c. */
  predicate Writes(ch: Change, c: Id) {
    ch.conversation.Update? && ch.conversation.id == c
  }

  ghost predicate RowsKeyed(db: Db) {
    forall c | c in db.conversations :: db.conversations[c].id == c
  }

  predicate IsClosed(db: Db, c: Id) {
    c in db.conversations && db.conversations[c].status == Closed
  }

  // ----- which calls write a conversation -----

  /** The webhook's message goes to conversation c. */
  predicate Joins(db: Db, op: Op, c: Id)
    requires op.Webhook?
  {
    var tenant := op.Tenant();
    var channel := FindChannel(db, tenant, TrimSpace(op.channelKey));
    var customer := CustomerFor(db, tenant, TrimSpace(op.externalId), TrimSpace(op.name), op.newCustomer).0;
    channel.Some? && FindActiveConversation(db, tenant, customer.id, channel.value) == Some(c)
  }

  /** The call is a webhook joining c, an assignment of or a reply to c, a close of c, or an escalation of c while
      nobody holds it. */
  predicate Concerns(db: Db, op: Op, c: Id) {
    match op
    case Webhook(_, _, _, _, _, _, _, _, _) => Joins(db, op, c)
    case Assign(_, _, _, _, _, _) => op.conversation == c
    case Reply(_, _, _, _, _, _) => op.conversation == c
    case Close(_, _, _, _, _) => op.conversation == c && !IsClosed(db, c)
    case Escalate(_, _, _, _, _, _, _, _) =>
      op.conversation == c && c in db.conversations && db.conversations[c].agent.None?
    case UpdateStatus(_, _, _, _, _, _) => false
  }

  /** A successful decision updates c exactly when the call concerns c; then c is there and not closed, and only a
      close closes it. */
  lemma WritesWhatItConcerns(db: Db, op: Op, c: Id)
    requires RowsKeyed(db) && Decide(db, op).Ok?
    ensures var ch := Decide(db, op).value;
            && (Writes(ch, c) <==> Concerns(db, op, c))
            && (ch.conversation.Keep? || ch.conversation.row.id == ch.conversation.id)
            && (Writes(ch, c) ==>
                  && c in db.conversations && db.conversations[c].status != Closed
                  && (ch.conversation.row.status == Closed <==> op.Close?))
  {
    hide TrimSpace, CustomerFor, FindChannel;
  }

  // ----- a close overtakes another call -----

  lemma CloseWrites(db: Db, close: Op)
    requires Tables(db) && close.Close? && Apply(db, close).Ok?
    ensures var db' := After(db, close);
            && db'.conversations.Keys == db.conversations.Keys && IsClosed(db', close.conversation)
            && db'.customers == db.customers && db'.messages == db.messages && db'.tickets == db.tickets
  {
    hide References, Ownership, OneActive;
    CloseIsClosing(db, close);
    assert db.messages + [] == db.messages;
  }

  lemma SameKeysSameClashes(db: Db, db': Db, ch: Change)
    requires db'.conversations.Keys == db.conversations.Keys && db'.customers == db.customers
    requires db'.messages == db.messages && db'.tickets == db.tickets
    ensures Clashes(db', ch) == Clashes(db, ch)
  {
    if ch.customer.Insert? {
      var t, e := ch.customer.row.tenant, ch.customer.row.externalId;
      assert CustomersByExternalId(db', t, e) == CustomersByExternalId(db, t, e);
    }
    assert ch.conversation.Insert? ==>
        (ch.conversation.id in db'.conversations <==> ch.conversation.id in db.conversations.Keys);
  }

  /** Main result (exact condition): a call overtaken by a close of c leaves c open if and only if it would have
      succeeded on its own, concerns c, and is not itself a close. */
  lemma ReopensIffConcerned(db: Db, slow: Op, close: Op)
    requires Tables(db) && close.Close? && Apply(db, close).Ok?
    ensures close.conversation in Overtaken(db, slow, close).conversations
    ensures !IsClosed(Overtaken(db, slow, close), close.conversation) <==>
              Apply(db, slow).Ok? && Concerns(db, slow, close.conversation) && !slow.Close?
  {
    hide Tables, Decide, Clashes, Concerns, Overtaken, After;
    var c, mid := close.conversation, After(db, close);
    OvertakenIs(db, slow, close);
    CloseWrites(db, close);
    TablesAreKeyed(db);
    if Decide(db, slow).Ok? {
      var ch := Decide(db, slow).value;
      WritesWhatItConcerns(db, slow, c);
      SameKeysSameClashes(db, mid, ch);
      if !Clashes(db, ch) { InsertsElsewhere(db, ch, c); }
    }
  }

  lemma TablesAreKeyed(db: Db)
    requires Tables(db)
    ensures RowsKeyed(db)
  {
  }

  lemma InsertsElsewhere(db: Db, ch: Change, c: Id)
    requires !Clashes(db, ch) && c in db.conversations
    ensures !(ch.conversation.Insert? && ch.conversation.id == c)
  {
  }

  // ----- closed conversations in any interleaving -----

  ghost predicate AllKeyed(s: State) {
    RowsKeyed(s.db) && forall p | p in s.snapshots :: RowsKeyed(s.snapshots[p])
  }

  /** The step commits a transaction that concerns c, other than a close, decided on a snapshot. */
  ghost predicate CommitsTo(s: State, a: Action, c: Id) {
    && a.Finish? && a.p in s.snapshots && !a.op.Close? && Concerns(s.snapshots[a.p], a.op, c)
    && Decide(s.snapshots[a.p], a.op).Ok? && !Clashes(s.db, Decide(s.snapshots[a.p], a.op).value)
  }

  lemma StepKeepsKeyed(s: State, a: Action)
    requires AllKeyed(s)
    ensures AllKeyed(Interleaved.Next(s, a))
  {
    hide Decide, Clashes, Concerns;
    if a.Finish? && a.p in s.snapshots && Decide(s.snapshots[a.p], a.op).Ok? {
      WritesWhatItConcerns(s.snapshots[a.p], a.op, "");
    }
  }

  /** A step reopens a closed conversation if and only if it commits a transaction that concerns the conversation and
      is not a close; that transaction began before the close. */
  lemma StepReopensIff(s: State, a: Action, c: Id)
    requires AllKeyed(s) && IsClosed(s.db, c)
    ensures !IsClosed(Interleaved.Next(s, a).db, c) <==> CommitsTo(s, a, c)
    ensures CommitsTo(s, a, c) ==> c in s.snapshots[a.p].conversations && !IsClosed(s.snapshots[a.p], c)
  {
    hide Decide, Clashes, Concerns;
    if a.Finish? && a.p in s.snapshots && Decide(s.snapshots[a.p], a.op).Ok? {
      WritesWhatItConcerns(s.snapshots[a.p], a.op, c);
      if !Clashes(s.db, Decide(s.snapshots[a.p], a.op).value) {
        InsertsElsewhere(s.db, Decide(s.snapshots[a.p], a.op).value, c);
      }
    }
  }

  lemma {:induction false} InterleavingsStayKeyed(db: Db, actions: seq<Action>)
    requires Initial(db)
    ensures AllKeyed(Interleaved.Interleave(State(db, map[]), actions))
  {
    if actions == [] {
    } else {
      InterleavingsStayKeyed(db, actions[..|actions| - 1]);
      StepKeepsKeyed(Interleaved.Interleave(State(db, map[]), actions[..|actions| - 1]), actions[|actions| - 1]);
    }
  }

  /** The state after the first n steps. */
  function Reached(db: Db, actions: seq<Action>, n: nat): State
    requires n <= |actions|
  {
    Interleaved.Interleave(State(db, map[]), actions[..n])
  }

  lemma ReachedStep(db: Db, actions: seq<Action>, n: nat)
    requires n < |actions|
    ensures Reached(db, actions, n + 1) == Interleaved.Next(Reached(db, actions, n), actions[n])
  {
    assert actions[..n + 1][..n] == actions[..n];
  }

  /** Main result (exact condition): once closed, c stays closed through the rest of an interleaving if and only if no
      transaction that concerns c, other than a close, commits in the rest. Any that does began before the close. */
  lemma {:induction false} StaysClosedIff(db: Db, actions: seq<Action>, n: nat, m: nat, c: Id)
    requires Initial(db) && n <= m <= |actions| && IsClosed(Reached(db, actions, n).db, c)
    ensures (forall k | n <= k <= m :: IsClosed(Reached(db, actions, k).db, c)) <==>
            (forall k | n <= k < m :: !CommitsTo(Reached(db, actions, k), actions[k], c))
  {
    hide CommitsTo, Interleaved.Next, IsClosed, Reached;
    if m == n {
    } else {
      StaysClosedIff(db, actions, n, m - 1, c);
      if IsClosed(Reached(db, actions, m - 1).db, c) {
        ReachedKeyed(db, actions, m - 1);
        ReachedStep(db, actions, m - 1);
        StepReopensIff(Reached(db, actions, m - 1), actions[m - 1], c);
        assert IsClosed(Reached(db, actions, m).db, c) <==> !CommitsTo(Reached(db, actions, m - 1), actions[m - 1], c);
      }
    }
  }

  lemma ReachedKeyed(db: Db, actions: seq<Action>, n: nat)
    requires Initial(db) && n <= |actions|
    ensures AllKeyed(Reached(db, actions, n))
  {
    InterleavingsStayKeyed(db, actions[..n]);
  }

  /** A snapshot is the database its transaction began with. */
  lemma {:induction false} SnapshotIsBeginning(db: Db, actions: seq<Action>, n: nat, p: nat) returns (began: nat)
    requires n <= |actions| && p in Reached(db, actions, n).snapshots
    ensures began < n && actions[began] == Begin(p)
    ensures Reached(db, actions, n).snapshots[p] == Reached(db, actions, began).db
  {
    hide Decide, Commit, Reached;
    if n == 0 {
      NothingBegun(db, actions);
      assert false;
    } else {
      ReachedStep(db, actions, n - 1);
      if actions[n - 1] == Begin(p) {
        began := n - 1;
      } else {
        began := SnapshotIsBeginning(db, actions, n - 1, p);
      }
    }
  }

  lemma NothingBegun(db: Db, actions: seq<Action>)
    ensures Reached(db, actions, 0).snapshots == map[]
  {
    assert actions[..0] == [];
  }

  /** Main result: closed is final in every interleaving in which no transaction that concerns c, other than a close,
      commits after a close of c that it began before. */
  lemma ClosedIsFinalUnlessOverlapped(db: Db, actions: seq<Action>, n: nat, m: nat, c: Id)
    requires Initial(db) && n <= m <= |actions| && IsClosed(Reached(db, actions, n).db, c)
    requires forall i, k | 0 <= i < k < |actions| && n <= k
               && c in Reached(db, actions, i).db.conversations && !IsClosed(Reached(db, actions, i).db, c)
               && IsClosed(Reached(db, actions, k).db, c)
               && actions[k].Finish? && actions[i] == Begin(actions[k].p)
             :: !CommitsTo(Reached(db, actions, k), actions[k], c)
    ensures IsClosed(Reached(db, actions, m).db, c)
  {
    hide CommitsTo, IsClosed, Reached;
    if m > n {
      ClosedIsFinalUnlessOverlapped(db, actions, n, m - 1, c);
      var s, a := Reached(db, actions, m - 1), actions[m - 1];
      ReachedKeyed(db, actions, m - 1);
      ReachedStep(db, actions, m - 1);
      StepReopensIff(s, a, c);
      if CommitsTo(s, a, c) {
        CommitsHasSnapshot(s, a, c);
        var i := SnapshotIsBeginning(db, actions, m - 1, a.p);
      }
    }
  }

  lemma CommitsHasSnapshot(s: State, a: Action, c: Id)
    requires CommitsTo(s, a, c)
    ensures a.Finish? && a.p in s.snapshots
  {
  }

  // ----- two webhooks overlap -----

  predicate NewIdsDiffer(a: Op, b: Op)
    requires a.Webhook? && b.Webhook?
  {
    a.newCustomer != b.newCustomer && a.newConversation != b.newConversation && a.newMessage != b.newMessage
  }

  /** Both webhooks would be accepted, for the same known customer on the same channel, who has no active
      conversation there. */
  predicate BothStart(db: Db, a: Op, b: Op)
    requires a.Webhook? && b.Webhook?
  {
    var tenant, channel := a.Tenant(), FindChannel(db, a.Tenant(), TrimSpace(a.channelKey));
    var customer := FindCustomer(db, tenant, TrimSpace(a.externalId));
    && Decide(db, a).Ok? && Decide(db, b).Ok?
    && tenant == b.Tenant() && TrimSpace(a.channelKey) == TrimSpace(b.channelKey)
    && TrimSpace(a.externalId) == TrimSpace(b.externalId)
    && channel.Some? && customer.Some?
    && FindActiveConversation(db, tenant, customer.value, channel.value).None?
  }

  lemma FoundRows(db: Db, tenant: Id, externalId: string, key: string)
    ensures var c := FindCustomer(db, tenant, externalId);
            c.Some? ==> c.value in db.customers && db.customers[c.value].externalId == externalId
    ensures var h := FindChannel(db, tenant, key);
            h.Some? ==> h.value in db.channels && db.channels[h.value].key == key
  {
  }

  /** What a decided webhook writes, told by what it found. */
  lemma WebhookTerms(db: Db, op: Op)
    requires Tables(db) && op.Webhook? && Decide(db, op).Ok?
    ensures var ch, tenant := Decide(db, op).value, op.Tenant();
            var channel := FindChannel(db, tenant, TrimSpace(op.channelKey));
            var customer := FindCustomer(db, tenant, TrimSpace(op.externalId));
            var id := if customer.Some? then customer.value else op.newCustomer;
            && channel.Some? && ch.tenant == tenant
            && (ch.customer.Insert? <==> customer.None?) && (ch.customer.Insert? ==> ch.customer.id == op.newCustomer)
            && ch.message.Some? && ch.message.value.id == op.newMessage && ch.ticket == Keep
            && (ch.conversation.Insert? <==> FindActiveConversation(db, tenant, id, channel.value).None?)
            && (ch.conversation.Insert? ==>
                  var row := ch.conversation.row;
                  && ch.conversation.id == op.newConversation && row.tenant == tenant
                  && row.customer == id && row.channel == channel.value)
  {
    hide TrimSpace, References, OneActive, Ownership, FindChannel, FindActiveConversation;
  }

  lemma BothStartIff(db: Db, a: Op, b: Op)
    requires Tables(db) && a.Webhook? && b.Webhook? && Decide(db, a).Ok? && Decide(db, b).Ok?
    requires Fresh(db, a) && Fresh(db, b) && NewIdsDiffer(a, b)
    ensures var x, y := Decide(db, a).value, Decide(db, b).value;
            && (BothStart(db, a, b) <==>
                  x.conversation.Insert? && y.conversation.Insert?
                      && SameTriple(x.conversation.row, y.conversation.row))
            && (BothStart(db, a, b) ==> !x.customer.Insert? && !y.customer.Insert?)
  {
    hide TrimSpace, Tables, Decide, FindChannel, FindCustomer, FindActiveConversation;
    WebhookTerms(db, a);
    WebhookTerms(db, b);
    FoundRows(db, a.Tenant(), TrimSpace(a.externalId), TrimSpace(a.channelKey));
    FoundRows(db, b.Tenant(), TrimSpace(b.externalId), TrimSpace(b.channelKey));
  }

  /** Same status and same triple. */
  predicate Alike(a: Conversation, b: Conversation) {
    a.status == b.status && SameTriple(a, b)
  }

  /** An intake leaves every row alike and at most adds an open one whose triple had no active conversation. */
  lemma IntakeRows(db: Db, ch: Change)
    requires Tables(db) && Intake(db, ch)
    ensures !ch.conversation.Keep?
    ensures ch.conversation.Update? ==>
              ch.conversation.id in db.conversations && Alike(ch.conversation.row, db.conversations[ch.conversation.id])
    ensures ch.conversation.Insert? ==>
              && ch.conversation.row.status == Open
              && forall c | c in db.conversations && SameTriple(db.conversations[c], ch.conversation.row) ::
                   db.conversations[c].status == Closed
  {
    hide References, Ownership, OneActive, IsAgent, CustomersByExternalId, CustomerWrite;
    if ch.conversation.Insert? {
      var row := ch.conversation.row;
      forall c | c in db.conversations && SameTriple(db.conversations[c], row)
        ensures db.conversations[c].status == Closed
      {
        assert c !in ActiveConversations(db, ch.tenant, row.customer, row.channel);
      }
    }
  }

  /** Putting a row that is alike keeps all rows alike; nothing else is added. */
  lemma PutAlike(table: map<Id, Conversation>, w: Write<Conversation>)
    requires w.Update? && w.id in table && Alike(w.row, table[w.id])
    ensures Put(table, w).Keys == table.Keys && forall c | c in table :: Alike(Put(table, w)[c], table[c])
  {
  }

  /** Intake x, decided on db, commits after intake y did. */
  lemma OverlappingIntakes(db: Db, x: Change, y: Change)
    requires Tables(db) && Intake(db, x) && Intake(db, y) && !Clashes(db, y) && !Clashes(Written(db, y), x)
    ensures !OneActive(Written(Written(db, y), x)) <==>
              x.conversation.Insert? && y.conversation.Insert? && SameTriple(x.conversation.row, y.conversation.row)
  {
    hide Tables, Intake, CustomersByExternalId, MessageIdTaken, TicketKeyTaken;
    var mid, last := Written(db, y), Written(Written(db, y), x);
    KeepsOneActive(db, y);
    IntakeRows(db, x);
    IntakeRows(db, y);
    if y.conversation.Update? { PutAlike(db.conversations, y.conversation); }
    if x.conversation.Update? {
      PutAlike(mid.conversations, x.conversation);
    } else if y.conversation.Insert? && SameTriple(x.conversation.row, y.conversation.row) {
      assert last.conversations[x.conversation.id].status == Open
          && last.conversations[y.conversation.id].status == Open;
    }
  }

  /** Main result (exact condition): a webhook overtaken by another leaves two active conversations of one customer on
      one channel if and only if both would be accepted for the same known customer and channel with none active. A
      customer new to both is saved by the unique key on its external id. */
  lemma OverlapStartsTwoIff(db: Db, a: Op, b: Op)
    requires Tables(db) && a.Webhook? && b.Webhook?
    requires Fresh(db, a) && Fresh(db, b) && NewIdsDiffer(a, b)
    ensures !OneActive(Overtaken(db, a, b)) <==> BothStart(db, a, b)
  {
    hide Tables, Decide, Clashes, BothStart, Overtaken, Intake, OneActive, Fresh;
    var mid := After(db, b);
    OvertakenIs(db, a, b);
    KeepsTables(db, b);
    TablesOneActive(mid);
    if Decide(db, b).Ok? { FreshDoesNotClash(db, b); }
    if Decide(db, a).Ok? && Decide(db, b).Ok? {
      var x, y := Decide(db, a).value, Decide(db, b).value;
      WebhookIsIntakeOf(db, a);
      WebhookIsIntakeOf(db, b);
      BothStartIff(db, a, b);
      if !Clashes(mid, x) {
        OverlappingIntakes(db, x, y);
      } else if BothStart(db, a, b) {
        BothStartCommits(db, a, b);
      }
    } else {
      NotBothUndecided(db, a, b);
      if Decide(db, a).Ok? {
        KeepsTables(db, a);
        FreshDoesNotClash(db, a);
        TablesOneActive(After(db, a));
      }
    }
  }

  lemma TablesOneActive(db: Db)
    requires Tables(db)
    ensures OneActive(db)
  {
  }

  lemma NotBothUndecided(db: Db, a: Op, b: Op)
    requires a.Webhook? && b.Webhook? && (Decide(db, a).Err? || Decide(db, b).Err?)
    ensures !BothStart(db, a, b)
  {
    hide Decide;
  }

  lemma WebhookIsIntakeOf(db: Db, op: Op)
    requires Tables(db) && op.Webhook? && Decide(db, op).Ok?
    ensures Intake(db, Decide(db, op).value)
  {
    hide DecideWebhook, Tables, Intake;
    WebhookIsIntake(db, op);
  }

  lemma BothStartCommits(db: Db, a: Op, b: Op)
    requires Tables(db) && a.Webhook? && b.Webhook? && Decide(db, a).Ok? && Decide(db, b).Ok?
    requires Fresh(db, a) && Fresh(db, b) && NewIdsDiffer(a, b) && BothStart(db, a, b)
    ensures !Clashes(After(db, b), Decide(db, a).value)
  {
    hide TrimSpace, Tables, Decide, BothStart, FindChannel, FindCustomer, FindActiveConversation;
    WebhookTerms(db, a);
    WebhookTerms(db, b);
    BothStartIff(db, a, b);
    FreshDoesNotClash(db, b);
    assert After(db, b).messages == db.messages + [Decide(db, b).value.message.value];
  }

  // ----- one active conversation in any interleaving -----

  /** Snapshots know stored conversations only, and no conversation changes its tenant, customer or channel. */
  ghost predicate Fits(s: State) {
    && AllKeyed(s)
    && forall p, c | p in s.snapshots && c in s.snapshots[p].conversations ::
         c in s.db.conversations && SameTriple(s.snapshots[p].conversations[c], s.db.conversations[c])
  }

  lemma WritesSameTriple(db: Db, op: Op)
    requires RowsKeyed(db) && Decide(db, op).Ok? && Decide(db, op).value.conversation.Update?
    ensures var w := Decide(db, op).value.conversation;
            w.id in db.conversations && SameTriple(w.row, db.conversations[w.id])
  {
    hide TrimSpace, CustomerFor, FindChannel;
  }

  lemma StepKeepsFits(s: State, a: Action)
    requires Fits(s)
    ensures Fits(Interleaved.Next(s, a))
  {
    hide Decide, Clashes;
    StepKeepsKeyed(s, a);
    if a.Finish? && a.p in s.snapshots && Decide(s.snapshots[a.p], a.op).Ok? {
      var ch := Decide(s.snapshots[a.p], a.op).value;
      if ch.conversation.Update? { WritesSameTriple(s.snapshots[a.p], a.op); }
      if !Clashes(s.db, ch) {
        forall c | c in s.db.conversations ensures !(ch.conversation.Insert? && ch.conversation.id == c) {
          InsertsElsewhere(s.db, ch, c);
        }
      }
    }
  }

  /** The step commits a conversation that is not closed while another one of its tenant, customer and channel is
      active. */
  ghost predicate Crowds(s: State, a: Action) {
    && a.Finish? && a.p in s.snapshots && Decide(s.snapshots[a.p], a.op).Ok?
    && var ch := Decide(s.snapshots[a.p], a.op).value;
    && !Clashes(s.db, ch) && !ch.conversation.Keep? && ch.conversation.row.status != Closed
    && exists d :: d in s.db.conversations && d != ch.conversation.id && s.db.conversations[d].status != Closed
                   && SameTriple(s.db.conversations[d], ch.conversation.row)
  }

  /** Putting one row crowds a table with at most one active row per triple exactly when another is active. */
  lemma PutCrowdsIff(db: Db, ch: Change)
    requires OneActive(db) && !ch.conversation.Keep?
    ensures !OneActive(Written(db, ch)) <==>
              && ch.conversation.row.status != Closed
              && exists d :: d in db.conversations && d != ch.conversation.id && db.conversations[d].status != Closed
                             && SameTriple(db.conversations[d], ch.conversation.row)
  {
    hide Logged, Queued;
    var db', id, row := Written(db, ch), ch.conversation.id, ch.conversation.row;
    assert db'.conversations == db.conversations[id := row];
    assert id in db'.conversations && db'.conversations[id] == row;
    forall d | d in db.conversations && d != id
      ensures d in db'.conversations && db'.conversations[d] == db.conversations[d]
    {
    }
    if d :| d in db.conversations && d != id && db.conversations[d].status != Closed
            && SameTriple(db.conversations[d], row) {
      assert SameTriple(db'.conversations[d], db'.conversations[id]);
    }
    if !OneActive(db') {
      var c, d :| c in db'.conversations && d in db'.conversations && c != d
        && db'.conversations[c].status != Closed && db'.conversations[d].status != Closed
        && SameTriple(db'.conversations[c], db'.conversations[d]);
      var other := if c == id then d else c;
      assert SameTriple(db.conversations[other], row);
    }
  }

  /** With one active conversation per customer and channel, a step breaks that if and only if it crowds; it then starts
      a conversation or reopens a closed one. */
  lemma StepCrowdsIff(s: State, a: Action)
    requires Fits(s) && OneActive(s.db)
    ensures !OneActive(Interleaved.Next(s, a).db) <==> Crowds(s, a)
    ensures Crowds(s, a) ==>
              var w := Decide(s.snapshots[a.p], a.op).value.conversation; w.Insert? || IsClosed(s.db, w.id)
  {
    hide Decide, Clashes, OneActive;
    if a.Finish? && a.p in s.snapshots && Decide(s.snapshots[a.p], a.op).Ok? {
      var ch := Decide(s.snapshots[a.p], a.op).value;
      if !Clashes(s.db, ch) {
        if ch.conversation.Keep? {
          SameConversations(s.db, Written(s.db, ch));
        } else {
          PutCrowdsIff(s.db, ch);
          if ch.conversation.Update? && Crowds(s, a) { UpdateCrowdsByReopening(s, a); }
        }
      }
    }
  }

  lemma SameConversations(db: Db, db': Db)
    requires db.conversations == db'.conversations
    ensures OneActive(db) == OneActive(db')
  {
  }

  lemma UpdateCrowdsByReopening(s: State, a: Action)
    requires Fits(s) && OneActive(s.db) && Crowds(s, a) && Decide(s.snapshots[a.p], a.op).value.conversation.Update?
    ensures IsClosed(s.db, Decide(s.snapshots[a.p], a.op).value.conversation.id)
  {
    hide Decide, Clashes;
    WritesSameTriple(s.snapshots[a.p], a.op);
  }

  lemma {:induction false} InterleavingsFit(db: Db, actions: seq<Action>)
    requires Initial(db)
    ensures Fits(Interleaved.Interleave(State(db, map[]), actions))
  {
    hide Interleaved.Next;
    if actions == [] {
    } else {
      InterleavingsFit(db, actions[..|actions| - 1]);
      StepKeepsFits(Interleaved.Interleave(State(db, map[]), actions[..|actions| - 1]), actions[|actions| - 1]);
    }
  }

  /** Main result (exact condition): at most one conversation per customer and channel is active all through an
      interleaving if and only if no transaction of it commits a start or a reopening while another one is active. */
  lemma {:induction false} OneActiveIff(db: Db, actions: seq<Action>, m: nat)
    requires Initial(db) && m <= |actions|
    ensures (forall k | 0 <= k <= m :: OneActive(Reached(db, actions, k).db)) <==>
            (forall k | 0 <= k < m :: !Crowds(Reached(db, actions, k), actions[k]))
  {
    hide Crowds, Interleaved.Next, OneActive, Reached, Fits;
    if m == 0 {
      NothingActive(db, actions);
    } else {
      OneActiveIff(db, actions, m - 1);
      if OneActive(Reached(db, actions, m - 1).db) {
        ReachedFits(db, actions, m - 1);
        ReachedStep(db, actions, m - 1);
        StepCrowdsIff(Reached(db, actions, m - 1), actions[m - 1]);
        assert OneActive(Reached(db, actions, m).db) <==> !Crowds(Reached(db, actions, m - 1), actions[m - 1]);
      }
    }
  }

  lemma ReachedFits(db: Db, actions: seq<Action>, n: nat)
    requires Initial(db) && n <= |actions|
    ensures Fits(Reached(db, actions, n))
  {
    InterleavingsFit(db, actions[..n]);
  }

  lemma NothingActive(db: Db, actions: seq<Action>)
    requires Initial(db)
    ensures OneActive(Reached(db, actions, 0).db)
  {
    assert actions[..0] == [];
  }

  // ----- both happen in reachable databases -----

  /** One tenant with one agent and one channel, and nothing else yet. */
  function Desk(): Db {
    Db({"t"}, map["a" := User("a", "t", "Ann", ROLE_AGENT)], map["h" := Channel("h", "t", "web", "Web")],
       map[], map[], [], map[], [], [])
  }

  function Writing(customer: Id, conversation: Id, message: Id): Op {
    Webhook("t", "web", "x", "", "hello", customer, conversation, message, 0)
  }

  /** The one customer has written once; the conversation is v1. */
  function OneWritten(): Db {
    Desk().(
      customers := map["c1" := Customer("c1", "t", "x", "x")],
      conversations := map["v1" := Conversation("v1", "t", "c1", "h", Open, None, 0)],
      messages := [Message("m1", "v1", FromCustomer, None, "hello")],
      activity := Logged("t", FirstEvents()),
      outbox := Queued("t", FirstEvents()))
  }

  function FirstEvents(): seq<Event> {
    [Created(Conversation("v1", "t", "c1", "h", Open, None, 0)),
        Received(Message("m1", "v1", FromCustomer, None, "hello"))]
  }

  lemma DeskChannel(db: Db)
    requires db.channels == Desk().channels
    ensures FindChannel(db, "t", "web") == Some("h")
  {
    assert ChannelsByKey(db, "t", "web") == {"h"};
  }

  lemma TrimmedWords()
    ensures TrimSpace("t") == "t" && TrimSpace("web") == "web" && TrimSpace("x") == "x"
    ensures TrimSpace("hello") == "hello" && TrimSpace("ok") == "ok" && TrimSpace("") == ""
  {
  }

  lemma FirstDecision()
    ensures Decide(Desk(), Writing("c1", "v1", "m1")) ==
            Ok(Change("t", Insert("c1", Customer("c1", "t", "x", "x")),
                      Insert("v1", Conversation("v1", "t", "c1", "h", Open, None, 0)),
                      Some(Message("m1", "v1", FromCustomer, None, "hello")), Keep, FirstEvents()))
  {
    TrimmedWords();
    DeskChannel(Desk());
    hide TrimSpace, FindChannel;
    assert CustomersByExternalId(Desk(), "t", "x") == {};
    assert ActiveConversations(Desk(), "t", "c1", "h") == map[];
  }

  lemma FirstWriting()
    ensures Initial(Desk()) && After(Desk(), Writing("c1", "v1", "m1")) == OneWritten()
  {
    FirstDecision();
    hide Decide, Logged, Queued;
    var db, ch := Desk(), Decide(Desk(), Writing("c1", "v1", "m1")).value;
    assert CustomersByExternalId(db, "t", "x") == {};
    assert db.activity + Logged("t", FirstEvents()) == Logged("t", FirstEvents());
    assert db.outbox + Queued("t", FirstEvents()) == Queued("t", FirstEvents());
    assert !Clashes(db, ch);
    assert Written(db, ch) == OneWritten();
  }

  lemma RunOne(db: Db, op: Op)
    ensures Run(db, [op]) == After(db, op)
  {
    assert [op][..0] == [];
    assert Run(db, []) == db;
  }

  lemma RunTwo(db: Db, first: Op, second: Op)
    ensures Run(db, [first, second]) == After(After(db, first), second)
  {
    assert [first, second][..1] == [first];
    RunOne(db, first);
  }

  const REPLY := Reply("t", "v1", "a", "ok", "m2", 1)
  const CLOSE := Close("t", "v1", "b", ROLE_ADMIN, 1)

  lemma BothAccepted()
    ensures Apply(OneWritten(), REPLY).Ok? && Apply(OneWritten(), CLOSE).Ok? && Concerns(OneWritten(), REPLY, "v1")
  {
    TrimmedWords();
    hide TrimSpace;
    assert !Clashes(OneWritten(), Decide(OneWritten(), REPLY).value);
    assert !Clashes(OneWritten(), Decide(OneWritten(), CLOSE).value);
  }

  /** A reply that began before a close reopens the conversation, in a database some run reaches. */
  lemma ReopeningHappens() returns (db: Db, ops: seq<Op>, reply: Op, close: Op)
    ensures Initial(db) && reply.Reply? && close.Close?
    ensures IsClosed(After(Run(db, ops), close), close.conversation)
    ensures !IsClosed(Overtaken(Run(db, ops), reply, close), close.conversation)
  {
    hide TrimSpace, Decide, Clashes, Concerns, Tables, OneWritten, Initial, After, IsClosed, Overtaken;
    db, ops, reply, close := Desk(), [Writing("c1", "v1", "m1")], REPLY, CLOSE;
    FirstWriting();
    RunOne(db, ops[0]);
    RunKeepsTables(db, ops);
    BothAccepted();
    CloseWrites(OneWritten(), close);
    ReopensIffConcerned(OneWritten(), reply, close);
  }

  /** The customer is known on the desk's channel and has no active conversation. */
  ghost predicate Idle(now: Db) {
    && now.tenants == {"t"} && now.channels == Desk().channels && now.customers == OneWritten().customers
    && now.messages == OneWritten().messages && now.conversations.Keys == {"v1"}
    && FindCustomer(now, "t", "x") == Some("c1") && FindActiveConversation(now, "t", "c1", "h") == None
  }

  lemma BothFresh(now: Db, a: Op, b: Op)
    requires Idle(now) && a == Writing("c2", "v2", "m2") && b == Writing("c3", "v3", "m3")
    ensures Fresh(now, a) && Fresh(now, b) && NewIdsDiffer(a, b)
  {
    hide FindChannel, FindCustomer, FindActiveConversation;
    assert "v2" !in now.conversations.Keys && "v3" !in now.conversations.Keys;
  }

  lemma WritingAccepted(now: Db, customer: Id, conversation: Id, message: Id)
    requires Idle(now)
    ensures Decide(now, Writing(customer, conversation, message)).Ok?
  {
    TrimmedWords();
    DeskChannel(now);
    hide TrimSpace, FindChannel, FindCustomer, FindActiveConversation, IntakeChange, OneWritten;
  }

  lemma BothWouldStart(now: Db, a: Op, b: Op)
    requires Idle(now) && a == Writing("c2", "v2", "m2") && b == Writing("c3", "v3", "m3")
    ensures BothStart(now, a, b)
  {
    TrimmedWords();
    DeskChannel(now);
    WritingAccepted(now, "c2", "v2", "m2");
    WritingAccepted(now, "c3", "v3", "m3");
    hide TrimSpace, FindChannel, FindCustomer, FindActiveConversation, Decide, OneWritten;
  }

  /** Two webhooks of a customer whose conversation was closed start two, in a database some run reaches. */
  lemma DoubleStartHappens() returns (db: Db, ops: seq<Op>, a: Op, b: Op)
    ensures Initial(db) && a.Webhook? && b.Webhook?
    ensures OneActive(Run(db, ops)) && !OneActive(Overtaken(Run(db, ops), a, b))
  {
    hide TrimSpace, Decide, OneWritten, Initial, After, OneActive, Overtaken, Fresh, BothStart, Idle, Schema,
         References, Ownership;
    db, ops := Desk(), [Writing("c1", "v1", "m1"), CLOSE];
    a, b := Writing("c2", "v2", "m2"), Writing("c3", "v3", "m3");
    FirstWriting();
    RunTwo(db, ops[0], CLOSE);
    RunKeepsTables(db, ops);
    IdleOnceClosed();
    BothFresh(Run(db, ops), a, b);
    BothWouldStart(Run(db, ops), a, b);
    OverlapStartsTwoIff(Run(db, ops), a, b);
  }

  lemma IdleOnceClosed()
    ensures Idle(After(OneWritten(), CLOSE))
  {
    var before := OneWritten();
    var now := After(before, CLOSE);
    assert Decide(before, CLOSE).Ok? && !Clashes(before, Decide(before, CLOSE).value);
    assert before.messages + [] == before.messages;
    assert CustomersByExternalId(now, "t", "x") == {"c1"};
    assert ActiveConversations(now, "t", "c1", "h") == map[];
  }
}
