/** The outbox worker: every tick loads the 50 oldest unpublished events, publishes each and marks it. */
module Worker {
  import opened Model
  import opened Operations
  import opened Invariants
  import opened Lists

  const BATCH := 50

  /** What happens to one event of a batch: accepted by the broker and marked, accepted but the mark failed (or the
      process died before it), or refused, with or without the failure being recorded. */
  datatype Delivery = Marked | Unmarked | Refused(noted: bool)

  /** The outbox table in created_at order, the deliveries the broker accepted, the marks that failed, and the refusals
      that were recorded. */
  datatype Queue = Queue(
    rows: seq<OutboxEvent>, accepted: multiset<nat>, unmarked: multiset<nat>, noted: multiset<nat>)

  predicate Unpublished(rows: seq<OutboxEvent>, ids: seq<nat>) {
    forall k | 0 <= k < |ids| :: ids[k] < |rows| && !rows[ids[k]].published
  }

  predicate Positions(ids: seq<nat>, n: nat) {
    forall k | 0 <= k < |ids| :: ids[k] < n
  }

  /** Positions of the unpublished events, oldest first. */
  function Pending(rows: seq<OutboxEvent>): (ids: seq<nat>)
    ensures Unpublished(rows, ids)
  {
    if rows == [] then [] else
    var n := |rows| - 1;
    if rows[n].published then Pending(rows[..n]) else Pending(rows[..n]) + [n]
  }

  /** ListPendingOutbox. */
  function Batch(rows: seq<OutboxEvent>, limit: nat): (ids: seq<nat>)
    ensures Unpublished(rows, ids)
  {
    Window(Pending(rows), 0, limit)
  }

  function Published(row: OutboxEvent): OutboxEvent {
    row.(published := true, failed := false)
  }

  function Failed(row: OutboxEvent): OutboxEvent {
    row.(failed := true, attempts := row.attempts + 1)
  }

  function Handle(q: Queue, i: nat, d: Delivery): Queue
    requires i < |q.rows|
  {
    match d
    case Marked => q.(rows := q.rows[i := Published(q.rows[i])], accepted := q.accepted + multiset{i})
    case Unmarked => q.(accepted := q.accepted + multiset{i}, unmarked := q.unmarked + multiset{i})
    case Refused(noted) =>
      if noted then q.(rows := q.rows[i := Failed(q.rows[i])], noted := q.noted + multiset{i}) else q
  }

  /** The first k events of the batch handled. */
  function Handled(q: Queue, batch: seq<nat>, ds: seq<Delivery>, k: nat): (q': Queue)
    requires k <= |batch| && k <= |ds|
    requires Positions(batch, |q.rows|)
    ensures |q'.rows| == |q.rows|
  {
    if k == 0 then q else Handle(Handled(q, batch, ds, k - 1), batch[k - 1], ds[k - 1])
  }

  /** One tick: nothing if the load fails; ds may be shorter than the batch when the worker stops in the middle. */
  function Tick(q: Queue, load: bool, ds: seq<Delivery>): Queue {
    var batch := Batch(q.rows, BATCH);
    if load then Handled(q, batch, ds, Min(|batch|, |ds|)) else q
  }

  datatype Step = Arrive(tenant: Id, event: Event) | Ticked(load: bool, ds: seq<Delivery>)

  /** A new outbox row, as appendDomainEvent inserts it. */
  function NewRow(tenant: Id, event: Event): OutboxEvent {
    OutboxEvent(tenant, event, event.Type(), 0, false, false)
  }

  function Do(q: Queue, s: Step): Queue {
    match s
    case Arrive(tenant, event) => q.(rows := q.rows + [NewRow(tenant, event)])
    case Ticked(load, ds) => Tick(q, load, ds)
  }

  function RunSteps(q: Queue, steps: seq<Step>): Queue {
    if steps == [] then q else Do(RunSteps(q, steps[..|steps| - 1]), steps[|steps| - 1])
  }

  // ----- at-least-once accounting -----

  /** Every accepted delivery is either the one behind a published mark or one whose mark failed; attempts count the
      recorded refusals; an event is marked failed while it has some and is not published. */
  ghost predicate Accounted(q: Queue) {
    && (forall i: nat :: q.accepted[i] == q.unmarked[i] + (if i < |q.rows| && q.rows[i].published then 1 else 0))
    && (forall i: nat | i >= |q.rows| :: q.accepted[i] == 0 && q.noted[i] == 0)
    && (forall i | 0 <= i < |q.rows| :: RowAccounted(q.rows[i], q.noted[i]))
  }

  predicate RowAccounted(row: OutboxEvent, noted: nat) {
    row.attempts == noted && (row.failed <==> !row.published && noted > 0)
  }

  /** Nothing but delivery marks changes, and a published event stays published. */
  ghost predicate Follows(q: Queue, q': Queue) {
    && |q.rows| <= |q'.rows|
    && (forall i | 0 <= i < |q.rows| ::
          && q'.rows[i].tenant == q.rows[i].tenant && q'.rows[i].event == q.rows[i].event
          && q'.rows[i].routingKey == q.rows[i].routingKey && q.rows[i].attempts <= q'.rows[i].attempts
          && (q.rows[i].published ==> q'.rows[i].published))
  }

  ghost predicate Distinct(batch: seq<nat>) {
    forall i, j | 0 <= i < j < |batch| :: batch[i] != batch[j]
  }

  lemma {:induction false} PendingIsDistinct(rows: seq<OutboxEvent>)
    ensures Distinct(Pending(rows))
  {
    if rows == [] {
    } else {
      PendingIsDistinct(rows[..|rows| - 1]);
      assert Unpublished(rows[..|rows| - 1], Pending(rows[..|rows| - 1]));
    }
  }

  lemma HandleBalances(q: Queue, i: nat, d: Delivery)
    requires i < |q.rows| && !q.rows[i].published && Accounted(q)
    ensures Accounted(Handle(q, i, d))
  {
    var q' := Handle(q, i, d);
    forall j: nat ensures q'.accepted[j] == q'.unmarked[j] + (if j < |q'.rows| && q'.rows[j].published then 1 else 0)
                          && (j >= |q'.rows| ==> q'.accepted[j] == 0 && q'.noted[j] == 0)
                          && (j < |q'.rows| ==> RowAccounted(q'.rows[j], q'.noted[j]))
    {
      assert q.accepted[j] == q.unmarked[j] + (if j < |q.rows| && q.rows[j].published then 1 else 0);
      assert j < |q.rows| ==> RowAccounted(q.rows[j], q.noted[j]);
    }
  }

  lemma HandleFollows(q: Queue, i: nat, d: Delivery)
    requires i < |q.rows|
    ensures Follows(q, Handle(q, i, d))
    ensures forall j | 0 <= j < |q.rows| && j != i :: Handle(q, i, d).rows[j].published == q.rows[j].published
  {
  }

  lemma StaysPut(q: Queue)
    ensures Follows(q, q)
  {
  }

  lemma FollowsIsTransitive(a: Queue, b: Queue, c: Queue)
    requires Follows(a, b) && Follows(b, c)
    ensures Follows(a, c)
  {
  }

  /** Handling part of a batch leaves the rest of it unpublished, and keeps the books. */
  lemma {:induction false} HandledKeepsBooks(q: Queue, batch: seq<nat>, ds: seq<Delivery>, k: nat)
    requires k <= |batch| && k <= |ds| && Distinct(batch) && Accounted(q) && Unpublished(q.rows, batch)
    ensures Accounted(Handled(q, batch, ds, k)) && Follows(q, Handled(q, batch, ds, k))
    ensures forall i | k <= i < |batch| :: !Handled(q, batch, ds, k).rows[batch[i]].published
  {
    hide Accounted, Follows, Handle;
    if k == 0 {
      StaysPut(q);
    } else {
      HandledKeepsBooks(q, batch, ds, k - 1);
      var before := Handled(q, batch, ds, k - 1);
      HandleBalances(before, batch[k - 1], ds[k - 1]);
      HandleFollows(before, batch[k - 1], ds[k - 1]);
      FollowsIsTransitive(q, before, Handled(q, batch, ds, k));
    }
  }

  lemma DoKeepsBooks(q: Queue, s: Step)
    requires Accounted(q)
    ensures Accounted(Do(q, s)) && Follows(q, Do(q, s))
  {
    if s.Ticked? && s.load {
      var batch := Batch(q.rows, BATCH);
      PendingIsDistinct(q.rows);
      HandledKeepsBooks(q, batch, s.ds, Min(|batch|, |s.ds|));
    }
  }

  /** Main result: for any arrivals and any failures of loads, publishes and marks, the broker accepted each event
      exactly (1 if it is marked published) + (its failed marks) times, and its attempts count exactly its recorded
      refusals; no event is lost or altered, and published never reverts. */
  lemma {:induction false} DeliveriesAreAccounted(q: Queue, steps: seq<Step>)
    requires Accounted(q)
    ensures Accounted(RunSteps(q, steps)) && Follows(q, RunSteps(q, steps))
  {
    if steps == [] {
    } else {
      DeliveriesAreAccounted(q, steps[..|steps| - 1]);
      DoKeepsBooks(RunSteps(q, steps[..|steps| - 1]), steps[|steps| - 1]);
    }
  }

  // ----- who is served when -----

  /** The number of unpublished events older than position e. */
  function Rank(rows: seq<OutboxEvent>, e: nat): nat
    requires e <= |rows|
  {
    if e == 0 then 0 else Rank(rows, e - 1) + (if rows[e - 1].published then 0 else 1)
  }

  lemma {:induction false} RankOfPrefix(rows: seq<OutboxEvent>, more: seq<OutboxEvent>, e: nat)
    requires e <= |rows|
    ensures Rank(rows + more, e) == Rank(rows, e)
  {
    if e == 0 {
    } else {
      RankOfPrefix(rows, more, e - 1);
    }
  }

  /** An unpublished event stands in Pending at its rank. */
  ghost predicate ByRank(rows: seq<OutboxEvent>, ids: seq<nat>) {
    && |ids| == Rank(rows, |rows|)
    && (forall k | 0 <= k < |ids| :: ids[k] < |rows| && Rank(rows, ids[k]) == k)
    && (forall e | 0 <= e < |rows| && !rows[e].published :: Rank(rows, e) < |ids| && ids[Rank(rows, e)] == e)
  }

  lemma RankOfWhole(init: seq<OutboxEvent>, row: OutboxEvent)
    ensures Rank(init + [row], |init| + 1) == Rank(init, |init|) + (if row.published then 0 else 1)
  {
    RankOfPrefix(init, [row], |init|);
  }

  lemma ByRankExtends(init: seq<OutboxEvent>, row: OutboxEvent, ids: seq<nat>)
    requires ByRank(init, ids)
    ensures ByRank(init + [row], if row.published then ids else ids + [|init|])
  {
    var rows, ids' := init + [row], if row.published then ids else ids + [|init|];
    hide Rank;
    RankOfPrefix(init, [row], |init|);
    RankOfWhole(init, row);
    forall k | 0 <= k < |ids'| ensures ids'[k] < |rows| && Rank(rows, ids'[k]) == k {
      if k < |ids| { RankOfPrefix(init, [row], ids[k]); }
    }
    forall e | 0 <= e < |rows| && !rows[e].published ensures Rank(rows, e) < |ids'| && ids'[Rank(rows, e)] == e {
      if e < |init| { RankOfPrefix(init, [row], e); }
    }
  }

  lemma NoneByRank(rows: seq<OutboxEvent>)
    requires rows == []
    ensures ByRank(rows, [])
  {
  }

  lemma {:induction false} PendingByRank(rows: seq<OutboxEvent>)
    ensures ByRank(rows, Pending(rows))
  {
    hide Rank, ByRank;
    if rows == [] {
      NoneByRank(rows);
    } else {
      var n := |rows| - 1;
      PendingByRank(rows[..n]);
      assert rows == rows[..n] + [rows[n]];
      ByRankExtends(rows[..n], rows[n], Pending(rows[..n]));
    }
  }

  /** Main result: a tick offers an event to the broker exactly when it is unpublished and fewer than 50 unpublished
      events are older. */
  lemma OfferedIffAmongOldest(rows: seq<OutboxEvent>, e: nat, limit: nat)
    ensures e in Batch(rows, limit) <==> e < |rows| && !rows[e].published && Rank(rows, e) < limit
  {
    PendingByRank(rows);
    var pending := Pending(rows);
    if e < |rows| && !rows[e].published && Rank(rows, e) < limit {
      assert Batch(rows, limit)[Rank(rows, e)] == e;
    }
  }

  // ----- drain -----

  predicate AllMarked(ds: seq<Delivery>) {
    |ds| >= BATCH && forall i | 0 <= i < |ds| :: ds[i] == Marked
  }

  /** No failure: the load works and every event is accepted and marked. */
  predicate FaultFree(s: Step) {
    s.Ticked? ==> s.load && AllMarked(s.ds)
  }

  lemma {:induction false} MarkedAll(q: Queue, batch: seq<nat>, ds: seq<Delivery>, k: nat)
    requires k <= |batch| && k <= |ds| && (forall i | 0 <= i < |ds| :: ds[i] == Marked)
    requires Positions(batch, |q.rows|)
    ensures forall e | 0 <= e < |q.rows| ::
              Handled(q, batch, ds, k).rows[e].published <==> q.rows[e].published || e in batch[..k]
  {
    if k == 0 {
    } else {
      MarkedAll(q, batch, ds, k - 1);
      assert batch[..k] == batch[..k - 1] + [batch[k - 1]];
    }
  }

  /** A tick in which nothing fails, though it may stop early, publishes exactly the oldest events. */
  lemma TickPublishesOldest(q: Queue, ds: seq<Delivery>)
    requires forall i | 0 <= i < |ds| :: ds[i] == Marked
    ensures |Tick(q, true, ds).rows| == |q.rows|
    ensures forall e | 0 <= e < |q.rows| ::
              Tick(q, true, ds).rows[e].published <==> q.rows[e].published || Rank(q.rows, e) < Min(50, |ds|)
  {
    var batch := Batch(q.rows, BATCH);
    var n := Min(|batch|, |ds|);
    assert batch[..n] == Batch(q.rows, Min(50, |ds|));
    MarkedAll(q, batch, ds, n);
    forall e: nat
      ensures e in batch[..n] <==> e < |q.rows| && !q.rows[e].published && Rank(q.rows, e) < Min(50, |ds|)
    {
      OfferedIffAmongOldest(q.rows, e, Min(50, |ds|));
    }
  }

  lemma CleanTickPublishesOldest(q: Queue, ds: seq<Delivery>)
    requires AllMarked(ds)
    ensures |Tick(q, true, ds).rows| == |q.rows|
    ensures forall e | 0 <= e < |q.rows| ::
              Tick(q, true, ds).rows[e].published <==> q.rows[e].published || Rank(q.rows, e) < 50
  {
    TickPublishesOldest(q, ds);
  }

  lemma RankOfNone(rows: seq<OutboxEvent>)
    ensures Rank(rows, 0) == 0
  {
  }

  lemma RankStep(before: seq<OutboxEvent>, after: seq<OutboxEvent>, e: nat)
    requires e < |before| == |after|
    requires after[e].published <==> before[e].published || Rank(before, e) < BATCH
    requires Rank(after, e) == if Rank(before, e) <= BATCH then 0 else Rank(before, e) - BATCH
    ensures Rank(after, e + 1) == if Rank(before, e + 1) <= BATCH then 0 else Rank(before, e + 1) - BATCH
  {
    assert Rank(before, e + 1) == Rank(before, e) + (if before[e].published then 0 else 1);
  }

  /** A clean tick serves exactly min(50, rank) of the events ahead of e. */
  lemma {:induction false} RankAfterTick(before: seq<OutboxEvent>, after: seq<OutboxEvent>, e: nat)
    requires e <= |before| == |after|
    requires forall i | 0 <= i < |before| :: after[i].published <==> before[i].published || Rank(before, i) < BATCH
    ensures Rank(after, e) == if Rank(before, e) <= BATCH then 0 else Rank(before, e) - BATCH
  {
    hide Rank;
    if e == 0 { RankOfNone(before); RankOfNone(after); }
    if e == 0 {
    } else {
      RankAfterTick(before, after, e - 1);
      RankStep(before, after, e - 1);
    }
  }

  function Ticks(steps: seq<Step>): nat {
    if steps == [] then 0 else Ticks(steps[..|steps| - 1]) + (if steps[|steps| - 1].Ticked? then 1 else 0)
  }

  /** Main result (drain bound): with r older unpublished events in front, event e is published after exactly
      r / 50 + 1 fault-free ticks and not before, whatever arrives meanwhile. */
  lemma {:induction false} DrainBound(q: Queue, steps: seq<Step>, e: nat)
    requires forall i | 0 <= i < |steps| :: FaultFree(steps[i])
    requires e < |q.rows| && !q.rows[e].published
    ensures var q', r, k := RunSteps(q, steps), Rank(q.rows, e), Ticks(steps);
            && e < |q'.rows|
            && (q'.rows[e].published <==> k >= r / 50 + 1)
            && (!q'.rows[e].published ==> Rank(q'.rows, e) == r - 50 * k)
  {
    if steps == [] {
    } else {
      var init, s := steps[..|steps| - 1], steps[|steps| - 1];
      DrainBound(q, init, e);
      var before := RunSteps(q, init);
      if s.Arrive? {
        RankOfPrefix(before.rows, [NewRow(s.tenant, s.event)], e);
      } else {
        CleanTickPublishesOldest(before, s.ds);
        RankAfterTick(before.rows, Tick(before, true, s.ds).rows, e);
      }
    }
  }

  /** Main result: with no arrivals, n unpublished events become max(0, n - 50k) after k fault-free ticks. */
  lemma {:induction false} BacklogShrinks(q: Queue, steps: seq<Step>)
    requires forall i | 0 <= i < |steps| :: steps[i].Ticked? && FaultFree(steps[i])
    ensures var n := |Pending(q.rows)|;
            && |RunSteps(q, steps).rows| == |q.rows|
            && |Pending(RunSteps(q, steps).rows)| == if n <= 50 * |steps| then 0 else n - 50 * |steps|
  {
    if steps == [] {
    } else {
      var init, s := steps[..|steps| - 1], steps[|steps| - 1];
      BacklogShrinks(q, init);
      var before := RunSteps(q, init);
      CleanTickPublishesOldest(before, s.ds);
      var after := Tick(before, true, s.ds);
      RankAfterTick(before.rows, after.rows, |before.rows|);
      PendingByRank(before.rows);
      PendingByRank(after.rows);
    }
  }

  // ----- events that are refused hold up the rest -----

  predicate AllRefused(s: Step) {
    s.Ticked? ==> forall i | 0 <= i < |s.ds| :: s.ds[i].Refused?
  }

  lemma {:induction false} RefusalsPublishNothing(q: Queue, batch: seq<nat>, ds: seq<Delivery>, k: nat)
    requires k <= |batch| && k <= |ds| && (forall i | 0 <= i < |ds| :: ds[i].Refused?)
    requires Positions(batch, |q.rows|)
    ensures forall e | 0 <= e < |q.rows| :: Handled(q, batch, ds, k).rows[e].published == q.rows[e].published
  {
    if k == 0 {
    } else {
      RefusalsPublishNothing(q, batch, ds, k - 1);
    }
  }

  lemma {:induction false} SameRank(a: seq<OutboxEvent>, b: seq<OutboxEvent>, e: nat)
    requires e <= |a| == |b| && forall i | 0 <= i < |a| :: a[i].published == b[i].published
    ensures Rank(a, e) == Rank(b, e)
  {
    if e == 0 {
    } else {
      SameRank(a, b, e - 1);
    }
  }

  /** Main result (head-of-line blocking): as long as the broker refuses the 50 oldest events, an event behind them
      is never offered, however many ticks pass. */
  lemma {:induction false} RefusedHeadBlocksTheRest(q: Queue, steps: seq<Step>, e: nat)
    requires forall i | 0 <= i < |steps| :: AllRefused(steps[i])
    requires e < |q.rows| && !q.rows[e].published && Rank(q.rows, e) >= 50
    ensures var q' := RunSteps(q, steps);
            && e < |q'.rows| && !q'.rows[e].published && Rank(q'.rows, e) == Rank(q.rows, e)
            && e !in Batch(q'.rows, 50)
  {
    if steps != [] {
      var init, s := steps[..|steps| - 1], steps[|steps| - 1];
      RefusedHeadBlocksTheRest(q, init, e);
      var before := RunSteps(q, init);
      if s.Arrive? {
        RankOfPrefix(before.rows, [NewRow(s.tenant, s.event)], e);
      } else if s.load {
        var batch := Batch(before.rows, BATCH);
        RefusalsPublishNothing(before, batch, s.ds, Min(|batch|, |s.ds|));
        SameRank(before.rows, Do(before, s).rows, e);
      }
    }
    OfferedIffAmongOldest(RunSteps(q, steps).rows, e, BATCH);
  }

  // ----- the two logs -----

  /** Entry by entry the outbox repeats the activity log, and is routed by event type. */
  ghost predicate Paired(activity: seq<ActivityLog>, rows: seq<OutboxEvent>) {
    && |activity| == |rows|
    && forall i | 0 <= i < |rows| ::
         rows[i].tenant == activity[i].tenant && rows[i].event == activity[i].event
             && rows[i].routingKey == activity[i].event.Type()
  }

  // ----- service and worker together -----

  lemma CommitKeepsPaired(db: Db, op: Op)
    requires Paired(db.activity, db.outbox)
    ensures Paired(After(db, op).activity, After(db, op).outbox)
  {
    hide Decide, Clashes;
  }

  /** The database the service writes and the worker polls, with the broker's side. */
  datatype System = System(db: Db, accepted: multiset<nat>, unmarked: multiset<nat>, noted: multiset<nat>) {
    function Outbox(): Queue {
      Queue(db.outbox, accepted, unmarked, noted)
    }
  }

  datatype Activity = Called(op: Op) | Polled(load: bool, ds: seq<Delivery>)

  function Proceed(s: System, a: Activity): System {
    match a
    case Called(op) => s.(db := After(s.db, op))
    case Polled(load, ds) =>
      var q := Tick(s.Outbox(), load, ds);
      System(s.db.(outbox := q.rows), q.accepted, q.unmarked, q.noted)
  }

  function RunSystem(s: System, activities: seq<Activity>): System {
    if activities == [] then s
    else Proceed(RunSystem(s, activities[..|activities| - 1]), activities[|activities| - 1])
  }

  lemma QueueGrows(q: Queue, more: seq<OutboxEvent>)
    requires Accounted(q)
    requires forall i | 0 <= i < |more| :: !more[i].published && !more[i].failed && more[i].attempts == 0
    ensures Accounted(q.(rows := q.rows + more)) && Follows(q, q.(rows := q.rows + more))
  {
  }

  lemma CallKeepsPaired(s: System, op: Op)
    requires Paired(s.db.activity, s.db.outbox) && Accounted(s.Outbox())
    ensures var s' := Proceed(s, Called(op));
            Paired(s'.db.activity, s'.db.outbox) && Accounted(s'.Outbox()) && Follows(s.Outbox(), s'.Outbox())
  {
    hide Decide, Clashes, Accounted, Paired, Follows;
    CommitKeepsPaired(s.db, op);
    assert s.db.outbox + [] == s.db.outbox;
    var more := if Apply(s.db, op).Ok? then Queued(Decide(s.db, op).value.tenant, Decide(s.db, op).value.events)
        else [];
    QueueGrows(s.Outbox(), more);
  }

  lemma PollKeepsPaired(s: System, load: bool, ds: seq<Delivery>)
    requires Paired(s.db.activity, s.db.outbox) && Accounted(s.Outbox())
    ensures var s' := Proceed(s, Polled(load, ds));
            Paired(s'.db.activity, s'.db.outbox) && Accounted(s'.Outbox()) && Follows(s.Outbox(), s'.Outbox())
  {
    DoKeepsBooks(s.Outbox(), Ticked(load, ds));
  }

  /** Main result: whatever calls and ticks are mixed, and whatever fails, the activity log and the outbox agree entry
      by entry on tenant, type, entity and payload, and the broker's books balance. */
  lemma {:induction false} LogsStayPaired(db: Db, activities: seq<Activity>)
    requires Initial(db)
    ensures var s := RunSystem(System(db, multiset{}, multiset{}, multiset{}), activities);
            Paired(s.db.activity, s.db.outbox) && Accounted(s.Outbox())
  {
    hide Accounted, Paired, Follows, Proceed;
    if activities == [] {
      StartsPaired(db);
    } else {
      var init, last := activities[..|activities| - 1], activities[|activities| - 1];
      LogsStayPaired(db, init);
      var s := RunSystem(System(db, multiset{}, multiset{}, multiset{}), init);
      match last
      case Called(op) => CallKeepsPaired(s, op);
      case Polled(load, ds) => PollKeepsPaired(s, load, ds);
    }
  }

  lemma StartsPaired(db: Db)
    requires Initial(db)
    ensures Paired(db.activity, db.outbox) && Accounted(System(db, multiset{}, multiset{}, multiset{}).Outbox())
  {
  }

  /** The worker changes delivery marks only, which no decision reads: the tables and the activity log are those of
      the calls alone. */
  lemma {:induction false} WorkerLeavesTables(s: System, activities: seq<Activity>)
    ensures var t := RunSystem(s, activities).db;
            t == Run(s.db, CallsIn(activities)).(outbox := t.outbox)
  {
    if activities == [] {
    } else {
      var init, last := activities[..|activities| - 1], activities[|activities| - 1];
      WorkerLeavesTables(s, init);
      if last.Called? {
        var before, calls := RunSystem(s, init).db, CallsIn(init);
        OutboxIsNotRead(Run(s.db, calls), before.outbox, last.op);
        assert (calls + [last.op])[..|calls|] == calls;
      }
    }
  }

  function CallsIn(activities: seq<Activity>): seq<Op> {
    if activities == [] then [] else
    var rest, last := CallsIn(activities[..|activities| - 1]), activities[|activities| - 1];
    if last.Called? then rest + [last.op] else rest
  }

  lemma OutboxIsNotRead(db: Db, outbox: seq<OutboxEvent>, op: Op)
    ensures var db' := After(db.(outbox := outbox), op); db' == After(db, op).(outbox := db'.outbox)
  {
    DecisionIgnoresOutbox(db, outbox, op);
    hide Decide;
    if Decide(db, op).Ok? {
      SameClashes(db, outbox, Decide(db, op).value);
    }
  }

  lemma SameClashes(db: Db, outbox: seq<OutboxEvent>, ch: Change)
    ensures Clashes(db.(outbox := outbox), ch) == Clashes(db, ch)
  {
    if ch.customer.Insert? {
      var t, e := ch.customer.row.tenant, ch.customer.row.externalId;
      assert CustomersByExternalId(db.(outbox := outbox), t, e) == CustomersByExternalId(db, t, e);
    }
  }

  lemma QueriesIgnoreOutbox(db: Db, outbox: seq<OutboxEvent>, tenant: Id)
    ensures var db' := db.(outbox := outbox);
            && (forall k: string :: FindChannel(db', tenant, k) == FindChannel(db, tenant, k))
            && (forall e: string :: FindCustomer(db', tenant, e) == FindCustomer(db, tenant, e))
            && (forall c: Id, h: Id ::
                 FindActiveConversation(db', tenant, c, h) == FindActiveConversation(db, tenant, c, h))
            && (forall c: Id :: FindTicketByConversation(db', tenant, c) == FindTicketByConversation(db, tenant, c))
  {
    var db' := db.(outbox := outbox);
    forall k: string ensures FindChannel(db', tenant, k) == FindChannel(db, tenant, k) {
      assert ChannelsByKey(db', tenant, k) == ChannelsByKey(db, tenant, k);
    }
    forall e: string ensures FindCustomer(db', tenant, e) == FindCustomer(db, tenant, e) {
      assert CustomersByExternalId(db', tenant, e) == CustomersByExternalId(db, tenant, e);
    }
    forall c: Id, h: Id ensures FindActiveConversation(db', tenant, c, h) == FindActiveConversation(db, tenant, c, h) {
      assert ActiveConversations(db', tenant, c, h) == ActiveConversations(db, tenant, c, h);
    }
    forall c: Id ensures FindTicketByConversation(db', tenant, c) == FindTicketByConversation(db, tenant, c) {
      assert TicketsOfConversation(db', tenant, c) == TicketsOfConversation(db, tenant, c);
    }
  }

  lemma WebhookIgnoresOutbox(db: Db, outbox: seq<OutboxEvent>, op: Op)
    requires op.Webhook?
    ensures DecideWebhook(db.(outbox := outbox), op) == DecideWebhook(db, op)
  {
    hide FindChannel, FindCustomer, FindActiveConversation;
    QueriesIgnoreOutbox(db, outbox, op.Tenant());
  }

  lemma EscalationIgnoresOutbox(db: Db, outbox: seq<OutboxEvent>, op: Op)
    requires op.Escalate?
    ensures DecideEscalate(db.(outbox := outbox), op) == DecideEscalate(db, op)
  {
    hide FindTicketByConversation, PriorityOrDefault;
    QueriesIgnoreOutbox(db, outbox, op.Tenant());
  }

  lemma DecisionIgnoresOutbox(db: Db, outbox: seq<OutboxEvent>, op: Op)
    ensures Decide(db.(outbox := outbox), op) == Decide(db, op)
  {
    hide DecideWebhook, DecideEscalate;
    match op
    case Webhook(_, _, _, _, _, _, _, _, _) => WebhookIgnoresOutbox(db, outbox, op);
    case Assign(_, _, _, _, _, _) =>
    case Reply(_, _, _, _, _, _) =>
    case Close(_, _, _, _, _) =>
    case Escalate(_, _, _, _, _, _, _, _) => EscalationIgnoresOutbox(db, outbox, op);
    case UpdateStatus(_, _, _, _, _, _) =>
  }

  // ----- the worker -----

  /** The outbox table with the broker; accepted, unmarked and noted record what happened to each event. */
  class OutboxWorker {
    var rows: seq<OutboxEvent>
    ghost var accepted: multiset<nat>
    ghost var unmarked: multiset<nat>
    ghost var noted: multiset<nat>

    ghost function State(): Queue
      reads this
    {
      Queue(rows, accepted, unmarked, noted)
    }

    method MarkOutboxPublished(i: nat)
      requires i < |rows|
      modifies this`rows
      ensures rows == old(rows)[i := old(rows)[i].(published := true, failed := false)]
    {
      rows := rows[i := rows[i].(published := true, failed := false)];
    }

    method MarkOutboxFailed(i: nat)
      requires i < |rows|
      modifies this`rows
      ensures rows == old(rows)[i := old(rows)[i].(failed := true, attempts := old(rows)[i].attempts + 1)]
    {
      rows := rows[i := rows[i].(failed := true, attempts := rows[i].attempts + 1)];
    }

    /** One event: publish, then mark. An error of either is logged and the loop goes on. */
    method Deliver(i: nat, d: Delivery)
      requires i < |rows|
      modifies this
      ensures State() == Handle(old(State()), i, d) && |rows| == |old(rows)|
    {
      if d.Refused? {
        if d.noted {
          MarkOutboxFailed(i);
          noted := noted + multiset{i};
        }
        return;
      }
      accepted := accepted + multiset{i};
      if d.Unmarked? {
        unmarked := unmarked + multiset{i};
        return;
      }
      MarkOutboxPublished(i);
    }

    /** One tick of the worker; its loop handles the loaded events in order. Books that balanced still do. */
    method RunTick(load: bool, ds: seq<Delivery>)
      modifies this
      ensures State() == Tick(old(State()), load, ds)
      ensures old(Accounted(State())) ==> Accounted(State()) && Follows(old(State()), State())
    {
      hide Accounted, Follows, Handle, Batch, Pending, Distinct;
      if old(Accounted(State())) {
        DoKeepsBooks(State(), Ticked(load, ds));
      }
      if !load { return; }
      var pending := Batch(rows, BATCH);
      var n := Min(|pending|, |ds|);
      for k := 0 to n
        invariant |rows| == |old(rows)|
        invariant State() == Handled(old(State()), pending, ds, k)
      {
        Deliver(pending[k], ds[k]);
      }
    }
  }
}
