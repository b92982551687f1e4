/** What the mutating service methods have in common: the paired event append, and what a call promises. */
module Services {
  import opened Model
  import opened Operations
  import opened Lists
  import opened CacheProtocol
  import opened CacheClient
  import opened Repository
  import opened CacheKeys
  import opened CachedService
  import opened Invariants
  import opened Tenancy
  import opened Effects

  /** The activity row, then the outbox row; the first failure ends it, and the activity row may be left alone until
      the caller rolls back. */
  method AppendDomainEvent(tx: Store, tenant: Id, event: Event) returns (r: Result<()>)
    modifies tx
    ensures Gave(r, Ok(()), old(tx.faults), tx.faults)
    ensures r.Ok? ==>
              tx.db == old(tx.db).(activity := old(tx.db).activity + Logged(tenant, [event]),
                                   outbox := old(tx.db).outbox + Queued(tenant, [event]))
    ensures r.Err? ==>
              || tx.db == old(tx.db)
              || tx.db == old(tx.db).(activity := old(tx.db).activity + Logged(tenant, [event]))
  {
    assert Logged(tenant, [event]) == [ActivityLog(tenant, event)];
    r := tx.CreateActivityLog(tenant, event);
    if r.Err? { return; }
    r := tx.CreateOutboxEvent(OutboxEvent(tenant, event, event.Type(), 0, false, false));
    assert Queued(tenant, [event]) == [OutboxEvent(tenant, event, event.Type(), 0, false, false)];
  }

  lemma TwoAppends(tenant: Id, a: Event, b: Event)
    ensures Logged(tenant, [a]) + Logged(tenant, [b]) == Logged(tenant, [a, b])
    ensures Queued(tenant, [a]) + Queued(tenant, [b]) == Queued(tenant, [a, b])
  {
  }

  lemma NothingWritten(db: Db, tenant: Id)
    ensures Written(db, Change(tenant, Keep, Keep, None, Keep, [])) == db
  {
    assert Logged(tenant, []) == [] && Queued(tenant, []) == [];
    assert db.messages + [] == db.messages && db.activity + [] == db.activity && db.outbox + [] == db.outbox;
  }

  /** The body of the transaction of a call ran on `before` and gave r; if it failed, what it left is rolled back. */
  ghost predicate Ran<T>(before: Db, after: Db, op: Op, r: Result<T>, faults: seq<bool>, faults': seq<bool>) {
    && (r.Ok? ==> Apply(before, op) == Ok(after))
    && (Healthy(faults) ==> Healthy(faults') && (r.Err? ==> Apply(before, op) == Err(r.error)))
  }

  /** All or nothing. A committed call has applied the operation and bumped its versions once each; any other call
      has changed nothing and reports an error. On a healthy database the caller is told what the operation gives. */
  ghost predicate Completed(op: Op, r: Result<Response>, committed: bool, before: Db, after: Db, faults: seq<bool>,
                            entries: map<string, Entry>, entries': map<string, Entry>)
  {
    && (if committed
        then Apply(before, op) == Ok(after) && entries' == Bumped(entries, op.Tenant(), Bumps(op))
        else after == before && entries' == entries && r.Err?)
    && (r.Ok? ==> r == Outcome(before, op))
    && (Healthy(faults) ==> r == Outcome(before, op) && (committed <==> Apply(before, op).Ok?))
  }

  /** Main result: what a service method promises its callers, told without the operation's own definition. A committed
      call has done all it should and nothing else, any other nothing at all. A successful answer shows the stored
      record. On a healthy database a call is refused exactly for the first reason against it, and with none and new
      identifiers it commits and is answered. */
  lemma CompletedIsPromised(op: Op, r: Result<Response>, committed: bool, before: Db, after: Db, faults: seq<bool>,
                            entries: map<string, Entry>, entries': map<string, Entry>)
    requires Completed(op, r, committed, before, after, faults, entries, entries') && Tables(before)
    ensures if committed then Done(before, after, op) else after == before
    ensures r.Ok? ==> committed && ShowsResult(after, op, r.value)
    ensures Healthy(faults) && Refusal(before, op).Some? ==> r == Err(Refusal(before, op).value) && !committed
    ensures Healthy(faults) && Refusal(before, op).None? && Fresh(before, op) ==> committed && r.Ok?
  {
    hide Tables, Apply, Outcome, Done, ShowsResult, Refusal, Fresh, Bumped;
    RefusedExactly(before, op);
    AnswersShowResult(before, op);
    AfterApplied(before, op);
    if committed { EffectsAreDone(before, op); }
  }

  lemma AfterApplied(db: Db, op: Op)
    ensures Apply(db, op).Ok? ==> Apply(db, op) == Ok(After(db, op))
  {
    hide Apply;
  }

  /** Whatever its fate, a call leaves the cache sound for the database. */
  lemma CompletedKeepsSound(op: Op, r: Result<Response>, committed: bool, before: Db, after: Db, faults: seq<bool>,
                            entries: map<string, Entry>, entries': map<string, Entry>)
    requires Completed(op, r, committed, before, after, faults, entries, entries') && Sound(before, entries)
    ensures Sound(after, entries')
  {
    hide Sound, Apply, Bumped, Outcome;
    if committed { CallKeepsSound(before, entries, op); }
  }

  /** A list call answered as Listing says, or it failed and at most created its version counter. */
  ghost predicate ListedAs(q: Query, r: Result<(seq<Row>, nat)>, db: Db, faults: seq<bool>, faults': seq<bool>,
                           entries: map<string, Entry>, entries': map<string, Entry>)
  {
    && (r.Ok? ==> Answered(entries', r.value.0, r.value.1) == Listing(db, entries, q))
    && (r.Err? ==> !Healthy(faults) && entries' == CurrentVersion(entries, VersionKey(q.tenant, q.Resource())).0)
    && (Healthy(faults) ==> Healthy(faults'))
  }

  /** On a sound cache the answer, cached or not, is what the database holds. */
  lemma ListedIsFresh(q: Query, r: Result<(seq<Row>, nat)>, db: Db, faults: seq<bool>, faults': seq<bool>,
                      entries: map<string, Entry>, entries': map<string, Entry>)
    requires ListedAs(q, r, db, faults, faults', entries, entries') && Sound(db, entries) && q.tenant in db.tenants
    ensures r.Ok? ==> r.value == (Page(db, q), Total(db, q))
    ensures Sound(db, entries')
  {
    hide Sound, Listing, Page, Total, VersionKey;
    if r.Ok? {
      ListingIsFresh(db, entries, q);
    } else if VersionKey(q.tenant, q.Resource()) !in entries {
      InitKeepsSound(db, entries, q);
    }
  }
}
