/** The list cache with one call at a time: every list is fresh, even when Redis starts empty. And the calls run
    this way are runs of the interleaved protocol. */
module CachedService {
  import opened Text
  import opened Model
  import opened Operations
  import opened Invariants
  import opened Lists
  import opened CacheKeys
  import opened CacheProtocol
  import opened ListCache
  import opened CacheStart
  import opened CacheClient

  datatype Answered = Answered(entries: map<string, Entry>, rows: seq<Row>, total: nat)

  /** A list call from start to end with nothing in between. */
  function Listing(db: Db, entries: map<string, Entry>, q: Query): Answered {
    var (entries', version) := CurrentVersion(entries, VersionKey(q.tenant, q.Resource()));
    var key := ListKey(q, version);
    if key in entries' && entries'[key].CachedPage? then Answered(entries', entries'[key].rows, entries'[key].total)
    else Answered(entries'[key := CachedPage(Page(db, q), Total(db, q))], Page(db, q), Total(db, q))
  }

  /** The page under the key was filled for q under a version that has begun, and is fresh if it is the current one. */
  ghost predicate FilledFor(db: Db, entries: map<string, Entry>, key: string, q: Query, version: nat)
    requires key in entries
  {
    var counter := VersionKey(q.tenant, q.Resource());
    && key == ListKey(q, version) && q.tenant in db.tenants
    && counter in entries && entries[counter].Counter? && version <= entries[counter].n
    && (version == entries[counter].n ==> entries[key] == CachedPage(Page(db, q), Total(db, q)))
  }

  ghost predicate PageFilled(db: Db, entries: map<string, Entry>, key: string)
    requires key in entries
  {
    exists q: Query, version: nat :: FilledFor(db, entries, key, q, version)
  }

  /** A database with its invariants and a cache that is coherent with it. */
  ghost predicate Sound(db: Db, entries: map<string, Entry>) {
    && Tables(db) && PlainIds(db)
    && (forall key | key in entries && entries[key].CachedPage? :: PageFilled(db, entries, key))
  }

  lemma CounterIsNoPage(db: Db, entries: map<string, Entry>, tenant: Id, resource: Resource)
    requires Sound(db, entries) && tenant in db.tenants && VersionKey(tenant, resource) in entries
    ensures entries[VersionKey(tenant, resource)].Counter?
  {
    hide Page, Total, ListKey, VersionKey, Tables;
    var key := VersionKey(tenant, resource);
    if entries[key].CachedPage? {
      assert PageFilled(db, entries, key);
      var q: Query, version: nat :| FilledFor(db, entries, key, q, version);
      VersionKeysAreApart(tenant, resource, q, version);
    }
  }

  /** A page under the current version of q's list answers q. */
  lemma HitIsFresh(db: Db, entries: map<string, Entry>, q: Query)
    requires Sound(db, entries) && q.tenant in db.tenants && VersionKey(q.tenant, q.Resource()) in entries
    ensures entries[VersionKey(q.tenant, q.Resource())].Counter?
    ensures var key := ListKey(q, entries[VersionKey(q.tenant, q.Resource())].n);
            key in entries && entries[key].CachedPage? ==> entries[key] == CachedPage(Page(db, q), Total(db, q))
  {
    hide Page, Total, ListKey, VersionKey, Tables;
    CounterIsNoPage(db, entries, q.tenant, q.Resource());
    var n := entries[VersionKey(q.tenant, q.Resource())].n;
    var key := ListKey(q, n);
    if key in entries && entries[key].CachedPage? {
      assert PageFilled(db, entries, key);
      var o: Query, version: nat :| FilledFor(db, entries, key, o, version);
      SharedKeySharesAnswer(db, q, n, o, version);
    }
  }

  /** Creating the missing counter of a list harms nothing: no page of that list can be there. */
  lemma InitKeepsSound(db: Db, entries: map<string, Entry>, q: Query)
    requires Sound(db, entries) && q.tenant in db.tenants && VersionKey(q.tenant, q.Resource()) !in entries
    ensures Sound(db, entries[VersionKey(q.tenant, q.Resource()) := Counter(1)])
    ensures ListKey(q, 1) in entries ==> !entries[ListKey(q, 1)].CachedPage?
  {
    hide Page, Total, ListKey, VersionKey, Tables;
    var counter := VersionKey(q.tenant, q.Resource());
    var entries' := entries[counter := Counter(1)];
    forall key | key in entries' && entries'[key].CachedPage? ensures PageFilled(db, entries', key) {
      assert PageFilled(db, entries, key);
      var o: Query, version: nat :| FilledFor(db, entries, key, o, version);
      assert FilledFor(db, entries', key, o, version);
    }
    if ListKey(q, 1) in entries && entries[ListKey(q, 1)].CachedPage? {
      assert PageFilled(db, entries, ListKey(q, 1));
      var o: Query, version: nat :| FilledFor(db, entries, ListKey(q, 1), o, version);
      HeadsAgree(q, 1, o, version);
    }
  }

  lemma FillKeepsSound(db: Db, entries: map<string, Entry>, q: Query, n: nat)
    requires Sound(db, entries) && q.tenant in db.tenants
    requires VersionKey(q.tenant, q.Resource()) in entries && entries[VersionKey(q.tenant, q.Resource())] == Counter(n)
    ensures Sound(db, entries[ListKey(q, n) := CachedPage(Page(db, q), Total(db, q))])
  {
    hide Page, Total, ListKey, VersionKey, Tables;
    var entries' := entries[ListKey(q, n) := CachedPage(Page(db, q), Total(db, q))];
    VersionKeysAreApart(q.tenant, q.Resource(), q, n);
    forall key | key in entries' && entries'[key].CachedPage? ensures PageFilled(db, entries', key) {
      if key == ListKey(q, n) {
        assert FilledFor(db, entries', key, q, n);
      } else {
        assert PageFilled(db, entries, key);
        var o: Query, version: nat :| FilledFor(db, entries, key, o, version);
        VersionKeysAreApart(o.tenant, o.Resource(), q, n);
        assert FilledFor(db, entries', key, o, version);
      }
    }
  }

  /** One list call on a sound cache answers like the database and leaves the cache sound. */
  lemma ListingIsFresh(db: Db, entries: map<string, Entry>, q: Query)
    requires Sound(db, entries) && q.tenant in db.tenants
    ensures var a := Listing(db, entries, q);
            a.rows == Page(db, q) && a.total == Total(db, q) && Sound(db, a.entries)
  {
    hide Page, Total, ListKey, VersionKey, Sound;
    var counter := VersionKey(q.tenant, q.Resource());
    if counter !in entries {
      InitKeepsSound(db, entries, q);
      CounterIsApart(db, entries, q);
      FillKeepsSound(db, entries[counter := Counter(1)], q, 1);
    } else {
      HitIsFresh(db, entries, q);
      FillKeepsSound(db, entries, q, entries[counter].n);
    }
  }

  lemma CounterIsApart(db: Db, entries: map<string, Entry>, q: Query)
    requires Sound(db, entries) && q.tenant in db.tenants
    ensures VersionKey(q.tenant, q.Resource()) != ListKey(q, 1)
  {
    VersionKeysAreApart(q.tenant, q.Resource(), q, 1);
  }

  // ----- mutating calls -----

  /** Bumping counts the bumped slots up by one and touches nothing else. */
  lemma BumpedCounter(entries: map<string, Entry>, op: Op, q: Query)
    requires ColonFree(op.Tenant()) && ColonFree(q.tenant)
    requires VersionKey(q.tenant, q.Resource()) in entries && entries[VersionKey(q.tenant, q.Resource())].Counter?
    ensures var key, entries' := VersionKey(q.tenant, q.Resource()), Bumped(entries, op.Tenant(), Bumps(op));
            && key in entries'
            && entries'[key]
                 == Counter(entries[key].n + if q.tenant == op.Tenant() && q.Resource() in Bumps(op) then 1 else 0)
  {
    hide VersionKey;
    var tenant := op.Tenant();
    forall r: Resource | VersionKey(tenant, r) == VersionKey(q.tenant, q.Resource())
      ensures tenant == q.tenant && r == q.Resource()
    {
      VersionKeyInjective(tenant, r, q.tenant, q.Resource());
    }
    if op.Escalate? {
      BumpedTwo(entries, tenant, Conversations, Tickets);
    } else {
      BumpedOne(entries, tenant, Bumps(op)[0]);
    }
  }

  lemma BumpedPage(entries: map<string, Entry>, op: Op, key: string)
    requires key in Bumped(entries, op.Tenant(), Bumps(op)) && Bumped(entries, op.Tenant(), Bumps(op))[key].CachedPage?
    ensures key in entries && entries[key] == Bumped(entries, op.Tenant(), Bumps(op))[key]
  {
    hide VersionKey;
    if op.Escalate? {
      BumpedTwo(entries, op.Tenant(), Conversations, Tickets);
    } else {
      BumpedOne(entries, op.Tenant(), Bumps(op)[0]);
    }
  }

  lemma StaysFilled(db: Db, entries: map<string, Entry>, op: Op, key: string, q: Query, version: nat)
    requires Tables(db) && PlainIds(db) && Apply(db, op).Ok?
    requires key in entries && FilledFor(db, entries, key, q, version)
    requires var entries' := Bumped(entries, op.Tenant(), Bumps(op)); key in entries' && entries'[key] == entries[key]
    ensures FilledFor(Apply(db, op).value, Bumped(entries, op.Tenant(), Bumps(op)), key, q, version)
  {
    hide Page, Total, ListKey, VersionKey, Tables, Apply, Bumped;
    CommitFacts(db, op);
    BumpedCounter(entries, op, q);
    if q.tenant != op.Tenant() || q.Resource() !in Bumps(op) {
      BumpsCoverChanges(db, op, q);
      assert SameList(db, Apply(db, op).value, q);
    }
  }

  /** A committed call that bumps its versions leaves the cache sound for the new database. */
  lemma CallKeepsSound(db: Db, entries: map<string, Entry>, op: Op)
    requires Sound(db, entries) && Apply(db, op).Ok?
    ensures Sound(Apply(db, op).value, Bumped(entries, op.Tenant(), Bumps(op)))
  {
    hide Tables, Apply, Bumped, Bumps, FilledFor;
    var db', entries' := Apply(db, op).value, Bumped(entries, op.Tenant(), Bumps(op));
    CommitFacts(db, op);
    forall key | key in entries' && entries'[key].CachedPage? ensures PageFilled(db', entries', key) {
      BumpedPage(entries, op, key);
      assert PageFilled(db, entries, key);
      var q: Query, version: nat :| FilledFor(db, entries, key, q, version);
      StaysFilled(db, entries, op, key, q, version);
    }
  }

  lemma ExpiryKeepsSound(db: Db, entries: map<string, Entry>, key: string)
    requires Sound(db, entries) && key in entries && entries[key].CachedPage?
    ensures Sound(db, entries - {key})
  {
    hide Tables, Page, Total, ListKey, VersionKey;
    var entries' := entries - {key};
    forall k | k in entries' && entries'[k].CachedPage? ensures PageFilled(db, entries', k) {
      assert PageFilled(db, entries, k);
      var q: Query, version: nat :| FilledFor(db, entries, k, q, version);
      assert FilledFor(db, entries', k, q, version);
    }
  }

  // ----- runs of whole calls -----

  datatype Step = Mutate(op: Op) | ListCall(q: Query) | Expiry(key: string)

  datatype Site = Site(db: Db, entries: map<string, Entry>)

  function Proceed(s: Site, step: Step): Site {
    match step
    case Mutate(op) =>
      if Apply(s.db, op).Ok? then Site(Apply(s.db, op).value, Bumped(s.entries, op.Tenant(), Bumps(op))) else s
    case ListCall(q) => if q.tenant in s.db.tenants then s.(entries := Listing(s.db, s.entries, q).entries) else s
    case Expiry(key) => if key in s.entries && s.entries[key].CachedPage? then s.(entries := s.entries - {key}) else s
  }

  function RunSite(s: Site, steps: seq<Step>): Site {
    if steps == [] then s else Proceed(RunSite(s, steps[..|steps| - 1]), steps[|steps| - 1])
  }

  lemma ProceedKeepsSound(s: Site, step: Step)
    requires Sound(s.db, s.entries)
    ensures Sound(Proceed(s, step).db, Proceed(s, step).entries) && Proceed(s, step).db.tenants == s.db.tenants
  {
    hide Sound, Apply, Bumped, Listing;
    match step
    case Mutate(op) =>
      if Apply(s.db, op).Ok? {
        CallKeepsSound(s.db, s.entries, op);
        SoundCommitFacts(s.db, s.entries, op);
      }
    case ListCall(q) => if q.tenant in s.db.tenants { ListingIsFresh(s.db, s.entries, q); }
    case Expiry(key) => if key in s.entries && s.entries[key].CachedPage? { ExpiryKeepsSound(s.db, s.entries, key); }
  }

  lemma SoundCommitFacts(db: Db, entries: map<string, Entry>, op: Op)
    requires Sound(db, entries) && Apply(db, op).Ok?
    ensures Apply(db, op).value.tenants == db.tenants
  {
    hide Tables, Apply;
    CommitFacts(db, op);
  }

  /** Main result: with whole calls one after another, from an empty deployment and an empty Redis, every list call
      answers exactly what the database holds, however pages expire; no counter needs to exist beforehand. */
  lemma {:induction false} SequentialListsAreFresh(db: Db, steps: seq<Step>, q: Query)
    requires Initial(db) && q.tenant in db.tenants
    ensures var s := RunSite(Site(db, map[]), steps);
            var a := Listing(s.db, s.entries, q);
            Sound(s.db, s.entries) && a.rows == Page(s.db, q) && a.total == Total(s.db, q)
  {
    hide Page, Total, Listing;
    RunKeepsSound(db, steps);
    ListingIsFresh(RunSite(Site(db, map[]), steps).db, RunSite(Site(db, map[]), steps).entries, q);
  }

  lemma {:induction false} RunKeepsSound(db: Db, steps: seq<Step>)
    requires Initial(db)
    ensures var s := RunSite(Site(db, map[]), steps);
            Sound(s.db, s.entries) && s.db.tenants == db.tenants
  {
    hide Proceed;
    if steps == [] {
    } else {
      RunKeepsSound(db, steps[..|steps| - 1]);
      ProceedKeepsSound(RunSite(Site(db, map[]), steps[..|steps| - 1]), steps[|steps| - 1]);
    }
  }

  // ----- the whole calls are runs of the interleaved protocol -----

  lemma StepRead(s: State, p: nat, q: Query, more: seq<Action>)
    requires s.history != [] && p !in s.processes && q.tenant in s.Current().tenants
               && IsCounter(s, CounterKey(SlotOf(q)))
    ensures Interleave(s, [ReadVersion(p, q)] + more)
         == Interleave(Moved(s, p, Versioned(q, s.redis[CounterKey(SlotOf(q))].n, Floor(s, SlotOf(q)))), more)
  {
    hide Interleave, Page, Total, ListKey, VersionKey, Apply;
    InterleaveFront(s, ReadVersion(p, q), more);
  }

  lemma StepHit(s: State, p: nat, q: Query, version: nat, floor: nat, more: seq<Action>)
    requires s.history != [] && p in s.processes && s.processes[p] == Versioned(q, version, floor)
    requires IsPage(s, ListKey(q, version)) && ListKey(q, version) in s.origins
    ensures Interleave(s, [Probe(p)] + more) == Interleave(DoProbe(s, p, q, version, floor), more)
  {
    hide Interleave, Page, Total, ListKey, VersionKey, Apply;
    InterleaveFront(s, Probe(p), more);
  }

  /** State t is s after call p has listed: the answer and the Redis entries are those of the whole call. */
  ghost predicate ListedLike(s: State, t: State, p: nat, q: Query)
    requires s.history != []
  {
    var a := Listing(s.Current(), s.redis, q);
    && t.history == s.history && t.redis == a.entries
    && p in t.processes && t.processes[p].Listed? && t.processes[p].rows == a.rows && t.processes[p].total == a.total
  }

  /** The protocol steps of a list call that found its version, run without interruption. */
  lemma ProbeRuns(s: State, p: nat, q: Query, version: nat, floor: nat) returns (actions: seq<Action>)
    requires s.history != [] && p in s.processes && s.processes[p] == Versioned(q, version, floor)
    requires forall key | IsPage(s, key) :: key in s.origins
    ensures var t, key := Interleave(s, actions), ListKey(q, version);
            && t.history == s.history && p in t.processes && t.processes[p].Listed?
            && if IsPage(s, key)
               then t.redis == s.redis && t.processes[p].rows == s.redis[key].rows
                   && t.processes[p].total == s.redis[key].total
               else t.redis == s.redis[key := CachedPage(Page(s.Current(), q), Total(s.Current(), q))]
                    && t.processes[p].rows == Page(s.Current(), q) && t.processes[p].total == Total(s.Current(), q)
  {
    hide Interleave, Next, Page, Total, ListKey, VersionKey, Apply;
    if IsPage(s, ListKey(q, version)) {
      actions := [Probe(p)] + [];
      StepHit(s, p, q, version, floor, []);
      Finished(DoProbe(s, p, q, version, floor));
    } else {
      actions := [Probe(p)] + Filling(p);
      StepMiss(s, p, q, version, floor, Filling(p));
      FillingFills(Moved(s, p, Missed(q, version, floor)), p, q, version, floor);
    }
  }

  /** Main result: a list call run without interruption is a run of the protocol in ListCache. */
  lemma ListingRefines(s: State, p: nat, q: Query) returns (actions: seq<Action>)
    requires s.history != [] && p !in s.processes && q.tenant in s.Current().tenants
    requires forall key | IsPage(s, key) :: key in s.origins
    requires CounterKey(SlotOf(q)) in s.redis ==> IsCounter(s, CounterKey(SlotOf(q)))
    ensures ListedLike(s, Interleave(s, actions), p, q)
  {
    hide Interleave, Page, Total, ListKey, VersionKey, Apply;
    var floor := Floor(s, SlotOf(q));
    if CounterKey(SlotOf(q)) in s.redis {
      var s1 := Moved(s, p, Versioned(q, s.redis[CounterKey(SlotOf(q))].n, floor));
      var rest := ProbeRuns(s1, p, q, s.redis[CounterKey(SlotOf(q))].n, floor);
      actions := [ReadVersion(p, q)] + rest;
      StepRead(s, p, q, rest);
    } else {
      var s1 := Moved(s, p, VersionMissing(q, floor));
      var s2 := DoInitVersion(s1, p, q, floor);
      var rest := ProbeRuns(s2, p, q, 1, floor);
      actions := [ReadVersion(p, q)] + ([InitVersion(p)] + rest);
      StepReadMissing(s, p, q, [InitVersion(p)] + rest);
      StepInit(s1, p, q, floor, rest);
    }
  }

  /** Main result: a mutating call run without interruption is a run of the protocol. */
  lemma MutationRefines(s: State, p: nat, op: Op)
    requires s.history != [] && p !in s.processes && Apply(s.Current(), op).Ok?
    ensures var t := Interleave(s, Writing(p, op));
            && t.history == s.history + [Apply(s.Current(), op).value]
            && t.redis == Bumped(s.redis, op.Tenant(), Bumps(op))
            && t.processes == s.processes[p := Returned(op, |s.history|)]
  {
    hide Interleave, Apply, VersionKey, Incremented;
    WritingReturns(s, p, op);
    if op.Escalate? {
      BumpedTwo(s.redis, op.Tenant(), Conversations, Tickets);
      assert Bumps(op)[1..] == [Tickets];
    } else {
      BumpedOne(s.redis, op.Tenant(), Bumps(op)[0]);
    }
  }
}
