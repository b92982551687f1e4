/** The list cache is coherent, and shows returned writes, in every interleaving in which the list's version counter
    exists at the start. Everything is stated for one list's slot; the counters of other slots may be missing. */
module ListCache {
  import opened Text
  import opened Model
  import opened Operations
  import opened Invariants
  import opened Lists
  import opened CacheKeys
  import opened CacheProtocol

  // ----- facts about commits and keys -----

  /** A call that commits is for a configured tenant. */
  lemma CommitsForTenant(db: Db, op: Op)
    requires Tables(db) && Decide(db, op).Ok?
    ensures op.Tenant() in db.tenants
  {
    hide OneActive, Ownership, TrimSpace, IsAgent;
    if op.UpdateStatus? {
      assert TicketInTenant(db, op.ticket);
      assert ConversationInTenant(db, db.tickets[op.ticket].conversation);
    } else if op.Webhook? {
      WebhookIsIntake(db, op);
    } else {
      assert ConversationInTenant(db, op.conversation);
    }
  }

  lemma CommitFacts(db: Db, op: Op)
    requires Tables(db) && PlainIds(db) && Apply(db, op).Ok?
    ensures op.Tenant() in db.tenants
    ensures Tables(Apply(db, op).value) && PlainIds(Apply(db, op).value) && Apply(db, op).value.tenants == db.tenants
  {
    hide Tables, Decide, Clashes;
    CommitsForTenant(db, op);
    KeepsTables(db, op);
  }

  ghost predicate Consistent(db: Db) {
    Tables(db) && PlainIds(db)
  }

  ghost predicate HistoryOk(s: State) {
    && s.history != []
    && forall i | 0 <= i < |s.history| :: Consistent(s.history[i]) && s.history[i].tenants == s.history[0].tenants
  }

  predicate Known(s: State, tenant: Id)
    requires s.history != []
  {
    tenant in s.history[0].tenants
  }

  lemma KnownIsPlain(s: State, tenant: Id)
    requires HistoryOk(s) && Known(s, tenant)
    ensures ColonFree(tenant)
  {
    hide Tables;
    assert Consistent(s.history[0]);
  }

  // ----- what calls hold was read from the history -----

  /** The total and rows are what the statements gave on the databases of those commits. */
  predicate Shows(s: State, q: Query, total: nat, rows: seq<Row>, t: Times) {
    && t.counted < |s.history| && total == Total(s.history[t.counted], q)
    && t.fetched < |s.history| && t.preloaded < |s.history|
    && rows == Preloaded(s.history[t.preloaded], BarePage(s.history[t.fetched], q))
  }

  predicate ProcessReads(s: State, process: Process)
    requires s.history != []
  {
    match process
    case VersionMissing(q, _) => Known(s, q.tenant)
    case Versioned(q, _, _) => Known(s, q.tenant)
    case Missed(q, _, _) => Known(s, q.tenant)
    case Counted(q, _, _, total, counted) =>
      Known(s, q.tenant) && counted < |s.history| && total == Total(s.history[counted], q)
    case Fetched(q, _, _, total, counted, rows, fetched) =>
      && Known(s, q.tenant) && counted < |s.history| && total == Total(s.history[counted], q)
      && fetched < |s.history| && rows == BarePage(s.history[fetched], q)
    case Complete(q, _, _, total, rows, times) => Known(s, q.tenant) && Shows(s, q, total, rows, times)
    case Listed(q, _, total, rows, times) => Known(s, q.tenant) && Shows(s, q, total, rows, times)
    case Committed(op, at, left) => IsCommit(s, op, at) && (left == Bumps(op) || left == Bumps(op)[1..] || left == [])
    case Returned(op, at) => IsCommit(s, op, at)
  }

  /** Commit `at` is what the call made of the commit before it. */
  predicate IsCommit(s: State, op: Op, at: nat)
    requires s.history != []
  {
    Known(s, op.Tenant()) && 0 < at < |s.history| && Apply(s.history[at - 1], op) == Ok(s.history[at])
  }

  predicate PageReads(s: State, key: string)
    requires s.history != [] && IsPage(s, key)
  {
    && key in s.origins
    && var o := s.origins[key];
    key == ListKey(o.q, o.version) && Known(s, o.q.tenant)
        && Shows(s, o.q, s.redis[key].total, s.redis[key].rows, o.times)
  }

  ghost predicate Reads(s: State) {
    && HistoryOk(s)
    && (forall key | IsPage(s, key) :: PageReads(s, key))
    && (forall p | p in s.processes :: ProcessReads(s, s.processes[p]))
  }

  lemma ReadsStay(s: State, s': State, process: Process)
    requires s.history != [] && s.history <= s'.history && ProcessReads(s, process)
    ensures ProcessReads(s', process)
  {
    hide Page, BarePage, Preloaded, Total, Apply, Tables;
  }

  /** A step of process p that adds no page. */
  lemma ReadsByMove(s: State, s': State, p: nat, process: Process)
    requires Reads(s) && HistoryOk(s') && s.history <= s'.history && ProcessReads(s', process)
    requires s'.processes == s.processes[p := process] && s'.origins == s.origins
    requires forall key | IsPage(s', key) :: IsPage(s, key) && s'.redis[key] == s.redis[key]
    ensures Reads(s')
  {
    hide Page, BarePage, Preloaded, Total, ListKey, VersionKey, Apply, Consistent;
    forall key | IsPage(s', key) ensures PageReads(s', key) {
      assert PageReads(s, key);
    }
    forall x | x in s'.processes ensures ProcessReads(s', s'.processes[x]) {
      if x != p { ReadsStay(s, s', s.processes[x]); }
    }
  }

  /** A page found under the key answers the request, whichever request filled it. */
  lemma SharedPageAnswers(s: State, q: Query, version: nat)
    requires Reads(s) && Known(s, q.tenant) && IsPage(s, ListKey(q, version))
    ensures var key := ListKey(q, version);
            && key in s.origins
            && Shows(s, q, s.redis[key].total, s.redis[key].rows, s.origins[key].times)
            && SlotOf(s.origins[key].q) == SlotOf(q) && s.origins[key].version == version
  {
    hide Page, Preloaded, Total, ListKey, VersionKey, Apply, Tables, PlainIds, Bare;
    var key := ListKey(q, version);
    assert PageReads(s, key);
    var o := s.origins[key];
    KnownIsPlain(s, q.tenant);
    KnownIsPlain(s, o.q.tenant);
    assert Consistent(s.history[o.times.counted]) && Consistent(s.history[o.times.fetched]);
    SharedKeySharesAnswer(s.history[o.times.counted], o.q, o.version, q, version);
    SharedKeySharesAnswer(s.history[o.times.fetched], o.q, o.version, q, version);
  }

  lemma ReadsByProbe(s: State, p: nat)
    requires Reads(s) && Enabled(s, Probe(p))
    ensures Reads(Next(s, Probe(p)))
  {
    hide Page, BarePage, Preloaded, Total, ListKey, VersionKey, Apply, Consistent;
    var c := s.processes[p];
    assert ProcessReads(s, c);
    var key, s' := ListKey(c.q, c.version), Next(s, Probe(p));
    if IsPage(s, key) {
      SharedPageAnswers(s, c.q, c.version);
    }
    ReadsByMove(s, s', p, s'.processes[p]);
  }

  lemma ReadsByCount(s: State, p: nat)
    requires Reads(s) && p in s.processes && s.processes[p].Missed?
    ensures Reads(DoCount(s, p, s.processes[p]))
  {
    hide Page, BarePage, Preloaded, Total, ListKey, VersionKey, Apply, Consistent;
    var s' := DoCount(s, p, s.processes[p]);
    assert ProcessReads(s, s.processes[p]);
    ReadsByMove(s, s', p, s'.processes[p]);
  }

  lemma ReadsByFetch(s: State, p: nat)
    requires Reads(s) && p in s.processes && s.processes[p].Counted?
    ensures Reads(DoFetch(s, p, s.processes[p]))
  {
    hide Page, BarePage, Preloaded, Total, ListKey, VersionKey, Apply, Consistent;
    var s' := DoFetch(s, p, s.processes[p]);
    assert ProcessReads(s, s.processes[p]);
    ReadsByMove(s, s', p, s'.processes[p]);
  }

  lemma ReadsByPreload(s: State, p: nat)
    requires Reads(s) && p in s.processes && s.processes[p].Fetched?
    ensures Reads(DoPreload(s, p, s.processes[p]))
  {
    hide Page, BarePage, Preloaded, Total, ListKey, VersionKey, Apply, Consistent;
    var s' := DoPreload(s, p, s.processes[p]);
    assert ProcessReads(s, s.processes[p]);
    ReadsByMove(s, s', p, s'.processes[p]);
  }

  lemma ReadsByFill(s: State, p: nat)
    requires Reads(s) && Enabled(s, Fill(p))
    ensures Reads(Next(s, Fill(p)))
  {
    hide Page, BarePage, Preloaded, Total, ListKey, VersionKey, Apply, Consistent;
    var c, s' := s.processes[p], Next(s, Fill(p));
    assert ProcessReads(s, c);
    forall key | IsPage(s', key) ensures PageReads(s', key) {
      if key != ListKey(c.q, c.version) { assert PageReads(s, key); }
    }
    forall x | x in s'.processes ensures ProcessReads(s', s'.processes[x]) {
      if x != p { ReadsStay(s, s', s.processes[x]); }
    }
  }

  lemma ReadsByCommit(s: State, p: nat, op: Op)
    requires Reads(s) && Apply(s.Current(), op).Ok?
    ensures Reads(DoCommit(s, p, op))
    ensures op.Tenant() in s.history[0].tenants
  {
    hide Page, BarePage, Preloaded, Total, ListKey, VersionKey, Apply, Tables, PlainIds;
    assert Consistent(s.Current());
    CommitFacts(s.Current(), op);
    ReadsByMove(s, DoCommit(s, p, op), p, Committed(op, |s.history|, Bumps(op)));
  }

  lemma ReadsByBump(s: State, p: nat, op: Op, at: nat, left: seq<Resource>)
    requires Reads(s) && p in s.processes && s.processes[p] == Committed(op, at, left) && left != []
    ensures Reads(DoBump(s, p, op, at, left))
  {
    hide Page, BarePage, Preloaded, Total, ListKey, VersionKey, Apply, Consistent;
    assert ProcessReads(s, s.processes[p]);
    BumpAddsNoPage(s, CounterKey(Slot(op.Tenant(), left[0])));
    hide Incremented;
    ReadsByMove(s, DoBump(s, p, op, at, left), p, Committed(op, at, left[1..]));
  }

  lemma ReadsByReadVersion(s: State, p: nat, q: Query)
    requires Reads(s) && Enabled(s, ReadVersion(p, q))
    ensures Reads(DoReadVersion(s, p, q))
  {
    hide Page, BarePage, Preloaded, Total, ListKey, VersionKey, Apply, Consistent;
    var s' := DoReadVersion(s, p, q);
    ReadsByMove(s, s', p, s'.processes[p]);
  }

  lemma ReadsByInit(s: State, p: nat)
    requires Reads(s) && Enabled(s, InitVersion(p))
    ensures Reads(Next(s, InitVersion(p)))
  {
    hide Page, BarePage, Preloaded, Total, ListKey, VersionKey, Apply, Consistent;
    assert ProcessReads(s, s.processes[p]);
    ReadsByMove(s, Next(s, InitVersion(p)), p, Next(s, InitVersion(p)).processes[p]);
  }

  lemma ReadsByReturn(s: State, p: nat)
    requires Reads(s) && Enabled(s, Return(p))
    ensures Reads(Next(s, Return(p)))
  {
    hide Page, BarePage, Preloaded, Total, ListKey, VersionKey, Apply, Consistent;
    assert ProcessReads(s, s.processes[p]);
    ReadsByMove(s, Next(s, Return(p)), p, Next(s, Return(p)).processes[p]);
  }

  /** Every step of every list and mutating call keeps what calls and pages hold true to the history. */
  lemma NextKeepsReads(s: State, a: Action)
    requires Reads(s)
    ensures Reads(Next(s, a))
  {
    hide Reads, Apply, DoCount, DoFetch, DoPreload, DoFill, DoProbe, DoBump, DoReturn, DoReadVersion, DoInitVersion;
    if Enabled(s, a) {
      match a
      case ReadVersion(p, q) => ReadsByReadVersion(s, p, q);
      case InitVersion(p) => ReadsByInit(s, p);
      case Probe(p) => ReadsByProbe(s, p);
      case Count(p) => ReadsByCount(s, p);
      case Fetch(p) => ReadsByFetch(s, p);
      case Preload(p) => ReadsByPreload(s, p);
      case Fill(p) => ReadsByFill(s, p);
      case Expire(key) => ReadsByExpire(s, key);
      case CommitOp(p, op) => ReadsByCommit(s, p, op);
      case Bump(p) => ReadsByBump(s, p, s.processes[p].op, s.processes[p].at, s.processes[p].left);
      case Return(p) => ReadsByReturn(s, p);
    }
  }

  lemma ReadsByExpire(s: State, key: string)
    requires Reads(s)
    ensures Reads(s.(redis := s.redis - {key}))
  {
    hide Page, BarePage, Preloaded, Total, ListKey, VersionKey, Apply, Consistent;
    var s' := s.(redis := s.redis - {key});
    forall k | IsPage(s', k) ensures PageReads(s', k) {
      assert PageReads(s, k);
    }
    forall x | x in s'.processes ensures ProcessReads(s', s'.processes[x]) {
      ReadsStay(s, s', s.processes[x]);
    }
  }

  // ----- when it was read, for the lists of slot k -----

  /** The commit current when the version began; versions that were there at the start began with it. */
  function Since(s: State, k: Slot, version: nat): nat {
    if Epoch(k, version) in s.since then s.since[Epoch(k, version)] else 0
  }

  predicate HasCounter(s: State, k: Slot) {
    IsCounter(s, CounterKey(k))
  }

  function Version(s: State, k: Slot): nat
    requires HasCounter(s, k)
  {
    s.redis[CounterKey(k)].n
  }

  /** The commit current when the slot's present version began. */
  function Began(s: State, k: Slot): nat
    requires HasCounter(s, k)
  {
    Since(s, k, Version(s, k))
  }

  predicate NotBefore(t: Times, from: nat) {
    from <= t.counted && from <= t.fetched && from <= t.preloaded
  }

  predicate BumpsSlot(op: Op, k: Slot) {
    op.Tenant() == k.tenant && k.resource in Bumps(op)
  }

  /** A list call works under a version that began no earlier than its floor. */
  predicate ReaderTimely(s: State, q: Query, version: nat, floor: nat, k: Slot)
    requires HasCounter(s, k)
  {
    SlotOf(q) == k ==> version <= Version(s, k) && floor <= Since(s, k, version)
  }

  predicate ProcessTimely(s: State, process: Process, k: Slot)
    requires HasCounter(s, k)
  {
    match process
    case VersionMissing(q, _) => SlotOf(q) != k
    case Versioned(q, v, floor) => ReaderTimely(s, q, v, floor, k)
    case Missed(q, v, floor) => ReaderTimely(s, q, v, floor, k)
    case Counted(q, v, floor, _, counted) =>
      ReaderTimely(s, q, v, floor, k) && (SlotOf(q) == k ==> Since(s, k, v) <= counted)
    case Fetched(q, v, floor, _, counted, _, fetched) =>
      ReaderTimely(s, q, v, floor, k) && (SlotOf(q) == k ==> Since(s, k, v) <= counted && Since(s, k, v) <= fetched)
    case Complete(q, v, floor, _, _, times) =>
      ReaderTimely(s, q, v, floor, k) && (SlotOf(q) == k ==> NotBefore(times, Since(s, k, v)))
    case Listed(q, floor, _, _, times) => SlotOf(q) == k ==> NotBefore(times, floor)
    case Committed(op, at, left) => BumpsSlot(op, k) && k.resource !in left ==> at <= Began(s, k)
    case Returned(op, at) => BumpsSlot(op, k) ==> at <= Floor(s, k)
  }

  predicate PageTimely(s: State, key: string, k: Slot)
    requires HasCounter(s, k)
  {
    key in s.origins && SlotOf(s.origins[key].q) == k ==>
      var o := s.origins[key]; o.version <= Version(s, k) && NotBefore(o.times, Since(s, k, o.version))
  }

  ghost predicate EpochsTimely(s: State, k: Slot)
    requires HasCounter(s, k)
  {
    forall e | e in s.since && e.slot == k :: e.version <= Version(s, k) && s.since[e] < |s.history|
  }

  ghost predicate Timely(s: State, k: Slot) {
    && s.history != [] && HasCounter(s, k) && EpochsTimely(s, k) && Floor(s, k) <= Began(s, k)
    && (forall key | IsPage(s, key) :: PageTimely(s, key, k))
    && (forall p | p in s.processes :: ProcessTimely(s, s.processes[p], k))
  }

  /** Versions only go up, and what began stays begun. */
  ghost predicate Onward(s: State, s': State, k: Slot) {
    && |s.history| <= |s'.history| && HasCounter(s, k) && HasCounter(s', k) && EpochsTimely(s', k)
    && Version(s, k) <= Version(s', k) && (forall v: nat | v <= Version(s, k) :: Since(s', k, v) == Since(s, k, v))
    && Began(s, k) <= Began(s', k) && Floor(s, k) <= Floor(s', k) <= Began(s', k)
  }

  lemma TimelyStays(s: State, s': State, process: Process, k: Slot)
    requires Onward(s, s', k) && ProcessTimely(s, process, k)
    ensures ProcessTimely(s', process, k)
  {
    hide VersionKey, Bumps;
  }

  lemma PageTimelyStays(s: State, s': State, key: string, k: Slot)
    requires Onward(s, s', k) && PageTimely(s, key, k) && key in s.origins
    requires key in s'.origins && s'.origins[key] == s.origins[key]
    ensures PageTimely(s', key, k)
  {
    hide VersionKey;
  }

  /** A step of process p; a page that is new, or has a new origin, must be timely itself. */
  lemma TimelyByMove(s: State, s': State, p: nat, process: Process, k: Slot)
    requires Reads(s) && Timely(s, k) && Onward(s, s', k) && s'.history != [] && ProcessTimely(s', process, k)
    requires s'.processes == s.processes[p := process]
    requires forall key | IsPage(s', key) ::
               (IsPage(s, key) && key in s'.origins && key in s.origins && s'.origins[key] == s.origins[key])
                   || PageTimely(s', key, k)
    ensures Timely(s', k)
  {
    hide Onward, ProcessTimely, PageTimely, ProcessReads, PageReads, HistoryOk, ListKey, VersionKey;
    OnwardFacts(s, s', k);
    forall key | IsPage(s', key) ensures PageTimely(s', key, k) {
      if !PageTimely(s', key, k) { PageTimelyStays(s, s', key, k); }
    }
    forall x | x in s'.processes ensures ProcessTimely(s', s'.processes[x], k) {
      if x != p { TimelyStays(s, s', s.processes[x], k); }
    }
  }

  lemma OnwardFacts(s: State, s': State, k: Slot)
    requires Onward(s, s', k)
    ensures HasCounter(s', k) && EpochsTimely(s', k) && Floor(s', k) <= Began(s', k)
  {
  }

  lemma OnwardSame(s: State, s': State, k: Slot)
    requires Timely(s, k) && |s.history| <= |s'.history| && s'.since == s.since && s'.returned == s.returned
    requires HasCounter(s', k) && Version(s', k) == Version(s, k)
    ensures Onward(s, s', k)
  {
    hide ListKey, VersionKey, ProcessTimely, PageTimely;
  }

  lemma OriginsThere(s: State)
    requires Reads(s)
    ensures forall key | IsPage(s, key) :: key in s.origins
  {
    hide HistoryOk, ProcessReads, Page, BarePage, Preloaded, Total, ListKey, VersionKey;
    forall key | IsPage(s, key) ensures key in s.origins { assert PageReads(s, key); }
  }

  // ----- the keys of slot k are its own -----

  lemma CountersApart(s: State, k: Slot, other: Slot)
    requires HistoryOk(s) && Known(s, k.tenant) && Known(s, other.tenant) && other != k
    ensures CounterKey(other) != CounterKey(k)
  {
    hide VersionKey;
    KnownIsPlain(s, k.tenant);
    KnownIsPlain(s, other.tenant);
    if CounterKey(other) == CounterKey(k) {
      VersionKeyInjective(other.tenant, other.resource, k.tenant, k.resource);
    }
  }

  lemma PageApart(s: State, k: Slot, q: Query, version: nat)
    requires HistoryOk(s) && Known(s, k.tenant) && Known(s, q.tenant)
    ensures ListKey(q, version) != CounterKey(k)
  {
    KnownIsPlain(s, k.tenant);
    KnownIsPlain(s, q.tenant);
    VersionKeysAreApart(k.tenant, k.resource, q, version);
  }

  // ----- every step is timely -----

  lemma TimelyByReadVersion(s: State, p: nat, q: Query, k: Slot)
    requires Reads(s) && Timely(s, k) && Enabled(s, ReadVersion(p, q))
    ensures Timely(DoReadVersion(s, p, q), k)
    ensures HasCounter(DoReadVersion(s, p, q), k) && Began(DoReadVersion(s, p, q), k) == Began(s, k)
  {
    hide Page, BarePage, Preloaded, Total, ListKey, VersionKey, Apply, HistoryOk, ProcessReads, PageReads;
    var s' := DoReadVersion(s, p, q);
    OriginsThere(s);
    OnwardSame(s, s', k);
    TimelyByMove(s, s', p, s'.processes[p], k);
  }

  lemma TimelyByInit(s: State, p: nat, k: Slot)
    requires Reads(s) && Timely(s, k) && Enabled(s, InitVersion(p)) && Known(s, k.tenant)
    ensures Timely(Next(s, InitVersion(p)), k)
    ensures HasCounter(Next(s, InitVersion(p)), k) && Began(Next(s, InitVersion(p)), k) == Began(s, k)
  {
    hide Page, BarePage, Preloaded, Total, ListKey, VersionKey, Apply, HistoryOk, PageReads;
    var c, s' := s.processes[p], Next(s, InitVersion(p));
    assert ProcessReads(s, c) && ProcessTimely(s, c, k);
    CountersApart(s, k, SlotOf(c.q));
    OriginsThere(s);
    assert Onward(s, s', k);
    TimelyByMove(s, s', p, s'.processes[p], k);
  }

  lemma TimelyByProbe(s: State, p: nat, k: Slot)
    requires Reads(s) && Timely(s, k) && Enabled(s, Probe(p))
    ensures Timely(Next(s, Probe(p)), k)
    ensures HasCounter(Next(s, Probe(p)), k) && Began(Next(s, Probe(p)), k) == Began(s, k)
  {
    hide Page, BarePage, Preloaded, Total, ListKey, VersionKey, Apply, HistoryOk, PageReads, Shows;
    var c, s' := s.processes[p], Next(s, Probe(p));
    assert ProcessReads(s, c) && ProcessTimely(s, c, k);
    var key := ListKey(c.q, c.version);
    if IsPage(s, key) {
      SharedPageAnswers(s, c.q, c.version);
      assert PageTimely(s, key, k);
    }
    OriginsThere(s);
    OnwardSame(s, s', k);
    TimelyByMove(s, s', p, s'.processes[p], k);
  }

  lemma TimelyByCount(s: State, p: nat, k: Slot)
    requires Reads(s) && Timely(s, k) && p in s.processes && s.processes[p].Missed?
    ensures Timely(DoCount(s, p, s.processes[p]), k) && Began(DoCount(s, p, s.processes[p]), k) == Began(s, k)
  {
    hide Page, BarePage, Preloaded, Total, ListKey, VersionKey, Apply, HistoryOk, ProcessReads, PageReads, PageTimely;
    var c, s' := s.processes[p], DoCount(s, p, s.processes[p]);
    assert ProcessTimely(s, c, k);
    OriginsThere(s);
    OnwardSame(s, s', k);
    TimelyByMove(s, s', p, s'.processes[p], k);
  }

  lemma TimelyByFetch(s: State, p: nat, k: Slot)
    requires Reads(s) && Timely(s, k) && p in s.processes && s.processes[p].Counted?
    ensures Timely(DoFetch(s, p, s.processes[p]), k) && Began(DoFetch(s, p, s.processes[p]), k) == Began(s, k)
  {
    hide Page, BarePage, Preloaded, Total, ListKey, VersionKey, Apply, HistoryOk, ProcessReads, PageReads, PageTimely;
    var c, s' := s.processes[p], DoFetch(s, p, s.processes[p]);
    assert ProcessTimely(s, c, k);
    OriginsThere(s);
    OnwardSame(s, s', k);
    TimelyByMove(s, s', p, s'.processes[p], k);
  }

  lemma TimelyByPreload(s: State, p: nat, k: Slot)
    requires Reads(s) && Timely(s, k) && p in s.processes && s.processes[p].Fetched?
    ensures Timely(DoPreload(s, p, s.processes[p]), k) && Began(DoPreload(s, p, s.processes[p]), k) == Began(s, k)
  {
    hide Page, BarePage, Preloaded, Total, ListKey, VersionKey, Apply, HistoryOk, ProcessReads, PageReads, PageTimely;
    var c, s' := s.processes[p], DoPreload(s, p, s.processes[p]);
    assert ProcessTimely(s, c, k);
    OriginsThere(s);
    OnwardSame(s, s', k);
    TimelyByMove(s, s', p, s'.processes[p], k);
  }

  lemma TimelyByFill(s: State, p: nat, k: Slot)
    requires Reads(s) && Timely(s, k) && Enabled(s, Fill(p)) && Known(s, k.tenant)
    ensures Timely(Next(s, Fill(p)), k)
    ensures HasCounter(Next(s, Fill(p)), k) && Began(Next(s, Fill(p)), k) == Began(s, k)
  {
    hide Page, BarePage, Preloaded, Total, ListKey, VersionKey, Apply, HistoryOk, PageReads, Shows;
    var c, s' := s.processes[p], Next(s, Fill(p));
    assert ProcessReads(s, c) && ProcessTimely(s, c, k);
    PageApart(s, k, c.q, c.version);
    OriginsThere(s);
    OnwardSame(s, s', k);
    TimelyByMove(s, s', p, s'.processes[p], k);
  }

  lemma TimelyByExpire(s: State, key: string, k: Slot)
    requires Reads(s) && Timely(s, k) && Enabled(s, Expire(key))
    ensures Timely(Next(s, Expire(key)), k)
    ensures HasCounter(Next(s, Expire(key)), k) && Began(Next(s, Expire(key)), k) == Began(s, k)
  {
    hide Page, BarePage, Preloaded, Total, ListKey, VersionKey, Apply, HistoryOk, ProcessReads, PageReads;
    var s' := Next(s, Expire(key));
    OriginsThere(s);
    OnwardSame(s, s', k);
    forall x | x in s'.processes ensures ProcessTimely(s', s'.processes[x], k) {
      TimelyStays(s, s', s.processes[x], k);
    }
    forall x | IsPage(s', x) ensures PageTimely(s', x, k) {
      PageTimelyStays(s, s', x, k);
    }
  }

  lemma TimelyByCommit(s: State, p: nat, op: Op, k: Slot)
    requires Reads(s) && Timely(s, k) && Apply(s.Current(), op).Ok?
    ensures Timely(DoCommit(s, p, op), k)
    ensures HasCounter(DoCommit(s, p, op), k) && Began(DoCommit(s, p, op), k) == Began(s, k)
  {
    hide Page, BarePage, Preloaded, Total, ListKey, VersionKey, Apply, HistoryOk, ProcessReads, PageReads, Bumps;
    var s' := DoCommit(s, p, op);
    OriginsThere(s);
    OnwardSame(s, s', k);
    TimelyByMove(s, s', p, s'.processes[p], k);
  }

  lemma BumpIsOnward(s: State, p: nat, op: Op, at: nat, left: seq<Resource>, k: Slot)
    requires Reads(s) && Timely(s, k) && p in s.processes && s.processes[p] == Committed(op, at, left) && left != []
    requires Known(s, k.tenant)
    ensures Onward(s, DoBump(s, p, op, at, left), k)
    ensures Began(DoBump(s, p, op, at, left), k) == if Slot(op.Tenant(), left[0]) == k then s.Now() else Began(s, k)
  {
    hide Page, BarePage, Preloaded, Total, ListKey, VersionKey, Apply, HistoryOk, PageReads, ProcessTimely,
         PageTimely, Bumps;
    assert ProcessReads(s, s.processes[p]);
    if Slot(op.Tenant(), left[0]) != k {
      CountersApart(s, k, Slot(op.Tenant(), left[0]));
    }
  }

  lemma TimelyByBump(s: State, p: nat, op: Op, at: nat, left: seq<Resource>, k: Slot)
    requires Reads(s) && Timely(s, k) && p in s.processes && s.processes[p] == Committed(op, at, left) && left != []
    requires Known(s, k.tenant)
    ensures Timely(DoBump(s, p, op, at, left), k)
    ensures Began(DoBump(s, p, op, at, left), k) == if Slot(op.Tenant(), left[0]) == k then s.Now() else Began(s, k)
  {
    hide Page, BarePage, Preloaded, Total, ListKey, VersionKey, Apply, HistoryOk, PageReads, Onward, Bumps, Incremented;
    var s' := DoBump(s, p, op, at, left);
    assert ProcessReads(s, s.processes[p]) && ProcessTimely(s, s.processes[p], k);
    BumpIsOnward(s, p, op, at, left, k);
    OriginsThere(s);
    OnwardFacts(s, s', k);
    OnwardBegan(s, s', k);
    BumpAddsNoPage(s, CounterKey(Slot(op.Tenant(), left[0])));
    TimelyByMove(s, s', p, Committed(op, at, left[1..]), k);
  }

  lemma BumpAddsNoPage(s: State, key: string)
    ensures forall x | x in Incremented(s.redis, key) && Incremented(s.redis, key)[x].CachedPage? ::
              IsPage(s, x) && Incremented(s.redis, key)[x] == s.redis[x]
  {
  }

  lemma OnwardBegan(s: State, s': State, k: Slot)
    requires Onward(s, s', k)
    ensures HasCounter(s, k) && Began(s, k) <= Began(s', k)
  {
  }

  /** The slot's floor rises to the returned commit. */
  lemma ReturnFloor(s: State, p: nat, op: Op, at: nat, k: Slot)
    ensures Floor(DoReturn(s, p, op, at), k) == if BumpsSlot(op, k) && Floor(s, k) < at then at else Floor(s, k)
  {
    hide Bumps;
    assert Slot(k.tenant, k.resource) == k;
  }

  lemma TimelyByReturn(s: State, p: nat, op: Op, at: nat, k: Slot)
    requires Reads(s) && Timely(s, k) && p in s.processes && s.processes[p] == Committed(op, at, [])
    ensures Timely(DoReturn(s, p, op, at), k)
    ensures HasCounter(DoReturn(s, p, op, at), k) && Began(DoReturn(s, p, op, at), k) == Began(s, k)
  {
    hide Page, BarePage, Preloaded, Total, ListKey, VersionKey, Apply, HistoryOk, ProcessReads, PageReads,
         PageTimely, Bumps;
    var s' := DoReturn(s, p, op, at);
    assert ProcessTimely(s, s.processes[p], k);
    OriginsThere(s);
    ReturnFloor(s, p, op, at, k);
    hide DoReturn;
    ReturnLeaves(s, p, op, at);
    assert Onward(s, s', k);
    TimelyByMove(s, s', p, Returned(op, at), k);
  }

  lemma ReturnLeaves(s: State, p: nat, op: Op, at: nat)
    ensures var s' := DoReturn(s, p, op, at);
            && s'.history == s.history && s'.redis == s.redis && s'.since == s.since && s'.origins == s.origins
            && s'.processes == s.processes[p := Returned(op, at)]
  {
  }

  /** The step bumps the slot. */
  predicate BeginsVersion(s: State, a: Action, k: Slot) {
    a.Bump? && Enabled(s, a) && Slot(s.processes[a.p].op.Tenant(), s.processes[a.p].left[0]) == k
  }

  lemma ReaderStepTimely(s: State, a: Action, k: Slot)
    requires Reads(s) && Timely(s, k) && Known(s, k.tenant) && HasCounter(s, k) && Enabled(s, a)
    requires !a.CommitOp? && !a.Bump? && !a.Return?
    ensures Timely(Next(s, a), k) && HasCounter(Next(s, a), k) && Began(Next(s, a), k) == Began(s, k)
  {
    hide Reads, Timely, Apply, Began, VersionKey, Bumps, Page, Total, BarePage, Preloaded;
    hide DoCount, DoFetch, DoPreload, DoFill, DoProbe, DoBump, DoReturn, DoReadVersion, DoInitVersion, DoCommit;
    match a {
    case ReadVersion(p, q) => TimelyByReadVersion(s, p, q, k);
    case InitVersion(p) => TimelyByInit(s, p, k);
    case Probe(p) => TimelyByProbe(s, p, k);
    case Count(p) => TimelyByCount(s, p, k);
    case Fetch(p) => TimelyByFetch(s, p, k);
    case Preload(p) => TimelyByPreload(s, p, k);
    case Fill(p) => TimelyByFill(s, p, k);
    case Expire(key) => TimelyByExpire(s, key, k);
    }
    TimelyHasCounter(Next(s, a), k);
  }

  /** Every step keeps what was read for the slot's lists in time with its versions. */
  lemma NextKeepsTimely(s: State, a: Action, k: Slot)
    requires Reads(s) && Timely(s, k) && Known(s, k.tenant)
    ensures Timely(Next(s, a), k)
    ensures HasCounter(s, k) && HasCounter(Next(s, a), k)
    ensures Began(Next(s, a), k) == if BeginsVersion(s, a, k) then s.Now() else Began(s, k)
  {
    TimelyHasCounter(s, k);
    hide Reads, Timely, Apply, Began, VersionKey, Bumps, Page, Total, BarePage, Preloaded;
    hide DoCount, DoFetch, DoPreload, DoFill, DoProbe, DoBump, DoReturn, DoReadVersion, DoInitVersion, DoCommit;
    if Enabled(s, a) {
      if a.CommitOp? {
        TimelyByCommit(s, a.p, a.op, k);
      } else if a.Bump? {
        TimelyByBump(s, a.p, s.processes[a.p].op, s.processes[a.p].at, s.processes[a.p].left, k);
      } else if a.Return? {
        TimelyByReturn(s, a.p, s.processes[a.p].op, s.processes[a.p].at, k);
      } else {
        ReaderStepTimely(s, a, k);
      }
    }
    TimelyHasCounter(Next(s, a), k);
  }

  lemma TimelyHasCounter(s: State, k: Slot)
    requires Timely(s, k)
    ensures HasCounter(s, k)
  {
  }

  // ----- lists that have settled -----

  predicate Bumping(process: Process, k: Slot) {
    process.Committed? && process.op.Tenant() == k.tenant && k.resource in process.left
  }

  /** No call is between its commit and its bump of the slot. */
  ghost predicate Quiet(s: State, k: Slot) {
    forall p | p in s.processes :: !Bumping(s.processes[p], k)
  }

  /** The slot's lists are the same on all databases from the given commit on. */
  ghost predicate SameSince(history: seq<Db>, from: nat, k: Slot) {
    history != [] &&
    forall q: Query, i | SlotOf(q) == k && from <= i < |history| :: SameList(history[i], history[|history| - 1], q)
  }

  /** When the slot is quiet, its lists have not changed since its present version began. */
  ghost predicate Settled(s: State, k: Slot)
    requires HasCounter(s, k)
  {
    Quiet(s, k) ==> SameSince(s.history, Began(s, k), k)
  }

  /** Quiet later means quiet before, when process p starts or keeps bumping the slot. */
  lemma QuietBefore(s: State, s': State, p: nat, process: Process, k: Slot)
    requires s'.processes == s.processes[p := process] && Quiet(s', k)
    requires p in s.processes && Bumping(s.processes[p], k) ==> Bumping(process, k)
    ensures Quiet(s, k) && !Bumping(process, k)
  {
    hide Bumping;
    assert s'.processes[p] == process;
    forall x | x in s.processes ensures !Bumping(s.processes[x], k) {
      assert x in s'.processes && !Bumping(s'.processes[x], k);
    }
  }

  lemma SameSinceGrows(history: seq<Db>, from: nat, op: Op, k: Slot)
    requires SameSince(history, from, k) && Consistent(history[|history| - 1]) && !BumpsSlot(op, k)
    requires Apply(history[|history| - 1], op).Ok?
    ensures SameSince(history + [Apply(history[|history| - 1], op).value], from, k)
  {
    hide Page, Total, Apply, Bumps, Tables, PlainIds;
    var now := history[|history| - 1];
    var next := Apply(now, op).value;
    forall q: Query, i | SlotOf(q) == k && from <= i < |history + [next]|
      ensures SameList((history + [next])[i], next, q)
    {
      BumpsCoverChanges(now, op, q);
      if i < |history| { assert SameList(history[i], now, q); }
    }
  }

  lemma NowIsSame(history: seq<Db>, k: Slot)
    requires history != []
    ensures SameSince(history, |history| - 1, k)
  {
  }

  lemma SettledByCommit(s: State, p: nat, op: Op, k: Slot)
    requires Reads(s) && HasCounter(s, k) && Settled(s, k) && Apply(s.Current(), op).Ok? && p !in s.processes
    ensures HasCounter(DoCommit(s, p, op), k) && Settled(DoCommit(s, p, op), k)
  {
    hide ProcessReads, PageReads, SameSince, Page, Total, Apply, Bumps, Tables, PlainIds, VersionKey;
    var s', process := DoCommit(s, p, op), Committed(op, |s.history|, Bumps(op));
    if Quiet(s', k) {
      QuietBefore(s, s', p, process, k);
      SameSinceGrows(s.history, Began(s, k), op, k);
    }
  }

  lemma SettledByOther(s: State, s': State, p: nat, k: Slot)
    requires HasCounter(s, k) && HasCounter(s', k) && Settled(s, k)
    requires s'.history == s.history && Began(s', k) == Began(s, k) && p in s'.processes
    requires s'.processes == s.processes[p := s'.processes[p]]
    requires p in s.processes && Bumping(s.processes[p], k) ==> Bumping(s'.processes[p], k)
    ensures Settled(s', k)
  {
    hide SameSince, VersionKey, Began;
    if Quiet(s', k) { QuietBefore(s, s', p, s'.processes[p], k); }
  }

  lemma NextKeepsSettled(s: State, a: Action, k: Slot)
    requires Reads(s) && Timely(s, k) && Known(s, k.tenant) && HasCounter(s, k) && Settled(s, k)
    ensures HasCounter(Next(s, a), k) && Settled(Next(s, a), k)
  {
    hide Reads, Timely, Apply, Began, SameSince, VersionKey, ListKey, Page, BarePage, Preloaded, Total, Bumps,
         HasCounter;
    NextKeepsTimely(s, a, k);
    if Enabled(s, a) {
      if a.CommitOp? {
        SettledByCommit(s, a.p, a.op, k);
      } else if a.Expire? {
        assert Quiet(Next(s, a), k) == Quiet(s, k);
      } else if BeginsVersion(s, a, k) {
        NowIsSame(s.history, k);
      } else {
        SettledByOther(s, Next(s, a), a.p, k);
      }
    }
  }

  // ----- runs -----

  ghost predicate Inv(s: State, k: Slot) {
    Reads(s) && Known(s, k.tenant) && Timely(s, k) && Settled(s, k)
  }

  /** Some database with its invariants, nobody running, and the slot's counter is there. */
  ghost predicate StartsWith(s: State, k: Slot) {
    Starts(s) && Consistent(s.history[0]) && k.tenant in s.history[0].tenants && HasCounter(s, k)
  }

  lemma StartKeepsReads(s: State)
    requires Starts(s) && Consistent(s.history[0])
    ensures Reads(s)
  {
    hide Consistent;
  }

  lemma StartKeepsInv(s: State, k: Slot)
    requires StartsWith(s, k)
    ensures Inv(s, k)
  {
    hide Consistent, VersionKey, Page, Total;
    StartKeepsReads(s);
  }

  lemma NextKeepsFirst(s: State, a: Action)
    requires s.history != []
    ensures Next(s, a).history != [] && Next(s, a).history[0] == s.history[0]
  {
    hide Apply, Page, BarePage, Preloaded, Total, ListKey, VersionKey, Incremented, Bumps;
  }

  lemma {:induction false} InterleavingsKeepReads(s: State, actions: seq<Action>)
    requires Starts(s) && Consistent(s.history[0])
    ensures Reads(Interleave(s, actions)) && Interleave(s, actions).history[0] == s.history[0]
  {
    hide Reads, Next, Consistent;
    if actions == [] {
      StartKeepsReads(s);
    } else {
      var before, a := Interleave(s, actions[..|actions| - 1]), actions[|actions| - 1];
      InterleavingsKeepReads(s, actions[..|actions| - 1]);
      NextKeepsReads(before, a);
      ReadsHasHistory(before);
      NextKeepsFirst(before, a);
    }
  }

  lemma ReadsHasHistory(s: State)
    requires Reads(s)
    ensures s.history != []
  {
  }

  lemma {:induction false} InterleavingsKeepInv(s: State, actions: seq<Action>, k: Slot)
    requires StartsWith(s, k)
    ensures Inv(Interleave(s, actions), k)
  {
    hide Reads, Timely, Settled, Next, Consistent;
    if actions == [] {
      StartKeepsInv(s, k);
    } else {
      var before, a := Interleave(s, actions[..|actions| - 1]), actions[|actions| - 1];
      InterleavingsKeepInv(s, actions[..|actions| - 1], k);
      ReadsHasHistory(before);
      NextKeepsReads(before, a);
      NextKeepsTimely(before, a, k);
      NextKeepsSettled(before, a, k);
      NextKeepsFirst(before, a);
    }
  }

  // ----- main results -----

  /** The coherence claim for one list: while no call is between its commit and its bump of the list's version, a page
      cached under the current version equals a fresh query. */
  ghost predicate CoherentAt(t: State, q: Query) {
    && t.history != []
    && (Quiet(t, SlotOf(q)) && HasCounter(t, SlotOf(q)) ==>
          var key := ListKey(q, Version(t, SlotOf(q)));
          IsPage(t, key) ==> t.redis[key].total == Total(t.Current(), q) && t.redis[key].rows == Page(t.Current(), q))
  }

  /** What statements on unchanged lists put together is the list as it is now. */
  lemma AssembledIsCurrent(db: Db, a: Db, b: Db, q: Query)
    requires SameList(a, db, q) && SameList(b, db, q)
    ensures Preloaded(b, BarePage(a, q)) == Page(db, q)
  {
    hide Page, Preloaded, WithAssociations;
    PreloadsMakePage(b, q);
    assert BarePage(a, q) == BarePage(b, q);
  }

  lemma CoherentWhenQuiet(t: State, q: Query)
    requires Inv(t, SlotOf(q))
    ensures CoherentAt(t, q)
  {
    hide Page, BarePage, Preloaded, Total, ListKey, VersionKey, HistoryOk, ProcessReads, PageReads, ProcessTimely;
    var k := SlotOf(q);
    var key := ListKey(q, Version(t, k));
    if Quiet(t, k) && IsPage(t, key) {
      SharedPageAnswers(t, q, Version(t, k));
      assert PageTimely(t, key, k);
      var times := t.origins[key].times;
      assert SameList(t.history[times.counted], t.Current(), q);
      assert SameList(t.history[times.fetched], t.Current(), q);
      assert SameList(t.history[times.preloaded], t.Current(), q);
      AssembledIsCurrent(t.Current(), t.history[times.fetched], t.history[times.preloaded], q);
    }
  }

  /** Main result (coherence): in every interleaving, whenever no call is between its commit and its bump of a list's
      version, a page cached under the current version of that list equals a fresh query. */
  lemma QuietCacheIsCoherent(s: State, actions: seq<Action>, q: Query)
    requires StartsWith(s, SlotOf(q))
    ensures CoherentAt(Interleave(s, actions), q)
  {
    hide Inv, CoherentAt, Interleave;
    InterleavingsKeepInv(s, actions, SlotOf(q));
    CoherentWhenQuiet(Interleave(s, actions), q);
  }

  /** Call p is not there yet, or it lists under a floor of at least `at`. */
  predicate StartedAfter(s: State, p: nat, at: nat, k: Slot) {
    p in s.processes ==>
      match s.processes[p]
      case VersionMissing(q, floor) => SlotOf(q) == k ==> at <= floor
      case Versioned(q, _, floor) => SlotOf(q) == k ==> at <= floor
      case Missed(q, _, floor) => SlotOf(q) == k ==> at <= floor
      case Counted(q, _, floor, _, _) => SlotOf(q) == k ==> at <= floor
      case Fetched(q, _, floor, _, _, _, _) => SlotOf(q) == k ==> at <= floor
      case Complete(q, _, floor, _, _, _) => SlotOf(q) == k ==> at <= floor
      case Listed(q, floor, _, _, _) => SlotOf(q) == k ==> at <= floor
      case Committed(_, _, _) => true
      case Returned(_, _) => true
  }

  lemma StepFloor(s: State, a: Action, k: Slot)
    ensures Floor(s, k) <= Floor(Next(s, a), k)
  {
    hide Apply, Page, BarePage, Preloaded, Total, ListKey, VersionKey, Incremented, Bumps, DoReturn;
    if Enabled(s, a) && a.Return? {
      ReturnFloor(s, a.p, s.processes[a.p].op, s.processes[a.p].at, k);
    }
  }

  lemma StepStartsAfter(s: State, a: Action, p: nat, at: nat, k: Slot)
    requires at <= Floor(s, k) && StartedAfter(s, p, at, k)
    ensures StartedAfter(Next(s, a), p, at, k)
  {
    hide Apply, Page, BarePage, Preloaded, Total, ListKey, VersionKey, Incremented, Bumps;
  }

  lemma {:induction false} StepsStartAfter(s: State, actions: seq<Action>, p: nat, at: nat, k: Slot)
    requires at <= Floor(s, k) && StartedAfter(s, p, at, k)
    ensures at <= Floor(Interleave(s, actions), k) && StartedAfter(Interleave(s, actions), p, at, k)
  {
    hide Next, StartedAfter, Floor;
    if actions == [] {
    } else {
      StepsStartAfter(s, actions[..|actions| - 1], p, at, k);
      StepFloor(Interleave(s, actions[..|actions| - 1]), actions[|actions| - 1], k);
      StepStartsAfter(Interleave(s, actions[..|actions| - 1]), actions[|actions| - 1], p, at, k);
    }
  }

  /** The list was counted, fetched and completed at commits no older than `at`, and shows what they gave. */
  predicate ShowsSince(t: State, c: Process, at: nat)
    requires c.Listed?
  {
    Shows(t, c.q, c.total, c.rows, c.times) && NotBefore(c.times, at)
  }

  lemma ListedSince(t: State, p: nat, at: nat, k: Slot)
    requires Inv(t, k) && p in t.processes && t.processes[p].Listed? && SlotOf(t.processes[p].q) == k
    requires StartedAfter(t, p, at, k)
    ensures ShowsSince(t, t.processes[p], at)
  {
    hide Page, BarePage, Preloaded, Total, ListKey, VersionKey, HistoryOk, PageReads, PageTimely, Settled;
    assert ProcessReads(t, t.processes[p]) && ProcessTimely(t, t.processes[p], k);
  }

  /** Main result (read your writes): let call w have returned after some steps, having committed as commit `at`, and
      let list call p begin later on a list of a resource that w bumped. When p is done, its total, its rows and their
      associations were each read at commit `at` or later. */
  lemma ListsSeeReturnedWrites(s: State, before: seq<Action>, later: seq<Action>, w: nat, p: nat, k: Slot)
    requires StartsWith(s, k)
    requires var mid := Interleave(s, before);
             w in mid.processes && mid.processes[w].Returned? && BumpsSlot(mid.processes[w].op, k)
                 && p !in mid.processes
    requires var t := Interleave(s, before + later);
             p in t.processes && t.processes[p].Listed? && SlotOf(t.processes[p].q) == k
    ensures var w', t := Interleave(s, before).processes[w], Interleave(s, before + later);
            && 0 < w'.at < |t.history| && Apply(t.history[w'.at - 1], w'.op) == Ok(t.history[w'.at])
            && ShowsSince(t, t.processes[p], w'.at)
  {
    hide Inv, StartsWith, Interleave, ShowsSince, StartedAfter, Apply, BumpsSlot, Bumps;
    var mid, t := Interleave(s, before), Interleave(s, before + later);
    InterleavingsKeepInv(s, before, k);
    InterleavingsKeepInv(s, before + later, k);
    InterleaveConcat(s, before, later);
    ReturnedFacts(mid, w, k);
    NotThereYet(mid, p, mid.processes[w].at, k);
    StepsStartAfter(mid, later, p, mid.processes[w].at, k);
    HistoryGrows(mid, later);
    ListedSince(t, p, mid.processes[w].at, k);
  }

  lemma ReturnedFacts(s: State, w: nat, k: Slot)
    requires Inv(s, k) && w in s.processes && s.processes[w].Returned? && BumpsSlot(s.processes[w].op, k)
    ensures s.history != [] && IsCommit(s, s.processes[w].op, s.processes[w].at) && s.processes[w].at <= Floor(s, k)
  {
    hide Page, BarePage, Preloaded, Total, ListKey, VersionKey, HistoryOk, PageReads, PageTimely, Settled, Apply;
    assert ProcessReads(s, s.processes[w]) && ProcessTimely(s, s.processes[w], k);
  }

  lemma NotThereYet(s: State, p: nat, at: nat, k: Slot)
    requires p !in s.processes
    ensures StartedAfter(s, p, at, k)
  {
  }

  lemma {:induction false} HistoryGrows(s: State, actions: seq<Action>)
    ensures s.history <= Interleave(s, actions).history
  {
    hide Next;
    if actions == [] {
    } else {
      HistoryGrows(s, actions[..|actions| - 1]);
      StepGrows(Interleave(s, actions[..|actions| - 1]), actions[|actions| - 1]);
    }
  }

  lemma StepGrows(s: State, a: Action)
    ensures s.history <= Next(s, a).history
  {
    hide Apply, Page, BarePage, Preloaded, Total, ListKey, VersionKey, Incremented, Bumps;
  }

  /** Any reachable database is such a start, once the list's counter is in Redis. */
  lemma ReachableStart(db: Db, ops: seq<Op>, k: Slot)
    requires Initial(db) && k.tenant in db.tenants
    ensures StartsWith(State([Run(db, ops)], map[CounterKey(k) := Counter(1)], map[], map[], map[], map[]), k)
  {
    hide Tables, VersionKey;
    RunKeepsTables(db, ops);
  }
}
