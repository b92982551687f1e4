/** The list cache protocol, step by step. List calls (read version, probe the cache, count, fetch, preload, fill) and
    mutating calls (commit, bump each version, return) interleave; cached pages may expire at any time. */
module CacheProtocol {
  import opened Model
  import opened Operations
  import opened Lists
  import opened CacheKeys

  datatype Slot = Slot(tenant: Id, resource: Resource)
  datatype Epoch = Epoch(slot: Slot, version: nat)

  datatype Entry = Counter(n: nat) | CachedPage(rows: seq<Row>, total: nat)

  /** The commits that the count, the page query and the preloads saw. */
  datatype Times = Times(counted: nat, fetched: nat, preloaded: nat)

  /** Where a cached page came from. */
  datatype Origin = Origin(q: Query, version: nat, times: Times)

  /** Where a call is. floor is the last commit on the list's slot whose call had returned when the list call began. */
  datatype Process =
    | VersionMissing(q: Query, floor: nat)
    | Versioned(q: Query, version: nat, floor: nat)
    | Missed(q: Query, version: nat, floor: nat)
    | Counted(q: Query, version: nat, floor: nat, total: nat, counted: nat)
    | Fetched(q: Query, version: nat, floor: nat, total: nat, counted: nat, rows: seq<Row>, fetched: nat)
    | Complete(q: Query, version: nat, floor: nat, total: nat, rows: seq<Row>, times: Times)
    | Listed(q: Query, floor: nat, total: nat, rows: seq<Row>, times: Times)
    | Committed(op: Op, at: nat, left: seq<Resource>)
    | Returned(op: Op, at: nat)

  /** history holds every committed database, oldest first. since, origins and returned only record what happened:
      the commit current when a version began, the origin of each page, the newest returned commit of a slot. */
  datatype State = State(
    history: seq<Db>,
    redis: map<string, Entry>,
    processes: map<nat, Process>,
    since: map<Epoch, nat>,
    origins: map<string, Origin>,
    returned: map<Slot, nat>)
  {
    function Now(): nat
      requires history != []
    {
      |history| - 1
    }

    function Current(): Db
      requires history != []
    {
      history[Now()]
    }
  }

  function SlotOf(q: Query): Slot {
    Slot(q.tenant, q.Resource())
  }

  function CounterKey(slot: Slot): string {
    VersionKey(slot.tenant, slot.resource)
  }

  datatype Action =
    | ReadVersion(p: nat, q: Query)
    | InitVersion(p: nat)
    | Probe(p: nat)
    | Count(p: nat)
    | Fetch(p: nat)
    | Preload(p: nat)
    | Fill(p: nat)
    | Expire(key: string)
    | CommitOp(p: nat, op: Op)
    | Bump(p: nat)
    | Return(p: nat)

  predicate IsCounter(s: State, key: string) {
    key in s.redis && s.redis[key].Counter?
  }

  predicate IsPage(s: State, key: string) {
    key in s.redis && s.redis[key].CachedPage?
  }

  function Floor(s: State, slot: Slot): nat {
    if slot in s.returned then s.returned[slot] else 0
  }

  function Moved(s: State, p: nat, process: Process): State {
    s.(processes := s.processes[p := process])
  }

  predicate Enabled(s: State, a: Action) {
    && s.history != []
    && match a
       case ReadVersion(p, q) => p !in s.processes && q.tenant in s.Current().tenants
       case InitVersion(p) => p in s.processes && s.processes[p].VersionMissing?
       case Probe(p) => p in s.processes && s.processes[p].Versioned?
       case Count(p) => p in s.processes && s.processes[p].Missed?
       case Fetch(p) => p in s.processes && s.processes[p].Counted?
       case Preload(p) => p in s.processes && s.processes[p].Fetched?
       case Fill(p) => p in s.processes && s.processes[p].Complete?
       case Expire(key) => IsPage(s, key)
       case CommitOp(p, op) => p !in s.processes && Apply(s.Current(), op).Ok?
       case Bump(p) => p in s.processes && s.processes[p].Committed? && s.processes[p].left != []
       case Return(p) => p in s.processes && s.processes[p].Committed? && s.processes[p].left == []
  }

  /** Version: GET of the counter. A missing counter is set to 1 by a separate step; any other reply reads as 1. */
  function DoReadVersion(s: State, p: nat, q: Query): State {
    var key, floor := CounterKey(SlotOf(q)), Floor(s, SlotOf(q));
    if key !in s.redis then Moved(s, p, VersionMissing(q, floor))
    else Moved(s, p, Versioned(q, if s.redis[key].Counter? then s.redis[key].n else 1, floor))
  }

  function DoInitVersion(s: State, p: nat, q: Query, floor: nat): State
    requires s.history != []
  {
    Moved(s, p, Versioned(q, 1, floor)).(
      redis := s.redis[CounterKey(SlotOf(q)) := Counter(1)],
      since := s.since[Epoch(SlotOf(q), 1) := s.Now()])
  }

  function DoProbe(s: State, p: nat, q: Query, version: nat, floor: nat): State {
    var key := ListKey(q, version);
    if IsPage(s, key) && key in s.origins then
      Moved(s, p, Listed(q, floor, s.redis[key].total, s.redis[key].rows, s.origins[key].times))
    else Moved(s, p, Missed(q, version, floor))
  }

  function DoCount(s: State, p: nat, c: Process): State
    requires s.history != [] && c.Missed?
  {
    Moved(s, p, Counted(c.q, c.version, c.floor, Total(s.Current(), c.q), s.Now()))
  }

  function DoFetch(s: State, p: nat, c: Process): State
    requires s.history != [] && c.Counted?
  {
    Moved(s, p, Fetched(c.q, c.version, c.floor, c.total, c.counted, BarePage(s.Current(), c.q), s.Now()))
  }

  /** The preload statements. Channels and agents are configuration that no call writes, so only when the customers are
      read matters, and one step stands for all of them. */
  function DoPreload(s: State, p: nat, c: Process): State
    requires s.history != [] && c.Fetched?
  {
    Moved(s, p, Complete(c.q, c.version, c.floor, c.total, Lists.Preloaded(s.Current(), c.rows),
                         Times(c.counted, c.fetched, s.Now())))
  }

  function DoFill(s: State, p: nat, c: Process): State
    requires c.Complete?
  {
    var key := ListKey(c.q, c.version);
    Moved(s, p, Listed(c.q, c.floor, c.total, c.rows, c.times)).(
      redis := s.redis[key := CachedPage(c.rows, c.total)],
      origins := s.origins[key := Origin(c.q, c.version, c.times)])
  }

  function DoCommit(s: State, p: nat, op: Op): State
    requires s.history != [] && Apply(s.Current(), op).Ok?
  {
    Moved(s, p, Committed(op, |s.history|, Bumps(op))).(history := s.history + [Apply(s.Current(), op).value])
  }

  /** INCR: a missing counter counts from 0; a value that is no number is left alone. */
  function Incremented(entries: map<string, Entry>, key: string): map<string, Entry> {
    if key !in entries then entries[key := Counter(1)]
    else if entries[key].Counter? then entries[key := Counter(entries[key].n + 1)]
    else entries
  }

  function DoBump(s: State, p: nat, op: Op, at: nat, left: seq<Resource>): State
    requires s.history != [] && left != []
  {
    var slot := Slot(op.Tenant(), left[0]);
    var key := CounterKey(slot);
    var redis := Incremented(s.redis, key);
    Moved(s, p, Committed(op, at, left[1..])).(
      redis := redis,
      since := if redis[key].Counter? then s.since[Epoch(slot, redis[key].n) := s.Now()] else s.since)
  }

  function DoReturn(s: State, p: nat, op: Op, at: nat): State {
    Moved(s, p, Returned(op, at)).(
      returned := s.returned
        + map r | r in Bumps(op) && Floor(s, Slot(op.Tenant(), r)) < at :: Slot(op.Tenant(), r) := at)
  }

  function Next(s: State, a: Action): State {
    if !Enabled(s, a) then s else
    match a
    case ReadVersion(p, q) => DoReadVersion(s, p, q)
    case InitVersion(p) => DoInitVersion(s, p, s.processes[p].q, s.processes[p].floor)
    case Probe(p) => DoProbe(s, p, s.processes[p].q, s.processes[p].version, s.processes[p].floor)
    case Count(p) => DoCount(s, p, s.processes[p])
    case Fetch(p) => DoFetch(s, p, s.processes[p])
    case Preload(p) => DoPreload(s, p, s.processes[p])
    case Fill(p) => DoFill(s, p, s.processes[p])
    case Expire(key) => s.(redis := s.redis - {key})
    case CommitOp(p, op) => DoCommit(s, p, op)
    case Bump(p) => DoBump(s, p, s.processes[p].op, s.processes[p].at, s.processes[p].left)
    case Return(p) => DoReturn(s, p, s.processes[p].op, s.processes[p].at)
  }

  /** Any interleaving: disabled actions do nothing. */
  function Interleave(s: State, actions: seq<Action>): State {
    if actions == [] then s
    else Next(Interleave(s, actions[..|actions| - 1]), actions[|actions| - 1])
  }

  lemma {:induction false} InterleaveConcat(s: State, a: seq<Action>, b: seq<Action>)
    ensures Interleave(s, a + b) == Interleave(Interleave(s, a), b)
  {
    hide Next;
    if b == [] {
      assert a + b == a;
    } else {
      InterleaveConcat(s, a, b[..|b| - 1]);
      assert (a + b)[..|a + b| - 1] == a + b[..|b| - 1];
    }
  }

  /** A start of the protocol: some database with its invariants, nobody running, no page cached. */
  ghost predicate Starts(s: State) {
    && |s.history| == 1 && (forall key | key in s.redis :: s.redis[key].Counter?)
    && s.processes == map[] && s.since == map[] && s.origins == map[] && s.returned == map[]
  }
}
