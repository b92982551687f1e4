/** Why the cache theorems need the list's version counter to exist beforehand, and exactly when they hold. Version sets
    a missing counter to 1 in a step of its own; a list call that found the counter missing can reset it after it has
    been bumped. For every list without a counter and every run of calls that changes the list, the schedule below
    leaves a stale page current. */
module CacheStart {
  import opened Text
  import opened Model
  import opened Operations
  import opened Invariants
  import opened Lists
  import opened CacheKeys
  import opened CacheProtocol
  import opened ListCache

  lemma InterleaveOne(s: State, a: Action)
    ensures Interleave(s, [a]) == Next(s, a)
  {
    hide Next;
    assert [a][..0] == [];
    assert Interleave(s, []) == s;
  }

  lemma InterleaveFront(s: State, a: Action, more: seq<Action>)
    ensures Interleave(s, [a] + more) == Interleave(Next(s, a), more)
  {
    hide Next, Interleave;
    InterleaveOne(s, a);
    InterleaveConcat(s, [a], more);
  }

  lemma Finished(s: State)
    ensures Interleave(s, []) == s
  {
  }

  // ----- the schedule -----

  /** Two list calls find no counter; the second creates it and fills the cache. */
  function Opening(q: Query): seq<Action> {
    [ReadVersion(0, q)] + ([ReadVersion(1, q)] + ([InitVersion(1)] + ([Probe(1)] + Filling(1))))
  }

  function Filling(p: nat): seq<Action> {
    [Count(p)] + ([Fetch(p)] + ([Preload(p)] + ([Fill(p)] + [])))
  }

  /** A call commits, bumps every version and returns. */
  function Writing(p: nat, op: Op): seq<Action> {
    [CommitOp(p, op)] + ([Action.Bump(p)] + ([Action.Bump(p)] + ([Return(p)] + [])))
  }

  /** One whole call after another, as processes 2, 3, ... */
  function WritingAll(ops: seq<Op>): seq<Action> {
    if ops == [] then [] else WritingAll(ops[..|ops| - 1]) + Writing(|ops| + 1, ops[|ops| - 1])
  }

  /** After the calls, the first list call goes on and sets the counter it had found missing. */
  function Race(q: Query, ops: seq<Op>): seq<Action> {
    Opening(q) + (WritingAll(ops) + ([InitVersion(0)] + []))
  }

  /** A start of the protocol on a sound database, for a tenant's list whose counter may be missing. */
  ghost predicate StartsFor(s: State, q: Query) {
    Starts(s) && Consistent(s.history[0]) && q.tenant in s.history[0].tenants
  }

  // ----- single steps -----

  lemma StepReadMissing(s: State, p: nat, q: Query, more: seq<Action>)
    requires s.history != [] && p !in s.processes && q.tenant in s.Current().tenants
               && CounterKey(SlotOf(q)) !in s.redis
    ensures Interleave(s, [ReadVersion(p, q)] + more)
         == Interleave(Moved(s, p, VersionMissing(q, Floor(s, SlotOf(q)))), more)
  {
    hide Interleave, Page, Total, ListKey, VersionKey, Apply;
    InterleaveFront(s, ReadVersion(p, q), more);
  }

  lemma StepInit(s: State, p: nat, q: Query, floor: nat, more: seq<Action>)
    requires s.history != [] && p in s.processes && s.processes[p] == VersionMissing(q, floor)
    ensures Interleave(s, [InitVersion(p)] + more) == Interleave(DoInitVersion(s, p, q, floor), more)
  {
    hide Interleave, Page, Total, ListKey, VersionKey, Apply;
    InterleaveFront(s, InitVersion(p), more);
  }

  lemma StepMiss(s: State, p: nat, q: Query, version: nat, floor: nat, more: seq<Action>)
    requires s.history != [] && p in s.processes && s.processes[p] == Versioned(q, version, floor)
    requires !IsPage(s, ListKey(q, version))
    ensures Interleave(s, [Probe(p)] + more) == Interleave(Moved(s, p, Missed(q, version, floor)), more)
  {
    hide Interleave, Page, Total, VersionKey, Apply;
    InterleaveFront(s, Probe(p), more);
  }

  lemma StepCount(s: State, p: nat, c: Process, more: seq<Action>)
    requires s.history != [] && p in s.processes && s.processes[p] == c && c.Missed?
    ensures Interleave(s, [Count(p)] + more) == Interleave(DoCount(s, p, c), more)
  {
    hide Interleave, DoCount, ListKey, VersionKey, Apply;
    InterleaveFront(s, Count(p), more);
  }

  lemma StepFetch(s: State, p: nat, c: Process, more: seq<Action>)
    requires s.history != [] && p in s.processes && s.processes[p] == c && c.Counted?
    ensures Interleave(s, [Fetch(p)] + more) == Interleave(DoFetch(s, p, c), more)
  {
    hide Interleave, DoFetch, ListKey, VersionKey, Apply;
    InterleaveFront(s, Fetch(p), more);
  }

  lemma StepPreload(s: State, p: nat, c: Process, more: seq<Action>)
    requires s.history != [] && p in s.processes && s.processes[p] == c && c.Fetched?
    ensures Interleave(s, [Preload(p)] + more) == Interleave(DoPreload(s, p, c), more)
  {
    hide Interleave, DoPreload, ListKey, VersionKey, Apply;
    InterleaveFront(s, Preload(p), more);
  }

  lemma StepFill(s: State, p: nat, c: Process, more: seq<Action>)
    requires s.history != [] && p in s.processes && s.processes[p] == c && c.Complete?
    ensures Interleave(s, [Fill(p)] + more) == Interleave(DoFill(s, p, c), more)
  {
    hide Interleave, DoFill, ListKey, VersionKey, Apply;
    InterleaveFront(s, Fill(p), more);
  }

  lemma StepCommit(s: State, p: nat, op: Op, more: seq<Action>)
    requires s.history != [] && p !in s.processes && Apply(s.Current(), op).Ok?
    ensures Interleave(s, [CommitOp(p, op)] + more) == Interleave(DoCommit(s, p, op), more)
  {
    hide Apply, Interleave;
    InterleaveFront(s, CommitOp(p, op), more);
  }

  lemma StepBump(s: State, p: nat, op: Op, at: nat, left: seq<Resource>, more: seq<Action>)
    requires s.history != [] && p in s.processes && s.processes[p] == Committed(op, at, left)
    ensures Interleave(s, [Action.Bump(p)] + more)
         == Interleave(if left == [] then s else DoBump(s, p, op, at, left), more)
  {
    hide Interleave, Page, Total, ListKey, VersionKey, Apply;
    InterleaveFront(s, Action.Bump(p), more);
  }

  lemma StepReturn(s: State, p: nat, op: Op, at: nat, more: seq<Action>)
    requires s.history != [] && p in s.processes && s.processes[p] == Committed(op, at, [])
    ensures Interleave(s, [Return(p)] + more) == Interleave(DoReturn(s, p, op, at), more)
  {
    hide Interleave, Page, Total, ListKey, VersionKey, Apply;
    InterleaveFront(s, Return(p), more);
  }

  lemma StepDisabled(s: State, a: Action, more: seq<Action>)
    requires !Enabled(s, a)
    ensures Interleave(s, [a] + more) == Interleave(s, more)
  {
    hide Interleave, Enabled;
    InterleaveFront(s, a, more);
  }

  // ----- the opening -----

  /** Count, fetch, preload and fill with nothing in between. */
  function Filled(s: State, p: nat, q: Query, version: nat, floor: nat): State
    requires s.history != []
  {
    DoFill(s, p,
        Complete(q, version, floor, Total(s.Current(), q), Page(s.Current(), q), Times(s.Now(), s.Now(), s.Now())))
  }

  lemma FillingFills(s: State, p: nat, q: Query, version: nat, floor: nat)
    requires s.history != [] && p in s.processes && s.processes[p] == Missed(q, version, floor)
    ensures Interleave(s, Filling(p)) == Filled(s, p, q, version, floor)
  {
    hide Interleave, Next, Page, BarePage, Preloaded, Total, ListKey, VersionKey, Apply;
    var now, c := s.Current(), s.processes[p];
    var s1 := DoCount(s, p, c);
    StepCount(s, p, c, [Fetch(p)] + ([Preload(p)] + ([Fill(p)] + [])));
    var s2 := DoFetch(s1, p, s1.processes[p]);
    StepFetch(s1, p, s1.processes[p], [Preload(p)] + ([Fill(p)] + []));
    var s3 := DoPreload(s2, p, s2.processes[p]);
    StepPreload(s2, p, s2.processes[p], [Fill(p)] + []);
    StepFill(s3, p, s3.processes[p], []);
    Finished(DoFill(s3, p, s3.processes[p]));
    PreloadsMakePage(now, q);
    assert DoFill(s3, p, s3.processes[p]).processes == Filled(s, p, q, version, floor).processes;
  }

  /** Both list calls have found no counter; call 1 created it and missed. */
  function BothMissed(s: State, q: Query): State
    requires s.history != []
  {
    var missing := VersionMissing(q, Floor(s, SlotOf(q)));
    Moved(DoInitVersion(Moved(Moved(s, 0, missing), 1, missing), 1, q, missing.floor), 1, Missed(q, 1, missing.floor))
  }

  lemma OpeningMisses(s: State, q: Query, more: seq<Action>)
    requires StartsFor(s, q) && CounterKey(SlotOf(q)) !in s.redis
    ensures Interleave(s, [ReadVersion(0, q)] + ([ReadVersion(1, q)] + ([InitVersion(1)] + ([Probe(1)] + more))))
         == Interleave(BothMissed(s, q), more)
  {
    hide Interleave, Next, Page, Total, ListKey, VersionKey, Apply, Tables;
    var floor := Floor(s, SlotOf(q));
    VersionKeysAreApart(q.tenant, q.Resource(), q, 1);
    StepReadMissing(s, 0, q, [ReadVersion(1, q)] + ([InitVersion(1)] + ([Probe(1)] + more)));
    var s1 := Moved(s, 0, VersionMissing(q, floor));
    StepReadMissing(s1, 1, q, [InitVersion(1)] + ([Probe(1)] + more));
    var s2 := Moved(s1, 1, VersionMissing(q, floor));
    StepInit(s2, 1, q, floor, [Probe(1)] + more);
    StepMiss(DoInitVersion(s2, 1, q, floor), 1, q, 1, floor, more);
  }

  /** The old page is cached under version 1, call 0 still holds its miss, and no other call is under way: whatever
      calls there were, all numbered below n, have returned. */
  ghost predicate Primed(t: State, q: Query, first: Db, n: nat) {
    && t.history != []
    && 0 in t.processes && t.processes[0].VersionMissing? && t.processes[0].q == q
    && (forall p | p in t.processes :: p < n && !t.processes[p].Committed?)
    && ListKey(q, 1) in t.redis && t.redis[ListKey(q, 1)] == CachedPage(Page(first, q), Total(first, q))
  }

  lemma OpeningPrimes(s: State, q: Query)
    requires StartsFor(s, q) && CounterKey(SlotOf(q)) !in s.redis
    ensures Primed(Interleave(s, Opening(q)), q, s.history[0], 2) && Interleave(s, Opening(q)).history == s.history
  {
    hide Interleave, Next, Page, Total, ListKey, VersionKey, Apply, Consistent;
    OpeningMisses(s, q, Filling(1));
    FillingFills(BothMissed(s, q), 1, q, 1, Floor(s, SlotOf(q)));
  }

  // ----- whole calls -----

  /** The state once the call has committed and bumped all its versions. */
  function BumpedState(s: State, p: nat, op: Op): State
    requires s.history != [] && Apply(s.Current(), op).Ok?
  {
    var at, left := |s.history|, Bumps(op);
    var s2 := DoBump(DoCommit(s, p, op), p, op, at, left);
    if left[1..] == [] then s2 else DoBump(s2, p, op, at, left[1..])
  }

  lemma WritingRuns(s: State, p: nat, op: Op)
    requires s.history != [] && p !in s.processes && Apply(s.Current(), op).Ok?
    ensures Interleave(s, Writing(p, op)) == DoReturn(BumpedState(s, p, op), p, op, |s.history|)
  {
    hide Interleave, Next, Page, Total, ListKey, VersionKey, Apply, DoReturn;
    var at, left := |s.history|, Bumps(op);
    StepCommit(s, p, op, [Action.Bump(p)] + ([Action.Bump(p)] + ([Return(p)] + [])));
    var s1 := DoCommit(s, p, op);
    StepBump(s1, p, op, at, left, [Action.Bump(p)] + ([Return(p)] + []));
    StepBump(DoBump(s1, p, op, at, left), p, op, at, left[1..], [Return(p)] + []);
    StepReturn(BumpedState(s, p, op), p, op, at, []);
    Finished(DoReturn(BumpedState(s, p, op), p, op, at));
  }

  lemma BumpedFacts(s: State, p: nat, op: Op)
    requires s.history != [] && p !in s.processes && Apply(s.Current(), op).Ok?
    ensures BumpedState(s, p, op).history == s.history + [Apply(s.Current(), op).value]
    ensures BumpedState(s, p, op).processes == s.processes[p := Committed(op, |s.history|, [])]
  {
    hide Apply, VersionKey;
    var at, left := |s.history|, Bumps(op);
    var once := s.processes[p := Committed(op, at, left)][p := Committed(op, at, left[1..])];
    assert once == s.processes[p := Committed(op, at, left[1..])];
    if left[1..] != [] {
      assert left[1..][1..] == [];
      assert once[p := Committed(op, at, left[1..][1..])] == s.processes[p := Committed(op, at, [])];
    }
  }

  lemma BumpedPages(s: State, p: nat, op: Op, key: string)
    requires s.history != [] && Apply(s.Current(), op).Ok?
    requires key in s.redis && forall r | r in Bumps(op) :: key != CounterKey(Slot(op.Tenant(), r))
    ensures key in BumpedState(s, p, op).redis && BumpedState(s, p, op).redis[key] == s.redis[key]
  {
    hide Apply, VersionKey;
    assert Bumps(op)[0] in Bumps(op);
    if |Bumps(op)| > 1 { assert Bumps(op)[1] in Bumps(op); }
  }

  lemma WritingReturns(s: State, p: nat, op: Op)
    requires s.history != [] && p !in s.processes && Apply(s.Current(), op).Ok?
    ensures var t := Interleave(s, Writing(p, op));
            && t.history == s.history + [Apply(s.Current(), op).value]
            && t.redis == BumpedState(s, p, op).redis
            && t.processes == s.processes[p := Returned(op, |s.history|)]
  {
    hide Interleave, Next, Page, Total, ListKey, VersionKey, Apply, BumpedState, Bumps;
    WritingRuns(s, p, op);
    BumpedFacts(s, p, op);
    ReturnLeaves(BumpedState(s, p, op), p, op, |s.history|);
    assert s.processes[p := Committed(op, |s.history|, [])][p := Returned(op, |s.history|)]
        == s.processes[p := Returned(op, |s.history|)];
  }

  /** A call that is refused leaves the protocol where it is. */
  lemma WritingSkips(s: State, p: nat, op: Op)
    requires s.history != [] && p !in s.processes && Apply(s.Current(), op).Err?
    ensures Interleave(s, Writing(p, op)) == s
  {
    hide Interleave, Next, Apply;
    StepDisabled(s, CommitOp(p, op), [Action.Bump(p)] + ([Action.Bump(p)] + ([Return(p)] + [])));
    StepDisabled(s, Action.Bump(p), [Action.Bump(p)] + ([Return(p)] + []));
    StepDisabled(s, Action.Bump(p), [Return(p)] + []);
    StepDisabled(s, Return(p), []);
    Finished(s);
  }

  lemma WritingKeepsPrimed(t: State, q: Query, first: Db, n: nat, op: Op)
    requires Primed(t, q, first, n) && Consistent(t.Current()) && ColonFree(q.tenant)
    ensures var t' := Interleave(t, Writing(n, op));
            Primed(t', q, first, n + 1) && t'.Current() == After(t.Current(), op)
  {
    hide Interleave, Page, Total, ListKey, VersionKey, Apply, Tables, BumpedState, Writing;
    if Apply(t.Current(), op).Ok? {
      CommitFacts(t.Current(), op);
      WritingReturns(t, n, op);
      forall r | r in Bumps(op) ensures ListKey(q, 1) != CounterKey(Slot(op.Tenant(), r)) {
        VersionKeysAreApart(op.Tenant(), r, q, 1);
      }
      BumpedPages(t, n, op, ListKey(q, 1));
    } else {
      WritingSkips(t, n, op);
    }
  }

  lemma {:induction false} SoundRun(db: Db, ops: seq<Op>)
    requires Consistent(db)
    ensures Consistent(Run(db, ops)) && Run(db, ops).tenants == db.tenants
  {
    hide Apply, Tables, PlainIds;
    if ops == [] {
    } else {
      SoundRun(db, ops[..|ops| - 1]);
      if Apply(Run(db, ops[..|ops| - 1]), ops[|ops| - 1]).Ok? {
        CommitFacts(Run(db, ops[..|ops| - 1]), ops[|ops| - 1]);
      }
    }
  }

  lemma {:induction false} WritingAllKeepsPrimed(t: State, q: Query, first: Db, ops: seq<Op>)
    requires Primed(t, q, first, 2) && Consistent(t.Current()) && ColonFree(q.tenant)
    ensures var t' := Interleave(t, WritingAll(ops));
            Primed(t', q, first, |ops| + 2) && t'.Current() == Run(t.Current(), ops)
  {
    hide Interleave, Primed, Consistent, Writing, After;
    if ops == [] {
      Finished(t);
    } else {
      var init, last := ops[..|ops| - 1], ops[|ops| - 1];
      PrimedHasHistory(t, q, first, 2);
      WritingAllKeepsPrimed(t, q, first, init);
      SoundRun(t.Current(), init);
      InterleaveConcat(t, WritingAll(init), Writing(|ops| + 1, last));
      WritingKeepsPrimed(Interleave(t, WritingAll(init)), q, first, |ops| + 1, last);
    }
  }

  lemma PrimedHasHistory(t: State, q: Query, first: Db, n: nat)
    requires Primed(t, q, first, n)
    ensures t.history != []
  {
  }

  // ----- the race -----

  /** The first list call resets the counter: the old page is current again. */
  lemma ResetBreaksCoherence(t: State, q: Query, first: Db, n: nat)
    requires Primed(t, q, first, n) && ColonFree(q.tenant) && !SameList(first, t.Current(), q)
    ensures !CoherentAt(Interleave(t, [InitVersion(0)] + []), q)
  {
    hide Interleave, Page, Total, ListKey, VersionKey, Apply;
    var floor := t.processes[0].floor;
    StepInit(t, 0, q, floor, []);
    var t' := DoInitVersion(t, 0, q, floor);
    Finished(t');
    VersionKeysAreApart(q.tenant, q.Resource(), q, 1);
    assert Quiet(t', SlotOf(q));
    assert Version(t', SlotOf(q)) == 1;
  }

  /** Main result: without a counter to start from, any run of calls that changes the list can leave a stale page
      current, with every write finished and no version left to bump. */
  lemma MissingCounterServesStalePage(s: State, q: Query, ops: seq<Op>)
    requires StartsFor(s, q) && CounterKey(SlotOf(q)) !in s.redis
    requires !SameList(s.history[0], Run(s.history[0], ops), q)
    ensures !CoherentAt(Interleave(s, Race(q, ops)), q)
  {
    hide Interleave, Primed, CoherentAt, SameList, Tables, Opening, VersionKey;
    var s1 := Interleave(s, Opening(q));
    OpeningPrimes(s, q);
    InterleaveConcat(s, Opening(q), WritingAll(ops) + ([InitVersion(0)] + []));
    WritingAllKeepsPrimed(s1, q, s.history[0], ops);
    InterleaveConcat(s1, WritingAll(ops), [InitVersion(0)] + []);
    PrimedHasHistory(Interleave(s1, WritingAll(ops)), q, s.history[0], |ops| + 2);
    ResetBreaksCoherence(Interleave(s1, WritingAll(ops)), q, s.history[0], |ops| + 2);
  }

  // ----- lists that never change -----

  lemma StepHistory(s: State, a: Action)
    ensures || Next(s, a).history == s.history
            || (s.history != [] && a.CommitOp? && Next(s, a).history == s.history + [After(s.Current(), a.op)])
  {
    hide Apply, Page, BarePage, Preloaded, Total, ListKey, VersionKey, Incremented, Bumps;
  }

  lemma RunOneMore(db: Db, ops: seq<Op>, op: Op)
    ensures Run(db, ops + [op]) == After(Run(db, ops), op)
  {
    hide After;
    assert (ops + [op])[..|ops|] == ops;
  }

  /** Every database of the history is what some run of calls makes of the first. */
  lemma {:induction false} HistoryIsRuns(s: State, actions: seq<Action>, i: nat) returns (ops: seq<Op>)
    requires Starts(s) && i < |Interleave(s, actions).history|
    ensures Interleave(s, actions).history[i] == Run(s.history[0], ops)
  {
    hide Next, After, Run;
    if actions == [] {
      ops := [];
      RunNothing(s.history[0]);
    } else {
      var t, a := Interleave(s, actions[..|actions| - 1]), actions[|actions| - 1];
      StepHistory(t, a);
      if i < |t.history| {
        ops := HistoryIsRuns(s, actions[..|actions| - 1], i);
      } else {
        var init := HistoryIsRuns(s, actions[..|actions| - 1], i - 1);
        ops := init + [a.op];
        RunOneMore(s.history[0], init, a.op);
      }
    }
  }

  lemma RunNothing(db: Db)
    ensures Run(db, []) == db
  {
  }

  lemma UnchangedIsCoherent(t: State, q: Query)
    requires Reads(t) && Known(t, q.tenant)
    requires forall i | 0 <= i < |t.history| :: SameList(t.history[0], t.history[i], q)
    ensures CoherentAt(t, q)
  {
    hide Page, BarePage, Preloaded, Total, ListKey, VersionKey, HistoryOk, ProcessReads, PageReads;
    var k := SlotOf(q);
    ReadsHasHistory(t);
    if HasCounter(t, k) && IsPage(t, ListKey(q, Version(t, k))) {
      SharedPageAnswers(t, q, Version(t, k));
      assert SameList(t.history[0], t.Current(), q);
      var times := t.origins[ListKey(q, Version(t, k))].times;
      assert SameList(t.history[times.counted], t.Current(), q);
      assert SameList(t.history[times.fetched], t.Current(), q);
      assert SameList(t.history[times.preloaded], t.Current(), q);
      AssembledIsCurrent(t.Current(), t.history[times.fetched], t.history[times.preloaded], q);
    }
  }

  lemma NeverChangedIsCoherent(s: State, q: Query, actions: seq<Action>)
    requires StartsFor(s, q) && forall ops: seq<Op> :: SameList(s.history[0], Run(s.history[0], ops), q)
    ensures CoherentAt(Interleave(s, actions), q)
  {
    hide Interleave, CoherentAt, SameList, Consistent, Reads;
    var t := Interleave(s, actions);
    InterleavingsKeepReads(s, actions);
    ReadsHasHistory(t);
    forall i | 0 <= i < |t.history| ensures SameList(t.history[0], t.history[i], q) {
      var ops := HistoryIsRuns(s, actions, i);
    }
    UnchangedIsCoherent(t, q);
  }

  /** Main result (exact condition): from any start on a sound database, whatever other counters Redis holds, the cache
      is coherent for a list in every interleaving if and only if the list's version counter exists at the start, or no
      run of calls can ever change the list. */
  lemma CoherentIffCounterExists(s: State, q: Query)
    requires StartsFor(s, q)
    ensures (forall actions: seq<Action> :: CoherentAt(Interleave(s, actions), q)) <==>
            || CounterKey(SlotOf(q)) in s.redis
            || forall ops: seq<Op> :: SameList(s.history[0], Run(s.history[0], ops), q)
  {
    hide Interleave, CoherentAt, SameList, Consistent, Run, VersionKey;
    if CounterKey(SlotOf(q)) in s.redis {
      forall actions: seq<Action> ensures CoherentAt(Interleave(s, actions), q) {
        QuietCacheIsCoherent(s, actions, q);
      }
    } else if forall ops: seq<Op> :: SameList(s.history[0], Run(s.history[0], ops), q) {
      forall actions: seq<Action> ensures CoherentAt(Interleave(s, actions), q) {
        NeverChangedIsCoherent(s, q, actions);
      }
    } else {
      var ops: seq<Op> :| !SameList(s.history[0], Run(s.history[0], ops), q);
      MissingCounterServesStalePage(s, q, ops);
    }
  }

  // ----- new deployments with an empty Redis -----

  function NewDeployment(db: Db): State {
    State([db], map[], map[], map[], map[], map[])
  }

  /** The whole list of conversations, and of tickets. */
  function AllOf(tenant: Id, resource: Resource): Query {
    if resource == Tickets then TicketQuery(tenant, "", "", "", 0, 20) else ConversationQuery(tenant, "", "", 0, 20)
  }

  lemma InitialIsSound(db: Db)
    requires Initial(db)
    ensures Consistent(db)
  {
  }

  lemma EmptyListGrows(db: Db, db': Db, q: Query, id: Id)
    requires Selected(db, q) == map[] && id in Selected(db', q)
    ensures !SameList(db, db', q)
  {
    hide Page, Selected;
  }

  lemma WebhookCreates(db: Db, op: Op)
    requires Initial(db) && op.Webhook? && Apply(db, op).Ok?
    ensures op.Tenant() in db.tenants
    ensures op.newConversation in Selected(After(db, op), AllOf(op.Tenant(), Conversations))
  {
    hide TrimSpace, CustomerFor;
    var customer := CustomerFor(db, op.Tenant(), TrimSpace(op.externalId), TrimSpace(op.name), op.newCustomer).0.id;
    var channel := FindChannel(db, op.Tenant(), TrimSpace(op.channelKey)).value;
    assert ActiveConversations(db, op.Tenant(), customer, channel) == map[];
  }

  lemma EscalationCreates(db: Db, op: Op)
    requires op.Escalate? && Apply(db, op).Ok?
    ensures op.newTicket in Selected(After(db, op), AllOf(op.tenant, Tickets))
  {
    hide TrimSpace;
  }

  /** Main result: a new deployment with an empty Redis is exposed. Two list calls racing the first webhook leave the
      empty conversation list current; racing the first webhook and escalation, the empty ticket list. */
  lemma EmptyRedisIsExposed(db: Db, webhook: Op, escalation: Op)
    requires Initial(db) && webhook.Webhook? && Apply(db, webhook).Ok?
    ensures !CoherentAt(Interleave(NewDeployment(db), Race(AllOf(webhook.Tenant(), Conversations), [webhook])),
                        AllOf(webhook.Tenant(), Conversations))
    ensures escalation.Escalate? && Apply(After(db, webhook), escalation).Ok? ==>
              !CoherentAt(Interleave(NewDeployment(db), Race(AllOf(escalation.tenant, Tickets), [webhook, escalation])),
                          AllOf(escalation.tenant, Tickets))
  {
    hide Interleave, CoherentAt, SameList, Consistent, VersionKey, After, Race, Selected;
    InitialIsSound(db);
    WebhookCreates(db, webhook);
    var q := AllOf(webhook.Tenant(), Conversations);
    NothingListed(db, q);
    EmptyListGrows(db, After(db, webhook), q, webhook.newConversation);
    RunsOneAndTwo(db, webhook, escalation);
    MissingCounterServesStalePage(NewDeployment(db), q, [webhook]);
    if escalation.Escalate? && Apply(After(db, webhook), escalation).Ok? {
      var q' := AllOf(escalation.tenant, Tickets);
      EscalationCreates(After(db, webhook), escalation);
      NothingListed(db, q');
      EmptyListGrows(db, After(After(db, webhook), escalation), q', escalation.newTicket);
      EscalatesForTenant(db, webhook, escalation);
      MissingCounterServesStalePage(NewDeployment(db), q', [webhook, escalation]);
    }
  }

  lemma NothingListed(db: Db, q: Query)
    requires Initial(db)
    ensures Selected(db, q) == map[]
  {
  }

  lemma RunsOneAndTwo(db: Db, first: Op, second: Op)
    ensures Run(db, [first]) == After(db, first) && Run(db, [first, second]) == After(After(db, first), second)
  {
    hide After;
    assert [first][..0] == [] && [first, second][..1] == [first];
    assert Run(db, []) == db;
    assert Run(db, [first]) == After(db, first);
  }

  lemma EscalatesForTenant(db: Db, webhook: Op, escalation: Op)
    requires Initial(db) && escalation.Escalate? && Apply(After(db, webhook), escalation).Ok?
    ensures escalation.tenant in db.tenants
  {
    hide After, Apply, Tables, PlainIds;
    InitialIsSound(db);
    RunsOneAndTwo(db, webhook, escalation);
    SoundRun(db, [webhook]);
    CommitFacts(After(db, webhook), escalation);
  }
}
