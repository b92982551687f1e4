/** The fixed-window rate limiter in front of the webhook. Times are in milliseconds. */
module RateLimit {
  import opened Model
  import opened CacheKeys

  const LIMIT := 30
  const WINDOW := 60000

  /** A counter exists from its first INCR on. */
  type Positive = n: nat | n > 0 witness 1

  /** A Redis counter: absent, counting until it expires, or counting for good because its EXPIRE failed. */
  datatype Counter = Absent | Live(count: Positive, expires: nat) | Stuck(count: Positive)

  function Purged(c: Counter, now: nat): Counter {
    if c.Live? && now >= c.expires then Absent else c
  }

  /** INCR, and EXPIRE when the counter was just created. */
  function Counted(c: Counter, now: nat): Counter {
    match Purged(c, now)
    case Absent => Live(1, now + WINDOW)
    case Live(count, expires) => Live(count + 1, expires)
    case Stuck(count) => Stuck(count + 1)
  }

  predicate Admits(c: Counter, now: nat) {
    Counted(c, now).count <= LIMIT
  }

  /** The counter after calls at the given times. */
  function AfterCalls(c: Counter, times: seq<nat>): Counter {
    if times == [] then c else Counted(AfterCalls(c, times[..|times| - 1]), times[|times| - 1])
  }

  /** How many of the calls between a and b are admitted. */
  function Admitted(c: Counter, times: seq<nat>, a: nat, b: nat): nat
    decreases times
  {
    if times == [] then 0
    else (if a <= times[0] <= b && Admits(c, times[0]) then 1 else 0) + Admitted(Counted(c, times[0]), times[1..], a, b)
  }

  predicate Ascending(times: seq<nat>) {
    forall i, j | 0 <= i <= j < |times| :: times[i] <= times[j]
  }

  // ----- the bound -----

  /** How many windows can start between a and b. */
  function Starts(a: nat, b: nat): nat {
    if a > b then 0 else (b - a) / WINDOW + 1
  }

  /** The most calls between x and b that the counter can still admit. */
  function Room(c: Counter, x: nat, b: nat): nat {
    if c.Stuck? then if c.count < LIMIT then LIMIT - c.count else 0
    else if c.Live? && x < c.expires
    then (if c.count < LIMIT then LIMIT - c.count else 0) + LIMIT * Starts(c.expires, b)
    else LIMIT * Starts(x, b)
  }

  lemma StartsShrink(a: nat, a': nat, b: nat)
    requires a <= a'
    ensures Starts(a', b) <= Starts(a, b)
  {
  }

  lemma RoomShrinks(c: Counter, x: nat, t: nat, b: nat)
    requires x <= t <= b
    ensures (if Admits(c, t) then 1 else 0) + Room(Counted(c, t), t, b) <= Room(c, x, b)
  {
    if c.Stuck? || (c.Live? && t < c.expires) {
    } else {
      assert Starts(t, b) == 1 + Starts(t + WINDOW, b);
      StartsShrink(x, t, b);
      if c.Live? && x < c.expires {
        StartsShrink(c.expires, t, b);
      }
    }
  }

  lemma {:induction false} AdmittedFitsRoom(c: Counter, times: seq<nat>, a: nat, x: nat, b: nat)
    requires Ascending(times) && forall i | 0 <= i < |times| :: x <= times[i]
    ensures Admitted(c, times, a, b) <= Room(c, x, b)
    decreases times
  {
    if times == [] {
    } else {
      var t := times[0];
      assert Ascending(times[1..]);
      AdmittedFitsRoom(Counted(c, t), times[1..], a, t, b);
      if t <= b {
        RoomShrinks(c, x, t, b);
      } else {
        NothingAfter(c, times, a, b);
      }
    }
  }

  lemma {:induction false} NothingAfter(c: Counter, times: seq<nat>, a: nat, b: nat)
    requires forall i | 0 <= i < |times| :: b < times[i]
    ensures Admitted(c, times, a, b) == 0
    decreases times
  {
    if times == [] {
    } else {
      NothingAfter(Counted(c, times[0]), times[1..], a, b);
    }
  }

  /** length / WINDOW, rounded up. */
  function Windows(length: nat): nat {
    (length + WINDOW - 1) / WINDOW
  }

  /** Main result: whatever the counter's state, any interval of the given length admits at most
      30 * (ceil(length / 60 s) + 1) of any time-ordered calls. */
  lemma {:induction false} AdmissionBound(c: Counter, times: seq<nat>, a: nat, length: nat)
    requires Ascending(times)
    ensures Admitted(c, times, a, a + length) <= 30 * ((length + 59_999) / 60_000 + 1)
    decreases times
  {
    var b := a + length;
    if times != [] && times[0] < a {
      assert Ascending(times[1..]);
      AdmissionBound(Counted(c, times[0]), times[1..], a, length);
    } else {
      assert forall i | 0 <= i < |times| :: times[0] <= times[i];
      AdmittedFitsRoom(c, times, a, a, b);
      StartsWithin(a, length);
      if c.Live? && a < c.expires {
        StartsShrink(a + 1, c.expires, b);
      }
    }
  }

  lemma StartsWithin(a: nat, length: nat)
    ensures Starts(a, a + length) <= Windows(length) + 1
    ensures Starts(a + 1, a + length) <= Windows(length)
  {
  }

  // ----- rejected calls -----

  lemma {:induction false} WindowStands(c: Counter, times: seq<nat>)
    requires c.Live? && forall i | 0 <= i < |times| :: times[i] < c.expires
    ensures AfterCalls(c, times) == Live(c.count + |times|, c.expires)
  {
    if times == [] {
    } else {
      WindowStands(c, times[..|times| - 1]);
    }
  }

  /** Main result: calls inside a window, admitted or not, never move its end, and the first call at or after the
      end is admitted. */
  lemma {:induction false} WindowEndsOnTime(c: Counter, times: seq<nat>, t: nat)
    requires c.Live? && forall i | 0 <= i < |times| :: times[i] < c.expires
    ensures AfterCalls(c, times).Live? && AfterCalls(c, times).expires == c.expires
    ensures t >= c.expires ==> Admits(AfterCalls(c, times), t)
  {
    WindowStands(c, times);
  }

  function CallsSince(times: seq<nat>, from: int): nat {
    if times == [] then 0
    else CallsSince(times[..|times| - 1], from) + (if times[|times| - 1] >= from then 1 else 0)
  }

  lemma {:induction false} CallsSinceGrows(times: seq<nat>, from: int, later: int)
    requires from <= later
    ensures CallsSince(times, later) <= CallsSince(times, from)
  {
    if times == [] {
    } else {
      CallsSinceGrows(times[..|times| - 1], from, later);
    }
  }

  lemma {:induction false} CountIsCalls(times: seq<nat>)
    requires Ascending(times)
    ensures var c := AfterCalls(Absent, times);
            (c.Live? || c == Absent) && (c.Live? ==>
              && times != [] && WINDOW <= c.expires <= times[|times| - 1] + WINDOW
              && c.count <= CallsSince(times, c.expires - WINDOW))
  {
    if times == [] {
    } else {
      assert Ascending(times[..|times| - 1]);
      CountIsCalls(times[..|times| - 1]);
    }
  }

  /** Main result (no false rejection): a call is rejected only if at least 30 earlier calls came within the last
      minute. */
  lemma RejectionIsDeserved(times: seq<nat>, t: nat)
    requires Ascending(times + [t]) && !Admits(AfterCalls(Absent, times), t)
    ensures CallsSince(times, t - 60_000) >= 30
  {
    assert forall i | 0 <= i < |times| :: (times + [t])[i] == times[i];
    CountIsCalls(times);
    var c := AfterCalls(Absent, times);
    assert c.Live?;
    CallsSinceGrows(times, t - WINDOW, c.expires - WINDOW);
  }

  // ----- when Redis fails -----

  /** Both commands work; INCR fails; or INCR works and the EXPIRE of a new counter fails. */
  datatype Outcome = Works | NoIncr | NoExpire

  function Attempt(c: Counter, now: nat, outcome: Outcome): Counter {
    match outcome
    case Works => Counted(c, now)
    case NoIncr => Purged(c, now)
    case NoExpire => if Purged(c, now) == Absent then Stuck(1) else Counted(c, now)
  }

  /** CheckRateLimit gives an answer rather than an error. */
  predicate Answers(c: Counter, now: nat, outcome: Outcome) {
    outcome == Works || (outcome == NoExpire && Purged(c, now) != Absent)
  }

  datatype Call = Call(now: nat, outcome: Outcome)

  function AfterAttempts(c: Counter, calls: seq<Call>): Counter {
    if calls == [] then c
    else Attempt(AfterAttempts(c, calls[..|calls| - 1]), calls[|calls| - 1].now, calls[|calls| - 1].outcome)
  }

  /** Call k found no counter, created one, and could not set its expiry. */
  ghost predicate LosesExpiry(c: Counter, calls: seq<Call>, k: nat)
    requires k < |calls|
  {
    calls[k].outcome == NoExpire && Purged(AfterAttempts(c, calls[..k]), calls[k].now) == Absent
  }

  ghost predicate SomeLosesExpiry(calls: seq<Call>) {
    exists k | 0 <= k < |calls| :: LosesExpiry(Absent, calls, k)
  }

  lemma {:induction false} StuckIffExpiryLost(calls: seq<Call>)
    ensures AfterAttempts(Absent, calls).Stuck? <==> SomeLosesExpiry(calls)
    ensures AfterAttempts(Absent, calls).Live? ==>
              calls != [] && exists i | 0 <= i < |calls| ::
                  AfterAttempts(Absent, calls).expires == calls[i].now + WINDOW
  {
    if calls == [] {
    } else {
      var n, init := |calls| - 1, calls[..|calls| - 1];
      StuckIffExpiryLost(init);
      if SomeLosesExpiry(init) {
        var k :| 0 <= k < |init| && LosesExpiry(Absent, init, k);
        assert calls[..k] == init[..k] && LosesExpiry(Absent, calls, k);
      }
      if SomeLosesExpiry(calls) {
        var k :| 0 <= k < |calls| && LosesExpiry(Absent, calls, k);
        if k < n {
          assert calls[..k] == init[..k] && LosesExpiry(Absent, init, k);
        }
      }
      if AfterAttempts(Absent, calls).Stuck? && !AfterAttempts(Absent, init).Stuck? {
        assert LosesExpiry(Absent, calls, n);
      }
      if AfterAttempts(Absent, calls).Live? && AfterAttempts(Absent, init).Live?
         && calls[n].now < AfterAttempts(Absent, init).expires {
        var i :| 0 <= i < |init| && AfterAttempts(Absent, init).expires == init[i].now + WINDOW;
        assert calls[i] == init[i];
      }
    }
  }

  /** How many of the calls from position k on had a working INCR. */
  function IncrementsFrom(calls: seq<Call>, k: nat): nat {
    if |calls| <= k then 0
    else IncrementsFrom(calls[..|calls| - 1], k) + (if calls[|calls| - 1].outcome == NoIncr then 0 else 1)
  }

  /** From the call that lost the expiry on, the counter counts every working INCR and is never dropped. */
  lemma {:induction false} StuckCountsIncrements(calls: seq<Call>, k: nat)
    requires k < |calls| && LosesExpiry(Absent, calls, k)
    ensures AfterAttempts(Absent, calls).Stuck? && AfterAttempts(Absent, calls).count == IncrementsFrom(calls, k)
  {
    var n, init := |calls| - 1, calls[..|calls| - 1];
    if k == n {
      assert IncrementsFrom(init, k) == 0;
    } else {
      assert init[..k] == calls[..k];
      StuckCountsIncrements(init, k);
    }
  }

  /** Main result (exact condition): with Redis failing at any commands, a caller is still refused a minute after the
      last call if and only if some call created the counter and lost its EXPIRE, and at least 30 calls from that one
      on had a working INCR. */
  lemma {:induction false} RefusedIffExpiryLost(calls: seq<Call>, t: nat)
    requires forall i | 0 <= i < |calls| :: calls[i].now + 60_000 <= t
    ensures !Admits(AfterAttempts(Absent, calls), t) <==>
              exists k | 0 <= k < |calls| :: LosesExpiry(Absent, calls, k) && IncrementsFrom(calls, k) >= 30
  {
    StuckIffExpiryLost(calls);
    forall k | 0 <= k < |calls| && LosesExpiry(Absent, calls, k)
      ensures AfterAttempts(Absent, calls).Stuck? && AfterAttempts(Absent, calls).count == IncrementsFrom(calls, k)
    {
      StuckCountsIncrements(calls, k);
    }
  }

  // ----- the limiter -----

  /** The counters Redis keeps for the rate limiter. */
  class Limiter {
    var counters: map<string, Counter>

    ghost function Of(key: string): Counter
      reads this
    {
      if key in counters then counters[key] else Absent
    }

    /** None stands for an error. Redis drops an expired counter on its own. */
    method CheckRateLimit(key: string, now: nat, outcome: Outcome) returns (allowed: Option<bool>)
      modifies this
      ensures allowed == if Answers(old(Of(key)), now, outcome) then Some(Admits(old(Of(key)), now)) else None
      ensures Of(key) == Attempt(old(Of(key)), now, outcome)
      ensures forall other: string | other != key :: Of(other) == old(Of(other))
    {
      if key in counters && counters[key].Live? && now >= counters[key].expires {
        counters := counters - {key};
      }
      if outcome == NoIncr { return None; }
      var count := 1;
      if key in counters && counters[key].Live? {
        count := counters[key].count + 1;
        counters := counters[key := Live(count, counters[key].expires)];
      } else if key in counters && counters[key].Stuck? {
        count := counters[key].count + 1;
        counters := counters[key := Stuck(count)];
      } else {
        counters := counters[key := Stuck(1)];
      }
      if count == 1 {
        if outcome == NoExpire { return None; }
        counters := counters[key := Live(1, now + WINDOW)];
      }
      allowed := Some(count <= LIMIT);
    }

    /** AllowWebhook: an error of the limiter admits the call. */
    method AllowWebhook(tenant: Id, address: string, now: nat, outcome: Outcome) returns (r: Result<()>)
      modifies this
      ensures tenant == "" ==> r == Err(InvalidTenant) && counters == old(counters)
      ensures tenant != "" ==>
                var key := Key(["tenant", tenant, "webhook", "rate", address]);
                && r == (if Answers(old(Of(key)), now, outcome) && !Admits(old(Of(key)), now)
                         then Err(RateLimited) else Ok(()))
                && Of(key) == Attempt(old(Of(key)), now, outcome)
    {
      if tenant == "" {
        return Err(InvalidTenant);
      }
      var allowed := CheckRateLimit(Key(["tenant", tenant, "webhook", "rate", address]), now, outcome);
      if allowed.None? {
        return Ok(());
      }
      if !allowed.value {
        return Err(RateLimited);
      }
      return Ok(());
    }
  }
}
