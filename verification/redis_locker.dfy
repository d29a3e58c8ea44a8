/** The second, simpler locker used by the user agent: it writes a constant
    value instead of a holder token, waits for a lock by polling with a fixed
    backoff until a timeout, and releases by deleting the key outright. Unlike
    the lock manager it does not catch store errors: they reach its caller. */
module RedisLocker {
  import opened KeyValueStore

  /** The value written under every key this locker takes. */
  const LockedValue: string := "locked"
  const DefaultTtlSeconds: int := 5
  const DefaultTimeoutMs: int := 5000
  /** The pause after a failed attempt whose deadline has not passed. */
  const BackoffMs: int := 200

  /** One `SET key "locked" NX EX ttl`. */
  function TryLock(s: Store, key: string, ttlSeconds: int): (r: (Reply<bool>, Store))
    ensures r.0 == Fault <==> !Accepts(s, ttlSeconds)
    ensures r.0 == Ok(true) <==> Accepts(s, ttlSeconds) && key !in s.entries
    ensures r.0 == Ok(true) ==> r.1 == s.(entries := s.entries[key := Entry(LockedValue, ttlSeconds)])
    ensures r.0 != Ok(true) ==> r.1 == s
  {
    SetIfAbsent(s, key, LockedValue, ttlSeconds)
  }

  /** `DEL key`, whoever set it. */
  function ReleaseLock(s: Store, key: string): (r: (Reply<()>, Store))
    ensures r.0.Ok? <==> s.online
    ensures r.0.Ok? ==> key !in r.1.entries && r.1.entries == s.entries - {key} && r.1.online
    ensures r.0.Fault? ==> r.1 == s
  {
    var (reply, s') := Delete(s, key);
    match reply
    case Ok(_) => (Ok(()), s')
    case Fault => (Fault, s)
  }

  /** Unlike the token-checked release of the lock manager, this release
      removes a lock that someone else holds. */
  lemma ReleaseIgnoresHolder(s: Store, key: string, holder: string)
    requires s.online && HeldBy(s, key, holder) && holder != LockedValue
    ensures ReleaseLock(s, key).0 == Ok(())
    ensures key !in ReleaseLock(s, key).1.entries
  {
  }

  /** Releasing a key just taken puts the store back as it was, and the key
      can be taken again. */
  lemma TryLockReleaseRoundTrip(s: Store, key: string, ttlSeconds: int)
    requires TryLock(s, key, ttlSeconds).0 == Ok(true)
    ensures var s1 := TryLock(s, key, ttlSeconds).1;
            ReleaseLock(s1, key) == (Ok(()), s)
    ensures TryLock(ReleaseLock(TryLock(s, key, ttlSeconds).1, key).1, key, ttlSeconds).0 == Ok(true)
  {
    var s1 := TryLock(s, key, ttlSeconds).1;
    assert s1.entries - {key} == s.entries;
  }

  /** What the caller cannot control while it waits: the clock, read once at
      the start (reading 0) and once after each failed attempt (reading k
      after attempt k), and what other processes and key expiry do to the
      store during the pause that follows reading k. */
  datatype World = World(clock: nat -> int, drift: (nat, Store) -> Store)

  /** The clock never runs backwards, and a pause lasts at least the backoff:
      from reading 1 on, readings `i <= j` are at least `j - i` backoffs apart. */
  ghost predicate Advances(w: World) {
    && w.clock(0) <= w.clock(1)
    && forall i: nat, j: nat :: 1 <= i <= j ==> w.clock(i) + BackoffMs * (j - i) <= w.clock(j)
  }

  /** Nothing but the caller touches the store. */
  ghost predicate Quiet(w: World) {
    forall i: nat, st: Store :: w.drift(i, st) == st
  }

  /** How a wait ended: the last reply, the store after it, the number of
      attempts made, and the store each attempt ran on. */
  datatype Wait = Wait(reply: Reply<bool>, store: Store, attempts: nat, seen: seq<Store>)

  /** Attempt `j` of those recorded in `seen` (which start at attempt
      `k + 1`) failed, and the next one ran on the store the world left after it. */
  predicate RetriedAfter(seen: seq<Store>, j: int, key: string, ttlSeconds: int, w: World, k: nat)
    requires 0 <= j < |seen| - 1
  {
    TryLock(seen[j], key, ttlSeconds).0 == Ok(false) && seen[j + 1] == w.drift(k + j + 1, seen[j])
  }

  /** A failed attempt on `s` followed by a recorded run of retries from the
      store the world left after it is a recorded run of retries from `s`. */
  lemma RetriedCons(s: Store, later: seq<Store>, seen: seq<Store>, key: string, ttlSeconds: int, w: World, k: nat, next: nat)
    requires next == k + 1
    requires TryLock(s, key, ttlSeconds).0 == Ok(false)
    requires |later| > 0 && later[0] == w.drift(next, TryLock(s, key, ttlSeconds).1)
    requires forall j :: 0 <= j < |later| - 1 ==> RetriedAfter(later, j, key, ttlSeconds, w, next)
    requires seen == [s] + later
    ensures forall j :: 0 <= j < |seen| - 1 ==> RetriedAfter(seen, j, key, ttlSeconds, w, k)
  {
    forall j | 0 <= j < |seen| - 1 ensures RetriedAfter(seen, j, key, ttlSeconds, w, k) {
      if j > 0 {
        assert RetriedAfter(later, j - 1, key, ttlSeconds, w, next);
      }
    }
  }

  /** Time left before the deadline at clock reading `k`. */
  function Slack(w: World, timeoutMs: int, k: nat): int {
    w.clock(0) + timeoutMs - w.clock(k)
  }

  /** The wait from attempt `k + 1` on, on store `s`: try; stop on success,
      on an error, or when the clock read after a failure shows the timeout
      reached; otherwise pause and try again. */
  function Poll(s: Store, key: string, ttlSeconds: int, timeoutMs: int, w: World, k: nat): (r: Wait)
    requires Advances(w)
    requires k == 0 || 0 < Slack(w, timeoutMs, k)
    decreases if k == 0 then 1 else 0, Slack(w, timeoutMs, k)
    ensures k < r.attempts && |r.seen| == r.attempts - k && r.seen[0] == s
  {
    var (reply, next) := TryLock(s, key, ttlSeconds);
    if reply != Ok(false) || Slack(w, timeoutMs, k + 1) <= 0 then Wait(reply, next, k + 1, [s])
    else
      var rest := Poll(w.drift(k + 1, next), key, ttlSeconds, timeoutMs, w, k + 1);
      rest.(seen := [s] + rest.seen)
  }

  /** Every attempt of a wait but the last was refused and followed by the
      world's pause, and the wait answers what its last attempt answered. */
  lemma {:induction false} PollRetries(s: Store, key: string, ttlSeconds: int, timeoutMs: int, w: World, k: nat)
    requires Advances(w)
    requires k == 0 || 0 < Slack(w, timeoutMs, k)
    decreases if k == 0 then 1 else 0, Slack(w, timeoutMs, k)
    ensures var r := Poll(s, key, ttlSeconds, timeoutMs, w, k);
            && (forall j :: 0 <= j < |r.seen| - 1 ==> RetriedAfter(r.seen, j, key, ttlSeconds, w, k))
            && TryLock(r.seen[|r.seen| - 1], key, ttlSeconds) == (r.reply, r.store)
  {
    var (reply, next) := TryLock(s, key, ttlSeconds);
    if reply == Ok(false) && 0 < Slack(w, timeoutMs, k + 1) {
      var rest := Poll(w.drift(k + 1, next), key, ttlSeconds, timeoutMs, w, k + 1);
      PollRetries(w.drift(k + 1, next), key, ttlSeconds, timeoutMs, w, k + 1);
      RetriedCons(s, rest.seen, [s] + rest.seen, key, ttlSeconds, w, k, k + 1);
      assert Poll(s, key, ttlSeconds, timeoutMs, w, k) == rest.(seen := [s] + rest.seen);
    }
  }

  /** A wait gives up only once the clock read after a refused attempt shows
      the timeout reached, and every earlier reading was before it. */
  lemma {:induction false} PollDeadline(s: Store, key: string, ttlSeconds: int, timeoutMs: int, w: World, k: nat)
    requires Advances(w)
    requires k == 0 || 0 < Slack(w, timeoutMs, k)
    decreases if k == 0 then 1 else 0, Slack(w, timeoutMs, k)
    ensures var r := Poll(s, key, ttlSeconds, timeoutMs, w, k);
            && (r.reply == Ok(false) ==> Slack(w, timeoutMs, r.attempts) <= 0)
            && forall j :: k < j < r.attempts ==> 0 < Slack(w, timeoutMs, j)
  {
    var (reply, next) := TryLock(s, key, ttlSeconds);
    if reply == Ok(false) && 0 < Slack(w, timeoutMs, k + 1) {
      PollDeadline(w.drift(k + 1, next), key, ttlSeconds, timeoutMs, w, k + 1);
    }
  }

  /** The most attempts a wait can make: one, plus one per backoff that fits
      before the deadline. */
  function MaxAttempts(timeoutMs: int): nat {
    if timeoutMs <= 0 then 1 else (timeoutMs + BackoffMs - 1) / BackoffMs + 1
  }

  /** A wait ends: it makes at most `MaxAttempts(timeoutMs)` attempts when
      each pause lasts at least the backoff. */
  lemma PollAttemptsBounded(s: Store, key: string, ttlSeconds: int, timeoutMs: int, w: World)
    requires Advances(w)
    ensures Poll(s, key, ttlSeconds, timeoutMs, w, 0).attempts <= MaxAttempts(timeoutMs)
  {
    var n := Poll(s, key, ttlSeconds, timeoutMs, w, 0).attempts;
    PollDeadline(s, key, ttlSeconds, timeoutMs, w, 0);
    if n >= 2 {
      assert 0 < Slack(w, timeoutMs, n - 1);
      assert w.clock(0) <= w.clock(1);
      assert w.clock(1) + BackoffMs * (n - 2) <= w.clock(n - 1);
      var q := (timeoutMs + BackoffMs - 1) / BackoffMs;
      assert BackoffMs * (n - 1) < timeoutMs + BackoffMs;
      assert timeoutMs + BackoffMs - 1 < BackoffMs * (q + 1);
    }
  }

  /** In a world where nothing else happens, waiting adds nothing to one
      attempt: the outcome and the store are those of the first try. */
  lemma {:induction false} QuietPollIsOneTry(s: Store, key: string, ttlSeconds: int, timeoutMs: int, w: World, k: nat)
    requires Advances(w) && Quiet(w)
    requires k == 0 || 0 < Slack(w, timeoutMs, k)
    decreases if k == 0 then 1 else 0, Slack(w, timeoutMs, k)
    ensures var r := Poll(s, key, ttlSeconds, timeoutMs, w, k);
            (r.reply, r.store) == TryLock(s, key, ttlSeconds)
  {
    var (reply, next) := TryLock(s, key, ttlSeconds);
    if reply == Ok(false) && 0 < Slack(w, timeoutMs, k + 1) {
      assert w.drift(k + 1, next) == s;
      QuietPollIsOneTry(s, key, ttlSeconds, timeoutMs, w, k + 1);
    }
  }

  /** At least one attempt is made even when the timeout is already spent,
      and its success is reported: the deadline is only looked at after a
      failed attempt. */
  lemma FirstAttemptAlwaysMade(s: Store, key: string, ttlSeconds: int, timeoutMs: int, w: World)
    requires Advances(w) && timeoutMs <= 0
    requires Accepts(s, ttlSeconds) && key !in s.entries
    ensures Poll(s, key, ttlSeconds, timeoutMs, w, 0).reply == Ok(true)
  {
  }

  lemma AppendAssoc(a: seq<Store>, b: seq<Store>, c: seq<Store>)
    ensures a + (b + c) == (a + b) + c
  {
  }

  /** One more turn of the loop: after a refused attempt on `cur` with time
      left, the wait from `s` is the attempts so far, `cur`, and the wait
      from the store the world leaves after the pause. */
  lemma PollContinues(s: Store, cur: Store, seen: seq<Store>, key: string, ttlSeconds: int, timeoutMs: int, w: World, k: nat)
    requires Advances(w)
    requires k == 0 || 0 < Slack(w, timeoutMs, k)
    requires TryLock(cur, key, ttlSeconds).0 == Ok(false) && 0 < Slack(w, timeoutMs, k + 1)
    requires var p := Poll(cur, key, ttlSeconds, timeoutMs, w, k);
             Poll(s, key, ttlSeconds, timeoutMs, w, 0) == p.(seen := seen + p.seen)
    ensures var p := Poll(w.drift(k + 1, TryLock(cur, key, ttlSeconds).1), key, ttlSeconds, timeoutMs, w, k + 1);
            Poll(s, key, ttlSeconds, timeoutMs, w, 0) == p.(seen := (seen + [cur]) + p.seen)
    ensures k == 0 || Slack(w, timeoutMs, k + 1) < Slack(w, timeoutMs, k)
  {
    var rest := Poll(w.drift(k + 1, TryLock(cur, key, ttlSeconds).1), key, ttlSeconds, timeoutMs, w, k + 1);
    assert Poll(cur, key, ttlSeconds, timeoutMs, w, k) == rest.(seen := [cur] + rest.seen);
    AppendAssoc(seen, [cur], rest.seen);
    assert k == 0 || w.clock(k) + BackoffMs * 1 <= w.clock(k + 1);
  }

  /** The polling loop of `waitForLock`. A reply `Ok(false)` is the timeout;
      `Fault` is a store error that the caller receives as an exception. */
  method WaitForLock(s: Store, key: string, ttlSeconds: int, timeoutMs: int, w: World) returns (r: Wait)
    requires Advances(w)
    ensures r == Poll(s, key, ttlSeconds, timeoutMs, w, 0)
    ensures 1 <= r.attempts <= MaxAttempts(timeoutMs)
    ensures |r.seen| == r.attempts && r.seen[0] == s
    ensures forall j :: 0 <= j < r.attempts - 1 ==> RetriedAfter(r.seen, j, key, ttlSeconds, w, 0)
    ensures TryLock(r.seen[r.attempts - 1], key, ttlSeconds) == (r.reply, r.store)
    ensures r.reply == Ok(false) ==> timeoutMs <= w.clock(r.attempts) - w.clock(0)
    ensures forall j :: 0 < j < r.attempts ==> w.clock(j) - w.clock(0) < timeoutMs
  {
    r := WaitLoop(s, key, ttlSeconds, timeoutMs, w);
    PollAttemptsBounded(s, key, ttlSeconds, timeoutMs, w);
    PollRetries(s, key, ttlSeconds, timeoutMs, w, 0);
    PollDeadline(s, key, ttlSeconds, timeoutMs, w, 0);
    forall j | 0 < j < r.attempts ensures w.clock(j) - w.clock(0) < timeoutMs {
      assert 0 < Slack(w, timeoutMs, j);
    }
  }

  /** The `while (true)` loop itself, computing what `Poll` defines. */
  method WaitLoop(s: Store, key: string, ttlSeconds: int, timeoutMs: int, w: World) returns (r: Wait)
    requires Advances(w)
    ensures r == Poll(s, key, ttlSeconds, timeoutMs, w, 0)
  {
    var start := w.clock(0);
    var cur := s;
    var k: nat := 0;
    var seen: seq<Store> := [];
    while true
      invariant |seen| == k
      invariant k == 0 || 0 < Slack(w, timeoutMs, k)
      invariant var p := Poll(cur, key, ttlSeconds, timeoutMs, w, k);
                Poll(s, key, ttlSeconds, timeoutMs, w, 0) == p.(seen := seen + p.seen)
      decreases if k == 0 then 1 else 0, Slack(w, timeoutMs, k)
    {
      var (reply, next) := TryLock(cur, key, ttlSeconds);
      if reply != Ok(false) || w.clock(k + 1) - start >= timeoutMs {
        assert Poll(cur, key, ttlSeconds, timeoutMs, w, k) == Wait(reply, next, k + 1, [cur]);
        r := Wait(reply, next, k + 1, seen + [cur]);
        return;
      }
      PollContinues(s, cur, seen, key, ttlSeconds, timeoutMs, w, k);
      seen := seen + [cur];
      cur := w.drift(k + 1, next);
      k := k + 1;
    }
  }
}
