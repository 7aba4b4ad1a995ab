/** The sliding-window limiter: a pruned list per key against the full log of admitted requests. */
module Limiter {

  datatype LimitResult = LimitResult(allowed: bool, remaining: int, reset: int)

  /** A request of a key, at a clock reading in nanoseconds. */
  datatype Call = Call(key: string, at: int)

  type Requests = map<string, seq<int>>

  const SECOND: int := 1_000_000_000

  /** What is left of a list after its expired head is dropped. */
  function Pruned(times: seq<int>, cutoff: int): seq<int> {
    if times == [] || times[0] > cutoff then times else Pruned(times[1..], cutoff)
  }

  function Stored(requests: Requests, key: string): seq<int> {
    if key in requests then requests[key] else []
  }

  function WholeSeconds(duration: int): int {
    duration / SECOND
  }

  /** Whole seconds announced when the oldest request leaves the window `ahead` nanoseconds from now. */
  function ResetAfter(ahead: int): int {
    var reset := WholeSeconds(ahead) + 1;
    if reset < 1 then 1 else reset
  }

  /** The list kept for the key of a request. */
  function Kept(limit: int, window: int, times: seq<int>, now: int): seq<int> {
    var live := Pruned(times, now - window);
    if |live| >= limit then live else live + [now]
  }

  /** The answer to a request. */
  function Answer(limit: int, window: int, times: seq<int>, now: int): LimitResult
    requires limit >= 1
  {
    var live := Pruned(times, now - window);
    if |live| >= limit then LimitResult(false, 0, ResetAfter(live[0] + window - now))
    else LimitResult(true, limit - |live| - 1, WholeSeconds(window))
  }

  class Limiter {
    const limit: int
    const window: int
    var requests: Requests

    constructor (limit: int, window: int)
      requires limit >= 1 && window >= 1
      ensures this.limit == limit && this.window == window && requests == map[]
    {
      this.limit, this.window, requests := limit, window, map[];
    }

    method Allow(key: string, now: int) returns (result: LimitResult)
      requires limit >= 1 && window >= 1
      modifies this`requests
      ensures result == Answer(limit, window, Stored(old(requests), key), now)
      ensures requests == old(requests)[key := Kept(limit, window, Stored(old(requests), key), now)]
    {
      var cutoff := now - window;
      var times := if key in requests then requests[key] else [];
      var first := 0;
      while first < |times| && times[first] <= cutoff
        invariant 0 <= first <= |times|
        invariant Pruned(times, cutoff) == Pruned(times[first..], cutoff)
      {
        first := first + 1;
      }
      times := times[first..];
      if |times| >= limit {
        var reset := (times[0] + window - now) / SECOND + 1;
        if reset < 1 {
          reset := 1;
        }
        requests := requests[key := times];
        return LimitResult(false, 0, reset);
      }
      times := times + [now];
      requests := requests[key := times];
      return LimitResult(true, limit - |times|, window / SECOND);
    }
  }

  // --- Whole histories -----------------------------------------------------------------------

  /** A list of calls, the latest one outermost: a history of calls, or a log of admitted ones. */
  datatype Log = Empty | Then(before: Log, call: Call)

  /** The state of the limiter after a history of calls. */
  function After(limit: int, window: int, calls: Log): Requests {
    match calls
    case Empty => map[]
    case Then(before, c) =>
      var requests := After(limit, window, before);
      requests[c.key := Kept(limit, window, Stored(requests, c.key), c.at)]
  }

  function Verdict(limit: int, window: int, calls: Log, key: string, now: int): LimitResult
    requires limit >= 1
  {
    Answer(limit, window, Stored(After(limit, window, calls), key), now)
  }

  /** The entries of a log that belong to `key` and are later than `cutoff`, in order. */
  function InWindow(log: Log, key: string, cutoff: int): seq<int> {
    match log
    case Empty => []
    case Then(before, c) =>
      if c.key == key && c.at > cutoff then InWindow(before, key, cutoff) + [c.at] else InWindow(before, key, cutoff)
  }

  /** The reference: a log that is never pruned; a request is admitted when fewer than `limit` requests
      of its key were admitted in the window that ends with it. */
  function Admitted(limit: int, window: int, calls: Log): Log {
    match calls
    case Empty => Empty
    case Then(before, c) =>
      var log := Admitted(limit, window, before);
      if |InWindow(log, c.key, c.at - window)| < limit then Then(log, c) else log
  }

  predicate NotAfter(calls: Log, t: int) {
    calls.Then? ==> calls.call.at <= t
  }

  /** Clock readings never decrease. */
  predicate Clocked(calls: Log) {
    calls.Then? ==> Clocked(calls.before) && NotAfter(calls.before, calls.call.at)
  }

  lemma {:induction false} PrunedTwice(times: seq<int>, first: int, second: int)
    requires first <= second
    ensures Pruned(Pruned(times, first), second) == Pruned(times, second)
  {
    if times != [] && times[0] <= first {
      PrunedTwice(times[1..], first, second);
    }
  }

  lemma {:induction false} PrunedAppend(times: seq<int>, t: int, cutoff: int)
    requires forall x | x in times :: x <= t
    ensures Pruned(times + [t], cutoff) == if t > cutoff then Pruned(times, cutoff) + [t] else Pruned(times, cutoff)
  {
    if times == [] {
      assert times + [t] == [t] && [t][1..] == [];
    } else {
      assert times[0] in times;
      if times[0] <= cutoff {
        assert (times + [t])[1..] == times[1..] + [t];
        assert forall x | x in times[1..] :: x in times;
        PrunedAppend(times[1..], t, cutoff);
      }
    }
  }

  lemma {:induction false} WindowBounded(log: Log, key: string, cutoff: int, bound: int)
    requires Clocked(log) && NotAfter(log, bound)
    ensures forall x | x in InWindow(log, key, cutoff) :: cutoff < x <= bound
  {
    if log.Then? {
      WindowBounded(log.before, key, cutoff, log.call.at);
    }
  }

  lemma {:induction false} AdmittedClocked(limit: int, window: int, calls: Log, bound: int)
    requires Clocked(calls) && NotAfter(calls, bound)
    ensures Clocked(Admitted(limit, window, calls)) && NotAfter(Admitted(limit, window, calls), bound)
  {
    if calls.Then? {
      AdmittedClocked(limit, window, calls.before, calls.call.at);
    }
  }

  /** One call: if the list was the window before it, it is the window after it, at any later time. */
  lemma KeptIsWindow(limit: int, window: int, log: Log, stored: seq<int>, key: string, at: int, now: int)
    requires at <= now && Clocked(log) && NotAfter(log, at)
    requires Pruned(stored, at - window) == InWindow(log, key, at - window)
    requires Pruned(stored, now - window) == InWindow(log, key, now - window)
    ensures var log' := if |InWindow(log, key, at - window)| < limit then Then(log, Call(key, at)) else log;
      Pruned(Kept(limit, window, stored, at), now - window) == InWindow(log', key, now - window)
  {
    var live := Pruned(stored, at - window);
    PrunedTwice(stored, at - window, now - window);
    WindowBounded(log, key, at - window, at);
    PrunedAppend(live, at, now - window);
  }

  /** The pruned list refines the full log: pruned once more at `now`, it is exactly the admitted
      requests of its key later than now - window. */
  lemma {:induction false} PrunedListIsWindow(limit: int, window: int, calls: Log, key: string, now: int)
    requires Clocked(calls) && NotAfter(calls, now)
    ensures Pruned(Stored(After(limit, window, calls), key), now - window)
         == InWindow(Admitted(limit, window, calls), key, now - window)
  {
    if calls.Then? {
      var before, c := calls.before, calls.call;
      PrunedListIsWindow(limit, window, before, key, now);
      if c.key == key {
        PrunedListIsWindow(limit, window, before, key, c.at);
        AdmittedClocked(limit, window, before, c.at);
        KeptIsWindow(limit, window, Admitted(limit, window, before), Stored(After(limit, window, before), key), key,
                     c.at, now);
      }
    }
  }

  // --- Safety --------------------------------------------------------------------------------

  /** Admitted requests of `key` in the real interval (lo, hi]. */
  function CountBetween(log: Log, key: string, lo: real, hi: real): nat {
    match log
    case Empty => 0
    case Then(before, c) =>
      CountBetween(before, key, lo, hi) + (if c.key == key && lo < c.at as real <= hi then 1 else 0)
  }

  lemma {:induction false} CountWithinWindow(log: Log, key: string, lo: real, hi: real, cutoff: int)
    requires cutoff as real <= lo
    ensures CountBetween(log, key, lo, hi) <= |InWindow(log, key, cutoff)|
  {
    if log.Then? {
      CountWithinWindow(log.before, key, lo, hi, cutoff);
    }
  }

  /** In every interval of the window's length, placed anywhere on the time line, at most `limit`
      requests of a key are admitted, over any history and whatever other keys do. */
  lemma {:induction false} AtMostLimitPerWindow(limit: int, window: int, calls: Log, key: string, a: real)
    requires limit >= 1 && window >= 1
    ensures CountBetween(Admitted(limit, window, calls), key, a, a + window as real) <= limit
  {
    if calls.Then? {
      var c := calls.call;
      AtMostLimitPerWindow(limit, window, calls.before, key, a);
      if c.key == key && a < c.at as real <= a + window as real {
        CountWithinWindow(Admitted(limit, window, calls.before), key, a, a + window as real, c.at - window);
      }
    }
  }

  lemma {:induction false} CountIsWindow(log: Log, key: string, now: int, window: int)
    requires Clocked(log) && NotAfter(log, now)
    ensures CountBetween(log, key, (now - window) as real, now as real) == |InWindow(log, key, now - window)|
  {
    if log.Then? {
      CountIsWindow(log.before, key, now, window);
    }
  }

  lemma WindowNeverOverfull(limit: int, window: int, calls: Log, key: string, now: int)
    requires limit >= 1 && window >= 1 && Clocked(calls) && NotAfter(calls, now)
    ensures |InWindow(Admitted(limit, window, calls), key, now - window)| <= limit
  {
    AdmittedClocked(limit, window, calls, now);
    CountIsWindow(Admitted(limit, window, calls), key, now, window);
    AtMostLimitPerWindow(limit, window, calls, key, (now - window) as real);
    assert (now - window) as real + window as real == now as real;
  }

  /** Every answer is the log's: denied exactly when `limit` requests are in the window, and otherwise
      `remaining` is what the window still has room for after this request, and the announced
      reset the window in whole seconds. */
  lemma VerdictMatchesLog(limit: int, window: int, calls: Log, key: string, now: int)
    requires limit >= 1 && window >= 1 && Clocked(calls) && NotAfter(calls, now)
    ensures var verdict := Verdict(limit, window, calls, key, now);
      var count := |InWindow(Admitted(limit, window, calls), key, now - window)|;
      count <= limit && verdict.allowed == (count < limit)
      && verdict.remaining == (if verdict.allowed then limit - count - 1 else 0)
      && (verdict.allowed ==> verdict.reset * 1_000_000_000 <= window < (verdict.reset + 1) * 1_000_000_000)
  {
    PrunedListIsWindow(limit, window, calls, key, now);
    WindowNeverOverfull(limit, window, calls, key, now);
  }

  /** Right after a call, the stored list of its key is the window of the log, and never too long. */
  lemma StoredIsWindow(limit: int, window: int, calls: Log, key: string, now: int)
    requires limit >= 1 && window >= 1 && Clocked(calls) && NotAfter(calls, now)
    ensures var all := Then(calls, Call(key, now));
      && Stored(After(limit, window, all), key) == InWindow(Admitted(limit, window, all), key, now - window)
      && |Stored(After(limit, window, all), key)| <= limit
  {
    PrunedListIsWindow(limit, window, calls, key, now);
    WindowNeverOverfull(limit, window, calls, key, now);
  }

  function OnlyKey(log: Log, key: string): Log {
    match log
    case Empty => Empty
    case Then(before, c) => if c.key == key then Then(OnlyKey(before, key), c) else OnlyKey(before, key)
  }

  lemma {:induction false} WindowOfKey(log: Log, key: string, cutoff: int)
    ensures InWindow(OnlyKey(log, key), key, cutoff) == InWindow(log, key, cutoff)
  {
    if log.Then? {
      WindowOfKey(log.before, key, cutoff);
    }
  }

  /** Keys do not influence each other: a key's admitted requests are those it would have had alone. */
  lemma {:induction false} KeysAreIndependent(limit: int, window: int, calls: Log, key: string)
    ensures OnlyKey(Admitted(limit, window, calls), key) == Admitted(limit, window, OnlyKey(calls, key))
  {
    if calls.Then? {
      KeysAreIndependent(limit, window, calls.before, key);
      WindowOfKey(Admitted(limit, window, calls.before), key, calls.call.at - window);
    }
  }

  // --- The reset time ------------------------------------------------------------------------

  /** `calls` is `base` followed by further calls. */
  predicate Extends(calls: Log, base: Log) {
    calls == base || (calls.Then? && Extends(calls.before, base))
  }

  lemma {:induction false} LaterWindow(log: Log, key: string, cutoff: int, later: int)
    requires cutoff <= later && Clocked(log)
    ensures InWindow(log, key, later) == Pruned(InWindow(log, key, cutoff), later)
  {
    if log.Then? {
      LaterWindow(log.before, key, cutoff, later);
      WindowBounded(log.before, key, cutoff, log.call.at);
      PrunedAppend(InWindow(log.before, key, cutoff), log.call.at, later);
    }
  }

  lemma {:induction false} PrunedShorter(times: seq<int>, cutoff: int)
    ensures |Pruned(times, cutoff)| <= |times|
  {
    if times != [] {
      PrunedShorter(times[1..], cutoff);
    }
  }

  /** While the log of a key does not grow, its window at a later time has a full list exactly until
      the oldest entry leaves it. */
  lemma FullUntilOldestLeaves(limit: int, window: int, log: Log, key: string, now: int, retry: int)
    requires limit >= 1 && Clocked(log) && now <= retry
    requires |InWindow(log, key, now - window)| == limit
    ensures |InWindow(log, key, retry - window)| < limit <==> retry >= InWindow(log, key, now - window)[0] + window
  {
    var live := InWindow(log, key, now - window);
    LaterWindow(log, key, now - window, retry - window);
    PrunedShorter(live[1..], retry - window);
  }

  lemma ResetRounds(ahead: int)
    requires ahead > 0
    ensures (ResetAfter(ahead) - 1) * SECOND <= ahead < ResetAfter(ahead) * SECOND
    ensures ResetAfter(ahead) == WholeSeconds(ahead) + 1 >= 1
  {
  }

  lemma OldestBounded(log: Log, key: string, cutoff: int, bound: int)
    requires Clocked(log) && NotAfter(log, bound) && InWindow(log, key, cutoff) != []
    ensures cutoff < InWindow(log, key, cutoff)[0] <= bound
  {
    WindowBounded(log, key, cutoff, bound);
    assert InWindow(log, key, cutoff)[0] in InWindow(log, key, cutoff);
  }

  /** A denied request finds a full window, and announces when its oldest entry leaves it; the
      announcement is positive without the code's lower bound. */
  lemma DenialReset(limit: int, window: int, calls: Log, key: string, now: int)
    requires limit >= 1 && window >= 1 && Clocked(calls) && NotAfter(calls, now)
    requires !Verdict(limit, window, calls, key, now).allowed
    ensures var live := InWindow(Admitted(limit, window, calls), key, now - window);
      && |live| == limit && live[0] + window > now
      && Verdict(limit, window, calls, key, now).reset == WholeSeconds(live[0] + window - now) + 1 >= 1
  {
    var log := Admitted(limit, window, calls);
    VerdictMatchesLog(limit, window, calls, key, now);
    PrunedListIsWindow(limit, window, calls, key, now);
    AdmittedClocked(limit, window, calls, now);
    OldestBounded(log, key, now - window, now);
    ResetRounds(InWindow(log, key, now - window)[0] + window - now);
  }

  lemma SameWindow(log: Log, other: Log, key: string, cutoff: int)
    requires OnlyKey(log, key) == OnlyKey(other, key)
    ensures InWindow(log, key, cutoff) == InWindow(other, key, cutoff)
  {
    WindowOfKey(log, key, cutoff);
    WindowOfKey(other, key, cutoff);
  }

  /** As long as no request of the key is admitted in between, a retry is admitted exactly when the
      oldest request of the full window has left it. */
  lemma RetryAfterDenial(limit: int, window: int, calls: Log, key: string, now: int, history: Log, retry: int)
    requires limit >= 1 && window >= 1 && Clocked(calls) && NotAfter(calls, now)
    requires |InWindow(Admitted(limit, window, calls), key, now - window)| == limit
    requires Clocked(history) && NotAfter(history, retry) && now <= retry
    requires OnlyKey(Admitted(limit, window, history), key) == OnlyKey(Admitted(limit, window, calls), key)
    ensures Verdict(limit, window, history, key, retry).allowed
      <==> retry >= InWindow(Admitted(limit, window, calls), key, now - window)[0] + window
  {
    var log := Admitted(limit, window, calls);
    VerdictMatchesLog(limit, window, history, key, retry);
    AdmittedClocked(limit, window, calls, now);
    FullUntilOldestLeaves(limit, window, log, key, now, retry);
    SameWindow(log, Admitted(limit, window, history), key, retry - window);
  }

  /** A denial's reset time is sound and tight: after any further calls of which none of this key is
      admitted, a retry `reset` whole seconds later is admitted, one sooner than `reset - 1` seconds is
      not. */
  lemma ResetSoundAndTight(limit: int, window: int, calls: Log, key: string, now: int, history: Log, retry: int)
    requires limit >= 1 && window >= 1 && Clocked(calls) && NotAfter(calls, now)
    requires !Verdict(limit, window, calls, key, now).allowed
    requires Extends(history, Then(calls, Call(key, now))) && Clocked(history) && NotAfter(history, retry)
      && now <= retry
    requires OnlyKey(Admitted(limit, window, history), key) == OnlyKey(Admitted(limit, window, calls), key)
    ensures var reset := Verdict(limit, window, calls, key, now).reset;
      var again := Verdict(limit, window, history, key, retry).allowed;
      && (retry >= now + reset * SECOND ==> again)
      && (retry < now + (reset - 1) * SECOND ==> !again)
  {
    DenialReset(limit, window, calls, key, now);
    RetryAfterDenial(limit, window, calls, key, now, history, retry);
    ResetRounds(InWindow(Admitted(limit, window, calls), key, now - window)[0] + window - now);
  }
}
