/**
 * The sliding-window rate limiter that guards the model API: a list of call
 * times, pruned to the window and appended to on every call, with a sleep
 * when the window is full. Times are integer milliseconds; the clock
 * readings before and after the sleep are parameters.
 */
module RateLimiting {

  /** `max_calls` default: the Pro quota of 360 calls. */
  const DefaultMaxCalls: int := 360
  /** `period` default: 60 seconds. */
  const DefaultPeriod: int := 60000
  /** The extra 0.1 seconds added to every wait. */
  const Margin: int := 100

  /** The global limiter's quota: 350 calls, ten below the Pro quota. */
  const GeminiMaxCalls: int := 350
  /** The global limiter's window: 60 seconds. */
  const GeminiPeriod: int := 60000

  /** `[t for t in calls if now - t < period]` */
  function Prune(calls: seq<int>, now: int, period: int): (r: seq<int>)
    ensures |r| <= |calls|
    ensures forall k :: 0 <= k < |r| ==> now - r[k] < period
    ensures forall t :: t in r <==> t in calls && now - t < period
    ensures forall t :: multiset(r)[t] == (if now - t < period then multiset(calls)[t] else 0)
  {
    if calls == [] then []
    else
      var front := calls[..|calls| - 1];
      assert calls == front + [calls[|calls| - 1]];
      Prune(front, now, period)
      + (if now - calls[|calls| - 1] < period then [calls[|calls| - 1]] else [])
  }

  /** Pruning two runs of calls is pruning each, in order. */
  lemma {:induction false} PruneAppend(a: seq<int>, b: seq<int>, now: int, period: int)
    ensures Prune(a + b, now, period) == Prune(a, now, period) + Prune(b, now, period)
    decreases |b|
  {
    if b == [] {
      assert a + b == a;
    } else {
      var front := b[..|b| - 1];
      assert (a + b)[..|a + b| - 1] == a + front;
      PruneAppend(a, front, now, period);
    }
  }

  /**
   * Pruning is the order-preserving filter: each call time stays at its
   * place exactly when it is inside the window.
   */
  lemma PruneAround(a: seq<int>, t: int, b: seq<int>, now: int, period: int)
    ensures Prune(a + [t] + b, now, period)
            == Prune(a, now, period) + (if now - t < period then [t] else []) + Prune(b, now, period)
  {
    PruneAppend(a + [t], b, now, period);
    PruneAppend(a, [t], now, period);
    assert [t][..0] == [];
  }

  /** `min(calls)` */
  function Min(calls: seq<int>): (m: int)
    requires calls != []
    ensures m in calls
    ensures forall k :: 0 <= k < |calls| ==> m <= calls[k]
  {
    if |calls| == 1 then calls[0]
    else
      var m := Min(calls[..|calls| - 1]);
      if calls[|calls| - 1] < m then calls[|calls| - 1] else m
  }

  /** Times in non-decreasing order. */
  predicate Sorted(calls: seq<int>) {
    forall i, j :: 0 <= i < j < |calls| ==> calls[i] <= calls[j]
  }

  /** What one call did: went ahead (after sleeping `wait`, if it had to), or raised on `min` of an empty list. */
  datatype Admission =
    | Admitted(wait: int, slept: bool)
    | EmptyWindowError

  /** The wait before the next call when the window is full. */
  function WaitTime(pruned: seq<int>, now: int, period: int): int
    requires pruned != []
  {
    period - (now - Min(pruned)) + Margin
  }

  /**
   * The call list after one call made at clock reading `now`, where `later`
   * is the clock reading after the sleep, if there is one.
   */
  function NextCalls(calls: seq<int>, maxCalls: int, period: int, now: int, later: int): seq<int> {
    var pruned := Prune(calls, now, period);
    if |pruned| < maxCalls then pruned + [now]
    else if pruned == [] then pruned
    else Prune(pruned, later, period) + [later]
  }

  /** The pruned list's oldest entry is inside the window, so every wait is longer than the margin. */
  lemma WaitExceedsMargin(calls: seq<int>, now: int, period: int)
    requires Prune(calls, now, period) != []
    ensures WaitTime(Prune(calls, now, period), now, period) > Margin
  {
    var pruned := Prune(calls, now, period);
    assert now - pruned[0] < period;
  }

  /** Pruning keeps the order of what it keeps. */
  lemma {:induction false} PruneSorted(calls: seq<int>, now: int, period: int)
    requires Sorted(calls)
    ensures Sorted(Prune(calls, now, period))
  {
    if calls != [] {
      var prefix := calls[..|calls| - 1];
      assert Sorted(prefix);
      PruneSorted(prefix, now, period);
      var p := Prune(prefix, now, period);
      forall k | 0 <= k < |p|
        ensures p[k] <= calls[|calls| - 1]
      {
        assert p[k] in prefix;
      }
    }
  }

  /** Appending a time no earlier than every entry keeps the list sorted. */
  lemma SortedAppend(calls: seq<int>, t: int)
    requires Sorted(calls) && forall k :: 0 <= k < |calls| ==> calls[k] <= t
    ensures Sorted(calls + [t])
  {
  }

  /** A pruned list's entries are entries of the original list. */
  lemma PruneBelow(calls: seq<int>, now: int, period: int, bound: int)
    requires forall k :: 0 <= k < |calls| ==> calls[k] <= bound
    ensures forall k :: 0 <= k < |Prune(calls, now, period)| ==> Prune(calls, now, period)[k] <= bound
  {
    var p := Prune(calls, now, period);
    forall k | 0 <= k < |p|
      ensures p[k] <= bound
    {
      assert p[k] in calls;
    }
  }

  /**
   * Sorted stays sorted: when every recorded time is at most `now` and the
   * clock does not run backwards, the appended reading is the newest.
   */
  lemma NextCallsSorted(calls: seq<int>, maxCalls: int, period: int, now: int, later: int)
    requires Sorted(calls) && (forall k :: 0 <= k < |calls| ==> calls[k] <= now) && now <= later
    ensures Sorted(NextCalls(calls, maxCalls, period, now, later))
    ensures forall k :: 0 <= k < |NextCalls(calls, maxCalls, period, now, later)| ==>
              NextCalls(calls, maxCalls, period, now, later)[k] <= later
  {
    var pruned := Prune(calls, now, period);
    PruneSorted(calls, now, period);
    PruneBelow(calls, now, period, now);
    if |pruned| < maxCalls {
      SortedAppend(pruned, now);
    } else if pruned != [] {
      var again := Prune(pruned, later, period);
      PruneSorted(pruned, later, period);
      PruneBelow(pruned, later, period, later);
      SortedAppend(again, later);
    }
  }

  /** Pruning at a later reading that is a full window past some entry drops that entry. */
  lemma {:induction false} PruneDrops(calls: seq<int>, later: int, period: int, oldest: int)
    requires oldest in calls && later - oldest >= period
    ensures |Prune(calls, later, period)| < |calls|
  {
    var prefix := calls[..|calls| - 1];
    if calls[|calls| - 1] != oldest {
      assert oldest in prefix;
      PruneDrops(prefix, later, period, oldest);
    }
  }

  /**
   * The window never holds more than `max_calls` entries: when it held at
   * most that many before a call and the sleep lasted at least the wait,
   * it holds at most that many after, including the new entry.
   */
  lemma NextCallsBounded(calls: seq<int>, maxCalls: int, period: int, now: int, later: int)
    requires maxCalls >= 1 && |calls| <= maxCalls
    requires var pruned := Prune(calls, now, period);
             |pruned| >= maxCalls ==> later >= now + WaitTime(pruned, now, period)
    ensures |NextCalls(calls, maxCalls, period, now, later)| <= maxCalls
  {
    var pruned := Prune(calls, now, period);
    if |pruned| >= maxCalls {
      PruneDrops(pruned, later, period, Min(pruned));
    }
  }

  /** The limiter's state. */
  class RateLimiter {
    const maxCalls: int
    const period: int
    var calls: seq<int>

    /** `RateLimiter(max_calls=360, period=60.0)` with an empty call list. */
    constructor(maxCalls: int := DefaultMaxCalls, period: int := DefaultPeriod)
      ensures this.maxCalls == maxCalls && this.period == period && calls == []
    {
      this.maxCalls := maxCalls;
      this.period := period;
      calls := [];
    }

    /** The window invariant the limiter keeps when `max_calls` is at least one. */
    predicate Valid()
      reads this
    {
      maxCalls >= 1 && |calls| <= maxCalls && Sorted(calls)
    }

    /**
     * `_wait_if_needed_sync` (and its async twin): prune to the window; if
     * the window is still full, sleep until its oldest entry has left it and
     * prune again at the new reading; then record the reading. With
     * `max_calls` at most zero and an empty window, `min` raises after the
     * pruned list has been stored.
     */
    method WaitIfNeeded(now: int, later: int) returns (outcome: Admission)
      modifies this
      ensures calls == NextCalls(old(calls), maxCalls, period, now, later)
      ensures var pruned := Prune(old(calls), now, period);
              if |pruned| < maxCalls then outcome == Admitted(0, false)
              else if pruned == [] then outcome == EmptyWindowError
              else outcome == Admitted(WaitTime(pruned, now, period), true) && outcome.wait > Margin
    {
      calls := Prune(calls, now, period);
      if |calls| >= maxCalls {
        if calls == [] {
          return EmptyWindowError;
        }
        var oldest := Min(calls);
        var wait := period - (now - oldest) + Margin;
        WaitExceedsMargin(old(calls), now, period);
        calls := Prune(calls, later, period);
        calls := calls + [later];
        return Admitted(wait, true);
      }
      calls := calls + [now];
      outcome := Admitted(0, false);
    }
  }

  /**
   * One call through a valid limiter keeps it valid, provided the clock does
   * not run backwards and the sleep lasted at least the wait asked for.
   */
  method AdmitValid(limiter: RateLimiter, now: int, later: int) returns (outcome: Admission)
    requires limiter.Valid() && now <= later
    requires forall k :: 0 <= k < |limiter.calls| ==> limiter.calls[k] <= now
    requires var pruned := Prune(limiter.calls, now, limiter.period);
             |pruned| >= limiter.maxCalls ==> later >= now + WaitTime(pruned, now, limiter.period)
    modifies limiter
    ensures limiter.Valid() && outcome.Admitted?
    ensures forall k :: 0 <= k < |limiter.calls| ==> limiter.calls[k] <= later
  {
    NextCallsSorted(limiter.calls, limiter.maxCalls, limiter.period, now, later);
    NextCallsBounded(limiter.calls, limiter.maxCalls, limiter.period, now, later);
    outcome := limiter.WaitIfNeeded(now, later);
  }

  /** `gemini_limiter`: the limiter every model call goes through. */
  method GeminiLimiter() returns (limiter: RateLimiter)
    ensures fresh(limiter) && limiter.maxCalls == GeminiMaxCalls && limiter.period == GeminiPeriod
    ensures limiter.Valid() && limiter.calls == []
  {
    limiter := new RateLimiter(GeminiMaxCalls, GeminiPeriod);
  }
}
