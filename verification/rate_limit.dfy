/** The fixed-window limiter of lib/rateLimit.ts, and how much it lets through over any run. */
module RateLimit {
  import opened JsString

  datatype Window = Window(count: int, resetAt: int)

  datatype Call = Call(key: Str, now: int)

  /** True when the key has no running window. */
  predicate Fresh(windows: map<Str, Window>, c: Call) {
    c.key !in windows || c.now >= windows[c.key].resetAt
  }

  predicate Allows(windows: map<Str, Window>, limit: int, c: Call) {
    Fresh(windows, c) || windows[c.key].count < limit
  }

  function After(windows: map<Str, Window>, limit: int, windowMs: int, c: Call): map<Str, Window> {
    if Fresh(windows, c) then windows[c.key := Window(1, c.now + windowMs)]
    else if windows[c.key].count >= limit then windows
    else windows[c.key := windows[c.key].(count := windows[c.key].count + 1)]
  }

  class Limiter {
    var windows: map<Str, Window>

    constructor ()
      ensures windows == map[]
    {
      windows := map[];
    }

    method RateLimit(key: Str, limit: int, windowMs: int, now: int) returns (allowed: bool)
      modifies this
      ensures windows == After(old(windows), limit, windowMs, Call(key, now))
      ensures allowed == Allows(old(windows), limit, Call(key, now))
    {
      if key !in windows || now >= windows[key].resetAt {
        windows := windows[key := Window(1, now + windowMs)];
        return true;
      }
      var w := windows[key];
      if w.count >= limit {
        return false;
      }
      windows := windows[key := w.(count := w.count + 1)];
      allowed := true;
    }
  }

  // ----- runs ----------------------------------------------------------------

  function Windows(calls: seq<Call>, limit: int, windowMs: int): map<Str, Window> {
    if calls == [] then map[]
    else After(Windows(calls[..|calls| - 1], limit, windowMs), limit, windowMs, calls[|calls| - 1])
  }

  predicate Counts(calls: seq<Call>, key: Str, limit: int, windowMs: int, lo: int, hi: int)
    requires calls != []
  {
    var c := calls[|calls| - 1];
    c.key == key && lo <= c.now < hi && Allows(Windows(calls[..|calls| - 1], limit, windowMs), limit, c)
  }

  /** How many of a key's calls in [lo, hi) were allowed. */
  function Allowed(calls: seq<Call>, key: Str, limit: int, windowMs: int, lo: int, hi: int): nat {
    if calls == [] then 0
    else
      Allowed(calls[..|calls| - 1], key, limit, windowMs, lo, hi) +
        if Counts(calls, key, limit, windowMs, lo, hi) then 1 else 0
  }

  ghost predicate ClockRuns(calls: seq<Call>) {
    forall i, j :: 0 <= i < j < |calls| ==> calls[i].now <= calls[j].now
  }

  /** A window always lets one call through, whatever the limit. */
  function Most(limit: int): int {
    if limit < 1 then 1 else limit
  }

  lemma {:induction false} AllowedSplit(calls: seq<Call>, key: Str, limit: int, windowMs: int, lo: int, mid: int,
                                        hi: int)
    requires lo <= mid <= hi
    ensures Allowed(calls, key, limit, windowMs, lo, hi)
      == Allowed(calls, key, limit, windowMs, lo, mid) + Allowed(calls, key, limit, windowMs, mid, hi)
  {
    if calls != [] { AllowedSplit(calls[..|calls| - 1], key, limit, windowMs, lo, mid, hi); }
  }

  lemma {:induction false} AllowedEmpty(calls: seq<Call>, key: Str, limit: int, windowMs: int, lo: int, hi: int)
    requires hi <= lo
    ensures Allowed(calls, key, limit, windowMs, lo, hi) == 0
  {
    if calls != [] { AllowedEmpty(calls[..|calls| - 1], key, limit, windowMs, lo, hi); }
  }

  /** How a key's calls in [lo, hi), n of them allowed, stand to its running window w. */
  predicate Placed(n: nat, w: Window, limit: int, windowMs: int, lo: int, hi: int) {
    var start := w.resetAt - windowMs;
    && 1 <= w.count <= Most(limit)
    // one of the window's calls is at its very start, and none comes after its end
    && (start <= lo ==> n <= w.count)
    && (start < lo ==> n <= w.count - 1)
    && (w.resetAt <= lo ==> n == 0)
    // what the window before leaves inside an interval that reaches into this one
    && (hi == start < lo + windowMs ==> n <= Most(limit) - 1)
  }

  lemma {:induction false} RunPlaced(calls: seq<Call>, key: Str, limit: int, windowMs: int, lo: int, hi: int)
    requires windowMs > 0 && ClockRuns(calls)
    ensures var windows := Windows(calls, limit, windowMs);
      if key in windows then
        Placed(Allowed(calls, key, limit, windowMs, lo, hi), windows[key], limit, windowMs, lo, hi) &&
        calls != [] && windows[key].resetAt - windowMs <= calls[|calls| - 1].now
      else
        Allowed(calls, key, limit, windowMs, lo, hi) == 0
  {
    if calls != [] {
      RunPlaced(calls[..|calls| - 1], key, limit, windowMs, lo, hi);
    }
  }

  /** The running window of a key holds as many allowed calls as it counts, and never more than the limit. */
  lemma WindowBound(calls: seq<Call>, key: Str, limit: int, windowMs: int, lo: int, hi: int)
    requires windowMs > 0 && ClockRuns(calls) && key in Windows(calls, limit, windowMs)
    requires Windows(calls, limit, windowMs)[key].resetAt - windowMs <= lo
    ensures Allowed(calls, key, limit, windowMs, lo, hi) <= Windows(calls, limit, windowMs)[key].count <= Most(limit)
  {
    RunPlaced(calls, key, limit, windowMs, lo, hi);
  }

  /** Over every run with a clock that does not go back, no half-open interval of one window length holds
      more than 2 * max(1, limit) - 1 allowed calls of a key. */
  lemma {:induction false} IntervalBound(calls: seq<Call>, key: Str, limit: int, windowMs: int, lo: int)
    requires ClockRuns(calls)
    ensures Allowed(calls, key, limit, windowMs, lo, lo + windowMs) <= 2 * Most(limit) - 1
  {
    if windowMs <= 0 {
      AllowedEmpty(calls, key, limit, windowMs, lo, lo + windowMs);
    } else if calls != [] {
      IntervalBound(calls[..|calls| - 1], key, limit, windowMs, lo);
      if Counts(calls, key, limit, windowMs, lo, lo + windowMs) {
        HoldsCurrent(calls, key, limit, windowMs, lo);
      }
    }
  }

  /** An interval that holds the latest call reaches into the current window and at most into the one before. */
  lemma HoldsCurrent(calls: seq<Call>, key: Str, limit: int, windowMs: int, lo: int)
    requires windowMs > 0 && calls != [] && ClockRuns(calls) && Counts(calls, key, limit, windowMs, lo, lo + windowMs)
    ensures Allowed(calls, key, limit, windowMs, lo, lo + windowMs) <= 2 * Most(limit) - 1
  {
    var start := Windows(calls, limit, windowMs)[key].resetAt - windowMs;
    RunPlaced(calls, key, limit, windowMs, lo, lo + windowMs);
    if lo < start {
      AllowedSplit(calls, key, limit, windowMs, lo, start, lo + windowMs);
      RunPlaced(calls, key, limit, windowMs, lo, start);
      RunPlaced(calls, key, limit, windowMs, start, lo + windowMs);
    }
  }

  // ----- keys do not meet ----------------------------------------------------

  function Of(calls: seq<Call>, key: Str): seq<Call> {
    if calls == [] then []
    else if calls[|calls| - 1].key == key then Of(calls[..|calls| - 1], key) + [calls[|calls| - 1]]
    else Of(calls[..|calls| - 1], key)
  }

  lemma WindowsNext(calls: seq<Call>, c: Call, limit: int, windowMs: int)
    ensures Windows(calls + [c], limit, windowMs) == After(Windows(calls, limit, windowMs), limit, windowMs, c)
  {
    assert (calls + [c])[..|calls|] == calls;
  }

  lemma {:induction false} WindowsOf(calls: seq<Call>, key: Str, limit: int, windowMs: int)
    ensures var a, b := Windows(calls, limit, windowMs), Windows(Of(calls, key), limit, windowMs);
      (key in a <==> key in b) && (key in a ==> a[key] == b[key])
  {
    if calls != [] {
      var front, c := calls[..|calls| - 1], calls[|calls| - 1];
      WindowsOf(front, key, limit, windowMs);
      if c.key == key { WindowsNext(Of(front, key), c, limit, windowMs); }
    }
  }

  /** Whether a call is allowed depends only on the earlier calls of its own key. */
  lemma OtherKeysIrrelevant(calls: seq<Call>, c: Call, limit: int, windowMs: int)
    ensures Allows(Windows(calls, limit, windowMs), limit, c) ==
      Allows(Windows(Of(calls, c.key), limit, windowMs), limit, c)
  {
    WindowsOf(calls, c.key, limit, windowMs);
  }

  // ----- the bound is attained -----------------------------------------------

  /** One call at 0, then the rest of that window at its last tick and a full window right after. */
  function Burst(key: Str, limit: nat, windowMs: int, n: nat): seq<Call> {
    seq(n, i requires 0 <= i < n => Call(key, if i == 0 then 0 else if i < limit then windowMs - 1 else windowMs))
  }

  /** The window after n calls of the burst. */
  function BurstWindow(limit: nat, windowMs: int, n: nat): Window {
    if n <= limit then Window(n, windowMs) else Window(n - limit, 2 * windowMs)
  }

  lemma {:induction false} BurstWindows(key: Str, limit: nat, windowMs: int, n: nat)
    requires limit >= 1 && windowMs >= 2 && 1 <= n <= 2 * limit
    ensures var windows := Windows(Burst(key, limit, windowMs, n), limit, windowMs);
      key in windows && windows[key] == BurstWindow(limit, windowMs, n)
  {
    assert Burst(key, limit, windowMs, n)[..n - 1] == Burst(key, limit, windowMs, n - 1);
    if n > 1 { BurstWindows(key, limit, windowMs, n - 1); }
  }

  lemma {:induction false} BurstAllowed(key: Str, limit: nat, windowMs: int, n: nat)
    requires limit >= 1 && windowMs >= 2 && 1 <= n <= 2 * limit
    ensures Allowed(Burst(key, limit, windowMs, n), key, limit, windowMs, windowMs - 1, 2 * windowMs - 1) == n - 1
  {
    assert Burst(key, limit, windowMs, n)[..n - 1] == Burst(key, limit, windowMs, n - 1);
    if n > 1 {
      BurstAllowed(key, limit, windowMs, n - 1);
      BurstWindows(key, limit, windowMs, n - 1);
    }
  }

  lemma BurstClock(key: Str, limit: nat, windowMs: int, n: nat)
    requires windowMs >= 2
    ensures ClockRuns(Burst(key, limit, windowMs, n))
  {
  }

  /** For every limit and every window of at least two ticks the bound is reached. */
  lemma BoundReached(key: Str, limit: nat, windowMs: int)
    requires limit >= 1 && windowMs >= 2
    ensures var calls := Burst(key, limit, windowMs, 2 * limit);
      ClockRuns(calls) && Allowed(calls, key, limit, windowMs, windowMs - 1, 2 * windowMs - 1) == 2 * Most(limit) - 1
  {
    BurstClock(key, limit, windowMs, 2 * limit);
    BurstAllowed(key, limit, windowMs, 2 * limit);
  }
}
