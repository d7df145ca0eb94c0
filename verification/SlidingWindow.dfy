/**
 Counting events in a sliding window. Times are whole ticks of the clock.
 */
module SlidingWindow {
  /** How many events lie in the half-open interval from `lo` to `hi`. */
  function Within(times: seq<int>, lo: int, hi: int): nat {
    if times == [] then 0
    else
      var t := times[|times| - 1];
      Within(times[..|times| - 1], lo, hi) + if lo <= t < hi then 1 else 0
  }

  /** How many events lie strictly after `x`. */
  function After(times: seq<int>, x: int): nat {
    if times == [] then 0
    else After(times[..|times| - 1], x) + if times[|times| - 1] > x then 1 else 0
  }

  /** How many events lie in the window that starts at `a`. */
  function InWindow(times: seq<int>, a: int, window: int): nat {
    Within(times, a, a + window)
  }

  /** No interval of the window's length holds more than `bound` events. */
  ghost predicate Limited(times: seq<int>, window: int, bound: int) {
    forall a :: InWindow(times, a, window) <= bound
  }

  lemma {:induction false} AfterMonotone(times: seq<int>, x: int, y: int)
    requires x <= y
    ensures After(times, y) <= After(times, x)
  {
    if times != [] { AfterMonotone(times[..|times| - 1], x, y); }
  }

  lemma {:induction false} WithinAfter(times: seq<int>, lo: int, hi: int, x: int)
    requires x < lo
    ensures Within(times, lo, hi) <= After(times, x)
  {
    if times != [] { WithinAfter(times[..|times| - 1], lo, hi, x); }
  }

  lemma {:induction false} WithinLast(times: seq<int>, t: int, lo: int, hi: int)
    ensures Within(times + [t], lo, hi) == Within(times, lo, hi) + if lo <= t < hi then 1 else 0
  {
    assert (times + [t])[..|times|] == times;
  }

  lemma {:induction false} AfterLast(times: seq<int>, t: int, x: int)
    ensures After(times + [t], x) == After(times, x) + if t > x then 1 else 0
  {
    assert (times + [t])[..|times|] == times;
  }

  /** An event admitted while fewer than `bound` lie in the window before it keeps every window within the bound. */
  lemma {:induction false} AdmitKeepsLimit(times: seq<int>, t: int, window: int, bound: int)
    requires Limited(times, window, bound)
    requires After(times, t - window) < bound
    ensures Limited(times + [t], window, bound)
  {
    forall a ensures InWindow(times + [t], a, window) <= bound {
      assert InWindow(times, a, window) <= bound;
      WithinLast(times, t, a, a + window);
      if a <= t < a + window { WithinAfter(times, a, a + window, t - window); }
    }
  }

  /** Keeps the events strictly after `x`, in order. */
  function Pruned(times: seq<int>, x: int): seq<int> {
    if times == [] then []
    else
      var kept := Pruned(times[..|times| - 1], x);
      if times[|times| - 1] > x then kept + [times[|times| - 1]] else kept
  }

  /** Pruning counts, and does not lose any event that a later check still looks at. */
  lemma {:induction false} PruningIsHarmless(times: seq<int>, x: int, y: int)
    requires x <= y
    ensures After(Pruned(times, x), y) == After(times, y)
    ensures |Pruned(times, x)| == After(times, x)
  {
    if times != [] {
      var rest, t := times[..|times| - 1], times[|times| - 1];
      PruningIsHarmless(rest, x, y);
      if t > x { AfterLast(Pruned(rest, x), t, y); }
    }
  }

  /** Each recorded time is at or after the time of the event it records; the latest may not be recorded yet. */
  ghost predicate Behind(events: seq<int>, records: seq<int>) {
    |records| <= |events| && forall i :: 0 <= i < |records| ==> events[i] <= records[i]
  }

  lemma {:induction false} AfterBehind(events: seq<int>, records: seq<int>, x: int)
    requires Behind(events, records) && |events| == |records|
    ensures After(events, x) <= After(records, x)
  {
    if events != [] { AfterBehind(events[..|events| - 1], records[..|records| - 1], x); }
  }

  ghost predicate UpTo(times: seq<int>, now: int) {
    forall i :: 0 <= i < |times| ==> times[i] <= now
  }

  /** An event admitted by its records alone keeps the limit for the events themselves. */
  lemma {:induction false} AdmitByRecords(events: seq<int>, records: seq<int>, at: int, now: int, window: int, bound: int)
    requires Behind(events, records) && |events| == |records| && UpTo(events, now) && at <= now
    requires Limited(events, window, bound) && After(records, at - window) < bound
    ensures Behind(events + [now], records) && UpTo(events + [now], now) && Limited(events + [now], window, bound)
  {
    AfterBehind(events, records, at - window);
    AfterMonotone(events, at - window, now - window);
    AdmitKeepsLimit(events, now, window, bound);
  }
}
