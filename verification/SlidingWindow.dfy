/**
 The sliding-window limiters: per-key request limits, the in-memory coordination store and the
 model gateway all keep a queue of admission times and apply the same rule to it. Times come from
 a monotonic clock and are exact.
 */
module SlidingWindow {

  /** Drops the times that have left the window from the front of the queue. */
  function Prune(window: seq<real>, now: real, span: real): seq<real> {
    if window != [] && now - window[0] >= span then Prune(window[1..], now, span) else window
  }

  /** One call: the verdict and the queue it leaves. */
  function Admit(window: seq<real>, now: real, limit: int, span: real): (bool, seq<real>) {
    var kept := Prune(window, now, span);
    if |kept| >= limit then (false, kept) else (true, kept + [now])
  }

  class SlidingWindowRateLimiter {
    var windows: map<string, seq<real>>

    constructor ()
      ensures windows == map[]
    {
      windows := map[];
    }

    /** Creates the key's queue on first use, prunes it in place and registers an admitted call. */
    method Check(key: string, limit: int, span: real, now: real) returns (admitted: bool)
      modifies this
      ensures var before := if key in old(windows) then old(windows)[key] else [];
              var (verdict, after) := Admit(before, now, limit, span);
              admitted == verdict && windows == old(windows)[key := after]
    {
      var window := if key in windows then windows[key] else [];
      ghost var before := window;
      while window != [] && now - window[0] >= span
        invariant Prune(window, now, span) == Prune(before, now, span)
        decreases |window|
      {
        window := window[1..];
      }
      admitted := |window| < limit;
      if admitted {
        window := window + [now];
      }
      windows := windows[key := window];
    }
  }

  /** The in-memory store's concurrency slots. */
  class ConcurrencySlots {
    var held: map<string, nat>

    function Held(key: string): nat
      reads this
    {
      if key in held then held[key] else 0
    }

    constructor ()
      ensures held == map[]
    {
      held := map[];
    }

    method Acquire(key: string, limit: int) returns (acquired: bool)
      modifies this
      ensures acquired == (old(Held(key)) < limit)
      ensures Held(key) == old(Held(key)) + (if acquired then 1 else 0)
      ensures forall k :: k != key ==> Held(k) == old(Held(k))
      ensures acquired ==> Held(key) <= limit
    {
      acquired := Held(key) < limit;
      if acquired {
        held := held[key := Held(key) + 1];
      }
    }

    method Release(key: string)
      modifies this
      ensures Held(key) == (if old(Held(key)) == 0 then 0 else old(Held(key)) - 1)
      ensures forall k :: k != key ==> Held(k) == old(Held(k))
    {
      held := held[key := if Held(key) == 0 then 0 else Held(key) - 1];
    }
  }

  // ---- A whole run of calls with one key ----

  datatype Meter = Meter(window: seq<real>, admitted: seq<real>)

  /** The queue and the full list of admission times after a run of calls. */
  function Replay(calls: seq<real>, limit: int, span: real): Meter {
    if calls == [] then Meter([], [])
    else
      var now := calls[|calls| - 1];
      var before := Replay(calls[..|calls| - 1], limit, span);
      var (ok, window) := Admit(before.window, now, limit, span);
      Meter(window, if ok then before.admitted + [now] else before.admitted)
  }

  predicate Sorted(times: seq<real>) {
    forall i, j :: 0 <= i <= j < |times| ==> times[i] <= times[j]
  }

  /** The admissions that are less than one window old. */
  function Recent(admitted: seq<real>, now: real, span: real): seq<real> {
    if admitted == [] then []
    else if now - admitted[0] < span then [admitted[0]] + Recent(admitted[1..], now, span)
    else Recent(admitted[1..], now, span)
  }

  /** How many of the times lie in [from, until). */
  function CountWithin(times: seq<real>, from: real, until: real): nat {
    if times == [] then 0
    else
      var n := |times| - 1;
      CountWithin(times[..n], from, until) + if from <= times[n] < until then 1 else 0
  }

  lemma {:induction false} AllRecent(times: seq<real>, now: real, span: real)
    requires Sorted(times) && (times == [] || now - times[0] < span)
    ensures Recent(times, now, span) == times
  {
    if times != [] {
      assert |times| > 1 ==> times[0] <= times[1];
      AllRecent(times[1..], now, span);
    }
  }

  lemma {:induction false} PruneIsRecent(times: seq<real>, now: real, span: real)
    requires Sorted(times)
    ensures Prune(times, now, span) == Recent(times, now, span)
  {
    if times != [] && now - times[0] >= span {
      PruneIsRecent(times[1..], now, span);
    } else {
      AllRecent(times, now, span);
    }
  }

  lemma {:induction false} RecentOfRecent(times: seq<real>, earlier: real, now: real, span: real)
    requires earlier <= now
    ensures Recent(Recent(times, earlier, span), now, span) == Recent(times, now, span)
  {
    if times != [] {
      RecentOfRecent(times[1..], earlier, now, span);
      if earlier - times[0] < span {
        var r := Recent(times, earlier, span);
        assert r[1..] == Recent(times[1..], earlier, span);
      }
    }
  }

  lemma {:induction false} RecentAppend(times: seq<real>, t: real, now: real, span: real)
    ensures Recent(times + [t], now, span)
         == Recent(times, now, span) + (if now - t < span then [t] else [])
  {
    if times == [] {
      assert times + [t] == [t];
    } else {
      RecentAppend(times[1..], t, now, span);
      assert (times + [t])[1..] == times[1..] + [t];
    }
  }

  /** Admission times never decrease and never lie after the last call. */
  lemma {:induction false} AdmissionsAreSorted(calls: seq<real>, limit: int, span: real)
    requires Sorted(calls)
    ensures Sorted(Replay(calls, limit, span).admitted)
    ensures forall t :: t in Replay(calls, limit, span).admitted ==> t <= calls[|calls| - 1]
  {
    if calls != [] {
      var n := |calls| - 1;
      AdmissionsAreSorted(calls[..n], limit, span);
      if n > 0 {
        assert calls[..n][|calls[..n]| - 1] == calls[n - 1] <= calls[n];
      }
      var before := Replay(calls[..n], limit, span).admitted;
      assert forall i :: 0 <= i < |before| ==> before[i] in before;
    }
  }

  lemma {:induction false} RecentIsSorted(times: seq<real>, now: real, span: real)
    requires Sorted(times)
    ensures Sorted(Recent(times, now, span))
    ensures forall t :: t in Recent(times, now, span) ==> t in times
  {
    if times != [] {
      RecentIsSorted(times[1..], now, span);
    }
  }

  /** The queue before and after a call agrees with the full history, and the call is refused only
      when exactly `limit` admissions lie in the window that ends with it. */
  lemma {:induction false} QueueAgreesWithHistory(calls: seq<real>, limit: nat, span: real)
    requires Sorted(calls) && calls != [] && span > 0.0
    ensures var now := calls[|calls| - 1];
            var before := Replay(calls[..|calls| - 1], limit, span);
            var after := Replay(calls, limit, span);
            && after.window == Recent(after.admitted, now, span)
            && |after.window| <= limit
            && (after.admitted == before.admitted <==> |Recent(before.admitted, now, span)| == limit)
            && (after.admitted != before.admitted ==> after.admitted == before.admitted + [now])
  {
    var n := |calls| - 1;
    var now := calls[n];
    var before := Replay(calls[..n], limit, span);
    AdmissionsAreSorted(calls[..n], limit, span);
    if n > 0 {
      QueueAgreesWithHistory(calls[..n], limit, span);
      var earlier := calls[n - 1];
      assert calls[..n][|calls[..n]| - 1] == earlier;
      RecentIsSorted(before.admitted, earlier, span);
      PruneIsRecent(before.window, now, span);
      RecentOfRecent(before.admitted, earlier, now, span);
    }
    assert Prune(before.window, now, span) == Recent(before.admitted, now, span);
    RecentAppend(before.admitted, now, now, span);
    PruneShrinks(before.window, now, span);
  }

  lemma {:induction false} PruneShrinks(times: seq<real>, now: real, span: real)
    ensures |Prune(times, now, span)| <= |times|
  {
    if times != [] && now - times[0] >= span {
      PruneShrinks(times[1..], now, span);
    }
  }

  lemma {:induction false} CountIsRecent(times: seq<real>, from: real, now: real, span: real)
    requires forall t :: t in times ==> t <= now
    requires from <= now < from + span
    ensures CountWithin(times, from, from + span) <= |Recent(times, now, span)|
  {
    if times != [] {
      var n := |times| - 1;
      assert forall t :: t in times[..n] ==> t in times;
      CountIsRecent(times[..n], from, now, span);
      RecentAppend(times[..n], times[n], now, span);
      assert times[..n] + [times[n]] == times;
    }
  }

  /** Over the whole run, no interval of window length holds more than `limit` admissions. */
  lemma {:induction false} EveryIntervalIsBounded(calls: seq<real>, limit: nat, span: real, from: real)
    requires Sorted(calls) && span > 0.0
    ensures CountWithin(Replay(calls, limit, span).admitted, from, from + span) <= limit
  {
    if calls != [] {
      var n := |calls| - 1;
      var now := calls[n];
      EveryIntervalIsBounded(calls[..n], limit, span, from);
      QueueAgreesWithHistory(calls, limit, span);
      AdmissionsAreSorted(calls, limit, span);
      var after := Replay(calls, limit, span).admitted;
      if from <= now < from + span {
        CountIsRecent(after, from, now, span);
      } else if after != Replay(calls[..n], limit, span).admitted {
        assert after[..|after| - 1] == Replay(calls[..n], limit, span).admitted;
      }
    }
  }
}
