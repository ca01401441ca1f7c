/** The per-sender sliding window of consensus/PBFT.hpp, and what it admits over a whole run. */
module RateLimit {

  const NANOS_PER_SEC: int := 1_000_000_000

  /** duration_cast<seconds>: truncation toward zero of a difference in nanoseconds. */
  function Seconds(d: int): int {
    if d >= 0 then d / NANOS_PER_SEC else -((-d) / NANOS_PER_SEC)
  }

  predicate Young(t: int, now: int, window: int) {
    Seconds(now - t) < window
  }

  /** The timestamps that remove_if leaves, in order. */
  function Keep(ts: seq<int>, now: int, window: int): (r: seq<int>)
    ensures |r| <= |ts|
  {
    if ts == [] then []
    else
      var rest := Keep(ts[..|ts| - 1], now, window);
      if Young(ts[|ts| - 1], now, window) then rest + [ts[|ts| - 1]] else rest
  }

  predicate Admits(ts: seq<int>, now: int, window: int, max: int) {
    |Keep(ts, now, window)| < max
  }

  /** The timestamps one sender has after a check at `now`. */
  function AfterCheck(ts: seq<int>, now: int, window: int, max: int): seq<int> {
    var kept := Keep(ts, now, window);
    if |kept| < max then kept + [now] else kept
  }

  /** Timestamps stored after checks at the given times, starting with none. */
  function Stored(calls: seq<int>, window: int, max: int): seq<int> {
    if calls == [] then []
    else AfterCheck(Stored(calls[..|calls| - 1], window, max), calls[|calls| - 1], window, max)
  }

  /** How many of `ts` are younger than the window at `now`. */
  function CountYoung(ts: seq<int>, now: int, window: int): nat {
    if ts == [] then 0
    else CountYoung(ts[..|ts| - 1], now, window) + if Young(ts[|ts| - 1], now, window) then 1 else 0
  }

  /**
   Reference limiter that forgets nothing: the times of all admissions so far, a
   call being admitted when fewer than `max` of them are younger than the window.
   */
  function Admissions(calls: seq<int>, window: int, max: int): seq<int> {
    if calls == [] then []
    else
      var earlier := Admissions(calls[..|calls| - 1], window, max);
      var now := calls[|calls| - 1];
      if CountYoung(earlier, now, window) < max then earlier + [now] else earlier
  }

  ghost predicate NonDecreasing(ts: seq<int>) {
    forall i, j :: 0 <= i <= j < |ts| ==> ts[i] <= ts[j]
  }

  lemma {:induction false} KeepCounts(ts: seq<int>, now: int, window: int)
    ensures |Keep(ts, now, window)| == CountYoung(ts, now, window)
  {
    if ts != [] { KeepCounts(ts[..|ts| - 1], now, window); }
  }

  lemma {:induction false} KeepSnoc(ts: seq<int>, t: int, now: int, window: int)
    ensures Keep(ts + [t], now, window) == if Young(t, now, window) then Keep(ts, now, window) + [t] else Keep(ts, now, window)
  {
    assert (ts + [t])[..|ts|] == ts;
  }

  lemma YoungEarlier(t: int, before: int, now: int, window: int)
    requires before <= now && Young(t, now, window)
    ensures Young(t, before, window)
  {
  }

  /** Dropping expired entries early changes nothing later. */
  lemma {:induction false} KeepTwice(ts: seq<int>, before: int, now: int, window: int)
    requires before <= now
    ensures Keep(Keep(ts, before, window), now, window) == Keep(ts, now, window)
  {
    if ts != [] {
      var last := ts[|ts| - 1];
      var rest := Keep(ts[..|ts| - 1], before, window);
      KeepTwice(ts[..|ts| - 1], before, now, window);
      if Young(last, now, window) { YoungEarlier(last, before, now, window); }
      KeepSnoc(rest, last, now, window);
    }
  }

  lemma {:induction false} AdmissionsBounded(calls: seq<int>, last: int, window: int, max: int)
    requires forall i :: 0 <= i < |calls| ==> calls[i] <= last
    ensures forall i :: 0 <= i < |Admissions(calls, window, max)| ==> Admissions(calls, window, max)[i] <= last
  {
    if calls != [] {
      AdmissionsBounded(calls[..|calls| - 1], last, window, max);
    }
  }

  lemma SortedSnoc(ts: seq<int>, last: int)
    requires NonDecreasing(ts) && forall i :: 0 <= i < |ts| ==> ts[i] <= last
    ensures NonDecreasing(ts + [last])
  {
  }

  lemma FrontSorted(ts: seq<int>)
    requires NonDecreasing(ts) && ts != []
    ensures var front := ts[..|ts| - 1];
            NonDecreasing(front) && forall i :: 0 <= i < |front| ==> front[i] <= ts[|ts| - 1]
  {
  }

  lemma {:induction false} AdmissionsSorted(calls: seq<int>, window: int, max: int)
    requires NonDecreasing(calls)
    ensures NonDecreasing(Admissions(calls, window, max))
  {
    if calls != [] {
      var before, now := calls[..|calls| - 1], calls[|calls| - 1];
      FrontSorted(calls);
      AdmissionsSorted(before, window, max);
      AdmissionsBounded(before, now, window, max);
      SortedSnoc(Admissions(before, window, max), now);
    }
  }

  lemma {:induction false} StoredIsRecentAdmissions(calls: seq<int>, window: int, max: int)
    requires NonDecreasing(calls) && 0 < window
    ensures calls != [] ==>
              Stored(calls, window, max) == Keep(Admissions(calls, window, max), calls[|calls| - 1], window)
  {
    if calls != [] {
      var before := calls[..|calls| - 1];
      var now := calls[|calls| - 1];
      var all := Admissions(before, window, max);
      StoredIsRecentAdmissions(before, window, max);
      if before != [] { KeepTwice(all, before[|before| - 1], now, window); }
      KeepCounts(all, now, window);
      assert (all + [now])[..|all|] == all;
    }
  }

  /**
   The limiter is exact: with a clock that never runs backwards, a check is admitted
   exactly when fewer than `max` of all earlier admissions are younger than the window.
   */
  lemma LimiterExact(calls: seq<int>, now: int, window: int, max: int)
    requires NonDecreasing(calls + [now]) && 0 < window
    ensures Admits(Stored(calls, window, max), now, window, max)
       <==> CountYoung(Admissions(calls, window, max), now, window) < max
  {
    assert forall i, j :: 0 <= i <= j < |calls| ==> calls[i] == (calls + [now])[i] && calls[j] == (calls + [now])[j];
    StoredIsRecentAdmissions(calls, window, max);
    var all := Admissions(calls, window, max);
    if calls != [] {
      assert calls[|calls| - 1] == (calls + [now])[|calls| - 1] && now == (calls + [now])[|calls|];
      KeepTwice(all, calls[|calls| - 1], now, window);
    }
    KeepCounts(all, now, window);
  }

  /** A run of young entries is counted in full. */
  lemma {:induction false} CountYoungRun(ts: seq<int>, k: nat, now: int, window: int)
    requires k <= |ts|
    requires forall i :: k <= i < |ts| ==> Young(ts[i], now, window)
    ensures CountYoung(ts, now, window) >= |ts| - k
  {
    if k < |ts| {
      CountYoungRun(ts[..|ts| - 1], k, now, window);
    }
  }

  /** If a sorted list's k-th time is young, so is everything after it. */
  lemma {:induction false} YoungRun(ts: seq<int>, k: nat, now: int, window: int)
    requires NonDecreasing(ts) && k < |ts|
    ensures Young(ts[k], now, window) ==> CountYoung(ts, now, window) >= |ts| - k
  {
    if Young(ts[k], now, window) {
      assert forall i :: k <= i < |ts| ==> ts[k] <= ts[i];
      CountYoungRun(ts, k, now, window);
    }
  }

  /** Hence the (k+max)-th admission comes at least the window length after the k-th. */
  lemma {:induction false} AdmissionsSpaced(calls: seq<int>, k: nat, window: int, max: nat)
    requires NonDecreasing(calls) && 0 < max
    requires k + max < |Admissions(calls, window, max)|
    ensures var a := Admissions(calls, window, max);
            Seconds(a[k + max] - a[k]) >= window
  {
    var before := calls[..|calls| - 1];
    var now := calls[|calls| - 1];
    var earlier := Admissions(before, window, max);
    FrontSorted(calls);
    if k + max < |earlier| {
      AdmissionsSpaced(before, k, window, max);
    } else {
      AdmissionsSorted(before, window, max);
      YoungRun(earlier, k, now, window);
    }
  }
}
