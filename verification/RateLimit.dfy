/** The fixed-window limiter (gateway/src/auth.ts): what a run of calls can get through. */
module RateLimit {
  import opened Basics

  datatype Bucket = Bucket(count: nat, resetAt: int)

  /** An admitted call, and the start of the window it was counted in. */
  datatype Admitted = Admitted(key: string, at: int, start: int)

  /** What callers pass for each key; a key is always used with the same limit and window. */
  datatype Rates = Rates(limit: string -> nat, windowMs: string -> nat)

  datatype State = State(buckets: map<string, Bucket>, log: seq<Admitted>, now: int)

  const START := State(map[], [], 0)

  predicate Opens(s: State, key: string, now: int) {
    key !in s.buckets || now > s.buckets[key].resetAt
  }

  predicate Admits(s: State, rates: Rates, key: string, now: int) {
    Opens(s, key, now) || s.buckets[key].count < rates.limit(key)
  }

  function Call(s: State, rates: Rates, key: string, now: int): State {
    if Opens(s, key, now) then
      State(s.buckets[key := Bucket(1, now + rates.windowMs(key))], s.log + [Admitted(key, now, now)], now)
    else if s.buckets[key].count >= rates.limit(key) then s.(now := now)
    else
      var b := s.buckets[key];
      State(s.buckets[key := b.(count := b.count + 1)], s.log + [Admitted(key, now, b.resetAt - rates.windowMs(key))], now)
  }

  /** The admitted calls of one window of a key, by their places in the log. */
  function InWindow(log: seq<Admitted>, key: string, start: int): set<nat> {
    set i: nat | i < |log| && log[i].key == key && log[i].start == start
  }

  function InInterval(log: seq<Admitted>, key: string, from: int, length: int): set<nat> {
    set i: nat | i < |log| && log[i].key == key && from <= log[i].at <= from + length
  }

  /** A window lets at least one call through, even when the limit is zero. */
  function Allowed(rates: Rates, key: string): nat { Max(1, rates.limit(key)) }

  /** The bucket of a key describes its latest window. */
  ghost predicate BucketFits(s: State, rates: Rates, key: string) {
    if key in s.buckets then
      var start := s.buckets[key].resetAt - rates.windowMs(key);
      && 1 <= s.buckets[key].count == |InWindow(s.log, key, start)|
      && forall i :: 0 <= i < |s.log| && s.log[i].key == key ==> s.log[i].start <= start
    else forall i :: 0 <= i < |s.log| ==> s.log[i].key != key
  }

  ghost predicate CallFits(s: State, rates: Rates, a: Admitted) {
    a.start <= a.at <= s.now && a.at <= a.start + rates.windowMs(a.key)
  }

  /** Windows of one key start more than a window apart. */
  ghost predicate Apart(log: seq<Admitted>, rates: Rates, i: nat, j: nat)
    requires i < |log| && j < |log|
  {
    log[i].key == log[j].key ==>
      || log[i].start == log[j].start
      || log[i].start > log[j].start + rates.windowMs(log[j].key)
      || log[j].start > log[i].start + rates.windowMs(log[i].key)
  }

  ghost predicate Fits(s: State, rates: Rates) {
    && (forall key :: BucketFits(s, rates, key))
    && (forall i :: 0 <= i < |s.log| ==> CallFits(s, rates, s.log[i]))
    && (forall i, j :: 0 <= i < |s.log| && 0 <= j < |s.log| ==> Apart(s.log, rates, i, j))
    && (forall key, start :: |InWindow(s.log, key, start)| <= Allowed(rates, key))
  }

  lemma WindowOfOneMore(log: seq<Admitted>, a: Admitted, key: string, start: int)
    ensures |InWindow(log + [a], key, start)| == |InWindow(log, key, start)| + (if a.key == key && a.start == start then 1 else 0)
  {
    var after := InWindow(log + [a], key, start);
    if a.key == key && a.start == start {
      assert after == InWindow(log, key, start) + {|log|};
    } else {
      assert after == InWindow(log, key, start);
    }
  }

  lemma EmptyWindow(s: State, rates: Rates, key: string, now: int)
    requires Fits(s, rates) && Opens(s, key, now) && now >= s.now
    ensures forall i :: 0 <= i < |s.log| && s.log[i].key == key ==> now > s.log[i].start + rates.windowMs(key)
    ensures InWindow(s.log, key, now) == {}
  {
    assert BucketFits(s, rates, key);
  }

  /** What an admitted call adds to the log, in an open window or a new one. */
  lemma AppendFits(s: State, rates: Rates, n: State, a: Admitted)
    requires Fits(s, rates) && n.log == s.log + [a] && n.now == a.at >= s.now && CallFits(n, rates, a)
    requires forall i :: 0 <= i < |s.log| && s.log[i].key == a.key ==>
               s.log[i].start == a.start || a.start > s.log[i].start + rates.windowMs(a.key)
    requires |InWindow(s.log, a.key, a.start)| < Allowed(rates, a.key)
    requires a.key in n.buckets && n.buckets == s.buckets[a.key := n.buckets[a.key]]
    requires n.buckets[a.key] == Bucket(|InWindow(s.log, a.key, a.start)| + 1, a.start + rates.windowMs(a.key))
    ensures Fits(n, rates)
  {
    forall key ensures BucketFits(n, rates, key) {
      assert BucketFits(s, rates, key);
      if key in n.buckets {
        WindowOfOneMore(s.log, a, key, n.buckets[key].resetAt - rates.windowMs(key));
      }
    }
    forall key, start ensures |InWindow(n.log, key, start)| <= Allowed(rates, key) {
      WindowOfOneMore(s.log, a, key, start);
    }
    forall i, j | 0 <= i < |n.log| && 0 <= j < |n.log| ensures Apart(n.log, rates, i, j) {
      if i < |s.log| && j < |s.log| { assert Apart(s.log, rates, i, j); }
    }
  }

  lemma CallKeepsFits(s: State, rates: Rates, key: string, now: int)
    requires Fits(s, rates) && now >= s.now
    ensures Fits(Call(s, rates, key, now), rates)
  {
    var n := Call(s, rates, key, now);
    assert BucketFits(s, rates, key);
    if Opens(s, key, now) {
      EmptyWindow(s, rates, key, now);
      AppendFits(s, rates, n, Admitted(key, now, now));
    } else if s.buckets[key].count < rates.limit(key) {
      var start := s.buckets[key].resetAt - rates.windowMs(key);
      CurrentWindow(s, rates, key);
      AppendFits(s, rates, n, Admitted(key, now, start));
    } else {
      forall k ensures BucketFits(n, rates, k) { assert BucketFits(s, rates, k); }
    }
  }

  lemma CurrentWindow(s: State, rates: Rates, key: string)
    requires Fits(s, rates) && key in s.buckets
    ensures var start := s.buckets[key].resetAt - rates.windowMs(key);
            && start <= s.now
            && forall i :: 0 <= i < |s.log| && s.log[i].key == key ==>
                 s.log[i].start == start || start > s.log[i].start + rates.windowMs(key)
  {
    assert BucketFits(s, rates, key);
    var start := s.buckets[key].resetAt - rates.windowMs(key);
    var c :| c in InWindow(s.log, key, start);
    forall i | 0 <= i < |s.log| && s.log[i].key == key
      ensures s.log[i].start == start || start > s.log[i].start + rates.windowMs(key)
    {
      assert Apart(s.log, rates, i, c);
    }
  }

  // ───────── runs ─────────

  datatype Request = Request(key: string, now: int)

  /** The clock never goes back. */
  predicate InOrder(requests: seq<Request>, from: int) {
    requests == [] || (requests[0].now >= from && InOrder(requests[1..], requests[0].now))
  }

  function Run(s: State, rates: Rates, requests: seq<Request>): State
    decreases |requests|
  {
    if requests == [] then s else Run(Call(s, rates, requests[0].key, requests[0].now), rates, requests[1..])
  }

  lemma {:induction false} RunKeepsFits(s: State, rates: Rates, requests: seq<Request>)
    requires Fits(s, rates) && InOrder(requests, s.now)
    ensures Fits(Run(s, rates, requests), rates)
    decreases |requests|
  {
    if requests != [] {
      CallKeepsFits(s, rates, requests[0].key, requests[0].now);
      RunKeepsFits(Call(s, rates, requests[0].key, requests[0].now), rates, requests[1..]);
    }
  }

  /** Calls that fall in one interval of a window's length were counted in at most two windows. */
  lemma IntervalMeetsTwoWindows(s: State, rates: Rates, from: int, i: nat, j: nat, k: nat)
    requires Fits(s, rates) && i < |s.log| && j < |s.log| && k < |s.log|
    requires s.log[i].key == s.log[j].key == s.log[k].key
    requires from <= s.log[i].at <= from + rates.windowMs(s.log[i].key)
    requires from <= s.log[j].at <= from + rates.windowMs(s.log[i].key)
    requires from <= s.log[k].at <= from + rates.windowMs(s.log[i].key)
    ensures s.log[i].start == s.log[j].start || s.log[j].start == s.log[k].start || s.log[i].start == s.log[k].start
  {
    assert CallFits(s, rates, s.log[i]) && CallFits(s, rates, s.log[j]) && CallFits(s, rates, s.log[k]);
    assert Apart(s.log, rates, i, j) && Apart(s.log, rates, j, k) && Apart(s.log, rates, i, k);
  }

  lemma UnionBound(all: set<nat>, a: set<nat>, b: set<nat>, n: nat)
    requires all <= a + b && |a| <= n && |b| <= n
    ensures |all| <= 2 * n
  {
    assert a + b == a + (b - a);
    assert |b - a| <= |b| by { assert b == (b - a) + (b * a); }
    assert a + b == all + (a + b - all);
  }

  lemma FittingIntervals(s: State, rates: Rates, key: string, from: int)
    requires Fits(s, rates)
    ensures |InInterval(s.log, key, from, rates.windowMs(key))| <= 2 * Allowed(rates, key)
  {
    var all := InInterval(s.log, key, from, rates.windowMs(key));
    if i :| i in all {
      var a := InWindow(s.log, key, s.log[i].start);
      if j :| j in all && s.log[j].start != s.log[i].start {
        var b := InWindow(s.log, key, s.log[j].start);
        forall k | k in all ensures k in a + b {
          IntervalMeetsTwoWindows(s, rates, from, i, j, k);
        }
        UnionBound(all, a, b, Allowed(rates, key));
      } else {
        UnionBound(all, a, a, Allowed(rates, key));
      }
    }
  }

  /** Over any run in clock order: each window admits at most its limit (one when the limit is zero),
      windows of a key start more than a window apart, and so no interval as long as a window sees
      more than twice the limit. */
  lemma LimiterIsBounded(rates: Rates, requests: seq<Request>, key: string)
    requires InOrder(requests, 0)
    ensures var log := Run(START, rates, requests).log;
            && (forall start :: |InWindow(log, key, start)| <= Allowed(rates, key))
            && (forall i, j :: 0 <= i < |log| && 0 <= j < |log| ==> Apart(log, rates, i, j))
            && (forall from :: |InInterval(log, key, from, rates.windowMs(key))| <= 2 * Allowed(rates, key))
  {
    RunKeepsFits(START, rates, requests);
    var s := Run(START, rates, requests);
    forall from ensures |InInterval(s.log, key, from, rates.windowMs(key))| <= 2 * Allowed(rates, key) {
      FittingIntervals(s, rates, key, from);
    }
  }

  /** A zero limit does not shut a key out: the first call of every window is let through. */
  lemma ZeroLimitAdmitsOne(s: State, rates: Rates, key: string, now: int)
    requires Opens(s, key, now)
    ensures Admits(s, rates, key, now) && Call(s, rates, key, now).log == s.log + [Admitted(key, now, now)]
  {
  }

  class Limiter {
    const rates: Rates
    var buckets: map<string, Bucket>
    ghost var log: seq<Admitted>
    ghost var now: int

    ghost function Snapshot(): State
      reads this
    {
      State(buckets, log, now)
    }

    constructor (rates: Rates)
      ensures this.rates == rates && Snapshot() == START && Fits(Snapshot(), rates)
    {
      this.rates := rates;
      buckets, log, now := map[], [], 0;
    }

    method Allow(key: string, limit: nat, windowMs: nat, clock: int) returns (ok: bool)
      requires limit == rates.limit(key) && windowMs == rates.windowMs(key)
      requires Fits(Snapshot(), rates) && clock >= now
      modifies this
      ensures ok == Admits(old(Snapshot()), rates, key, clock)
      ensures Snapshot() == Call(old(Snapshot()), rates, key, clock) && Fits(Snapshot(), rates)
    {
      CallKeepsFits(Snapshot(), rates, key, clock);
      now := clock;
      if key !in buckets || clock > buckets[key].resetAt {
        buckets := buckets[key := Bucket(1, clock + windowMs)];
        log := log + [Admitted(key, clock, clock)];
        return true;
      }
      var b := buckets[key];
      if b.count >= limit {
        return false;
      }
      buckets := buckets[key := b.(count := b.count + 1)];
      log := log + [Admitted(key, clock, b.resetAt - windowMs)];
      return true;
    }
  }

  // ───────── who is admitted ─────────

  /** Some admitted call of the key opened a window that still runs. */
  ghost predicate WindowRuns(s: State, rates: Rates, key: string, now: int, start: int) {
    now <= start + rates.windowMs(key) && exists i :: 0 <= i < |s.log| && s.log[i].key == key && s.log[i].start == start
  }

  lemma RunningWindowIsTheBuckets(s: State, rates: Rates, key: string, now: int, start: int)
    requires Fits(s, rates) && now >= s.now && WindowRuns(s, rates, key, now, start)
    ensures !Opens(s, key, now) && start == s.buckets[key].resetAt - rates.windowMs(key)
  {
    assert BucketFits(s, rates, key);
    var i :| 0 <= i < |s.log| && s.log[i].key == key && s.log[i].start == start;
    CurrentWindow(s, rates, key);
    var current := s.buckets[key].resetAt - rates.windowMs(key);
    assert InWindow(s.log, key, current) != {};
    var j :| j in InWindow(s.log, key, current);
    assert Apart(s.log, rates, i, j) && CallFits(s, rates, s.log[j]);
  }

  lemma BucketsWindowRuns(s: State, rates: Rates, key: string, now: int)
    requires Fits(s, rates) && now >= s.now && !Opens(s, key, now)
    ensures WindowRuns(s, rates, key, now, s.buckets[key].resetAt - rates.windowMs(key))
  {
    assert BucketFits(s, rates, key);
    var start := s.buckets[key].resetAt - rates.windowMs(key);
    assert InWindow(s.log, key, start) != {};
    var j :| j in InWindow(s.log, key, start);
  }

  /** A call is admitted if and only if fewer than the limit were admitted in any window of its key
      that runs, and there is at most one. */
  lemma AdmittedIff(s: State, rates: Rates, key: string, now: int)
    requires Fits(s, rates) && now >= s.now
    ensures Admits(s, rates, key, now) <==>
      forall start :: WindowRuns(s, rates, key, now, start) ==> |InWindow(s.log, key, start)| < rates.limit(key)
  {
    assert BucketFits(s, rates, key);
    if Opens(s, key, now) {
      forall start ensures !WindowRuns(s, rates, key, now, start) {
        if WindowRuns(s, rates, key, now, start) { RunningWindowIsTheBuckets(s, rates, key, now, start); }
      }
    } else {
      BucketsWindowRuns(s, rates, key, now);
      forall start | WindowRuns(s, rates, key, now, start) ensures start == s.buckets[key].resetAt - rates.windowMs(key) {
        RunningWindowIsTheBuckets(s, rates, key, now, start);
      }
    }
  }

  /** An admitted call is counted in the window that runs, or opens one; a refused one changes nothing
      but the clock. */
  lemma CallIsCounted(s: State, rates: Rates, key: string, now: int, start: int)
    requires Fits(s, rates) && now >= s.now
    ensures var n := Call(s, rates, key, now);
            && n.now == now
            && (!Admits(s, rates, key, now) ==> n.log == s.log && n.buckets == s.buckets)
            && (Admits(s, rates, key, now) && WindowRuns(s, rates, key, now, start) ==> n.log == s.log + [Admitted(key, now, start)])
            && (Opens(s, key, now) ==> n.log == s.log + [Admitted(key, now, now)])
  {
    if WindowRuns(s, rates, key, now, start) { RunningWindowIsTheBuckets(s, rates, key, now, start); }
  }
}
