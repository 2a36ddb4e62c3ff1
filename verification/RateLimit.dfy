/** The sliding-window limiter, and the unbounded log of allowed hits it must
    agree with however it prunes and sweeps. */
module RateLimit {

  type Key = nat
  type Time = int

  const SWEEP_INTERVAL := 128

  /** Timestamps after the cutoff, in order. */
  function Live(hits: seq<Time>, cutoff: Time): (live: seq<Time>)
    ensures |live| <= |hits|
    ensures forall t :: t in live <==> t in hits && t > cutoff
  {
    if hits == [] then []
    else
      var live := Live(hits[..|hits| - 1], cutoff);
      if hits[|hits| - 1] > cutoff then live + [hits[|hits| - 1]] else live
  }

  function Get(hits: map<Key, seq<Time>>, key: Key): seq<Time> {
    if key in hits then hits[key] else []
  }

  predicate Expired(timestamps: seq<Time>, cutoff: Time) {
    forall i :: 0 <= i < |timestamps| ==> timestamps[i] <= cutoff
  }

  function Sweep(hits: map<Key, seq<Time>>, cutoff: Time): map<Key, seq<Time>> {
    map k | k in hits && !Expired(hits[k], cutoff) :: hits[k]
  }

  datatype State = State(hits: map<Key, seq<Time>>, callsSinceSweep: nat)

  /** One check: the new state and the answer. */
  function CheckStep(limit: int, windowMs: int, s: State, key: Key, t: Time): (State, bool) {
    var cutoff := t - windowMs;
    var kept := Live(Get(s.hits, key), cutoff);
    var allowed := |kept| < limit;
    var hits := if allowed then s.hits[key := kept + [t]]
                else if |kept| > 0 then s.hits[key := kept]
                else s.hits - {key};
    if s.callsSinceSweep + 1 >= SWEEP_INTERVAL then (State(Sweep(hits, cutoff), 0), allowed)
    else (State(hits, s.callsSinceSweep + 1), allowed)
  }

  class SlidingWindowLimiter {
    const limit: int
    const windowMs: int
    var hits: map<Key, seq<Time>>
    var callsSinceSweep: nat

    constructor (limit: int, windowMs: int)
      ensures this.limit == limit && this.windowMs == windowMs
      ensures Value() == State(map[], 0)
    {
      this.limit, this.windowMs := limit, windowMs;
      hits, callsSinceSweep := map[], 0;
    }

    ghost function Value(): State
      reads this
    {
      State(hits, callsSinceSweep)
    }

    method Check(key: Key, t: Time) returns (allowed: bool)
      modifies this
      ensures (Value(), allowed) == CheckStep(limit, windowMs, old(Value()), key, t)
    {
      var cutoff := t - windowMs;
      var kept := Live(Get(hits, key), cutoff);
      if |kept| >= limit {
        if |kept| > 0 {
          hits := hits[key := kept];
        } else {
          hits := hits - {key};
        }
        allowed := false;
      } else {
        hits := hits[key := kept + [t]];
        allowed := true;
      }
      callsSinceSweep := callsSinceSweep + 1;
      if callsSinceSweep >= SWEEP_INTERVAL {
        callsSinceSweep := 0;
        SweepAll(cutoff);
      }
    }

    /** Drops every key whose whole timestamp array has expired. */
    method SweepAll(cutoff: Time)
      modifies `hits
      ensures hits == Sweep(old(hits), cutoff)
    {
      var todo := hits.Keys;
      while todo != {}
        invariant todo <= old(hits).Keys
        invariant hits == map k | k in old(hits) && (k in todo || !Expired(old(hits)[k], cutoff)) :: old(hits)[k]
        decreases todo
      {
        var k :| k in todo;
        todo := todo - {k};
        if Expired(hits[k], cutoff) {
          hits := hits - {k};
        }
      }
    }
  }

  // ---- the unbounded log ----

  datatype Hit = Hit(key: Key, time: Time)

  /** All times a key was allowed, in order. */
  function TimesOf(log: seq<Hit>, key: Key): seq<Time> {
    if log == [] then []
    else
      var times := TimesOf(log[..|log| - 1], key);
      if log[|log| - 1].key == key then times + [log[|log| - 1].time] else times
  }

  /** The reference limiter: it forgets nothing. */
  function CheckLog(limit: int, windowMs: int, log: seq<Hit>, key: Key, t: Time): (seq<Hit>, bool) {
    var allowed := |Live(TimesOf(log, key), t - windowMs)| < limit;
    (if allowed then log + [Hit(key, t)] else log, allowed)
  }

  /** Requests under a clock that never goes back. */
  predicate Monotone(requests: seq<Hit>) {
    forall i, j :: 0 <= i < j < |requests| ==> requests[i].time <= requests[j].time
  }

  /** The limiter, and the reference, after a sequence of requests. */
  function After(limit: int, windowMs: int, requests: seq<Hit>): State {
    if requests == [] then State(map[], 0)
    else
      var r := requests[|requests| - 1];
      CheckStep(limit, windowMs, After(limit, windowMs, requests[..|requests| - 1]), r.key, r.time).0
  }

  function LogAfter(limit: int, windowMs: int, requests: seq<Hit>): seq<Hit> {
    if requests == [] then []
    else
      var r := requests[|requests| - 1];
      CheckLog(limit, windowMs, LogAfter(limit, windowMs, requests[..|requests| - 1]), r.key, r.time).0
  }

  /** The limiter's answer to one more request. */
  function Answer(limit: int, windowMs: int, requests: seq<Hit>, r: Hit): bool {
    CheckStep(limit, windowMs, After(limit, windowMs, requests), r.key, r.time).1
  }

  /** The requests the limiter allowed. */
  function Allowed(limit: int, windowMs: int, requests: seq<Hit>): seq<Hit> {
    if requests == [] then []
    else
      var front := requests[..|requests| - 1];
      var r := requests[|requests| - 1];
      Allowed(limit, windowMs, front) + if Answer(limit, windowMs, front, r) then [r] else []
  }

  /** The map remembers everything in the log that can still matter: it agrees
      with the log on every hit younger than the window. */
  ghost predicate Agrees(windowMs: int, s: State, log: seq<Hit>, now: Time) {
    forall k: Key, c: Time :: c >= now - windowMs ==> SameAfter(Get(s.hits, k), TimesOf(log, k), c)
  }

  ghost predicate SameAfter(hits: seq<Time>, times: seq<Time>, c: Time) {
    Live(hits, c) == Live(times, c)
  }

  lemma LiveAppend(hits: seq<Time>, t: Time, cutoff: Time)
    ensures Live(hits + [t], cutoff) == Live(hits, cutoff) + if t > cutoff then [t] else []
  {
    assert (hits + [t])[..|hits|] == hits;
  }

  /** Pruning at an earlier cutoff is invisible at a later one. */
  lemma {:induction false} LiveLive(hits: seq<Time>, c: Time, d: Time)
    requires c <= d
    ensures Live(Live(hits, c), d) == Live(hits, d)
  {
    if hits != [] {
      var front := hits[..|hits| - 1];
      LiveLive(front, c, d);
      LiveAppend(Live(front, c), hits[|hits| - 1], d);
    }
  }

  lemma {:induction false} ExpiredIsDead(timestamps: seq<Time>, c: Time, d: Time)
    requires Expired(timestamps, c) && c <= d
    ensures Live(timestamps, d) == []
  {
    if timestamps != [] {
      ExpiredIsDead(timestamps[..|timestamps| - 1], c, d);
    }
  }

  lemma TimesAppend(log: seq<Hit>, h: Hit, key: Key)
    ensures TimesOf(log + [h], key) == if h.key == key then TimesOf(log, key) + [h.time] else TimesOf(log, key)
  {
    assert (log + [h])[..|log|] == log;
  }

  /** What a check does to one key's timestamps: the checked key is pruned and
      perhaps extended, and any key may be swept once it is all expired. */
  lemma StepOnKey(limit: int, windowMs: int, s: State, key: Key, t: Time, k: Key)
    ensures var (s1, allowed) := CheckStep(limit, windowMs, s, key, t);
            var kept := Live(Get(s.hits, k), t - windowMs);
            var next := if k != key then Get(s.hits, k) else if allowed then kept + [t] else kept;
            Get(s1.hits, k) == next || (Get(s1.hits, k) == [] && Expired(next, t - windowMs))
  {
  }

  lemma KeyAgrees(hits: seq<Time>, times: seq<Time>, cutoff: Time, t: Time, allowed: bool, hits1: seq<Time>, c: Time)
    requires c >= cutoff && SameAfter(hits, times, c)
    requires var kept := Live(hits, cutoff);
             var next := if allowed then kept + [t] else kept;
             hits1 == next || (hits1 == [] && Expired(next, cutoff))
    ensures SameAfter(hits1, if allowed then times + [t] else times, c)
  {
    var kept := Live(hits, cutoff);
    LiveLive(hits, cutoff, c);
    LiveAppend(kept, t, c);
    LiveAppend(times, t, c);
    ExpiredIfSwept(if allowed then kept + [t] else kept, cutoff, c);
  }

  lemma ExpiredIfSwept(timestamps: seq<Time>, cutoff: Time, c: Time)
    requires c >= cutoff
    ensures Expired(timestamps, cutoff) ==> Live(timestamps, c) == []
  {
    if Expired(timestamps, cutoff) {
      ExpiredIsDead(timestamps, cutoff, c);
    }
  }

  /** One check answers as the log would, and stays in agreement with it. */
  lemma CheckAgrees(limit: int, windowMs: int, s: State, log: seq<Hit>, now: Time, key: Key, t: Time)
    requires Agrees(windowMs, s, log, now) && now <= t
    ensures var (s1, allowed) := CheckStep(limit, windowMs, s, key, t);
            var (log1, wanted) := CheckLog(limit, windowMs, log, key, t);
            allowed == wanted && Agrees(windowMs, s1, log1, t)
  {
    var cutoff := t - windowMs;
    assert SameAfter(Get(s.hits, key), TimesOf(log, key), cutoff);
    var (s1, allowed) := CheckStep(limit, windowMs, s, key, t);
    var (log1, wanted) := CheckLog(limit, windowMs, log, key, t);
    forall k: Key, c: Time | c >= cutoff
      ensures SameAfter(Get(s1.hits, k), TimesOf(log1, k), c)
    {
      assert SameAfter(Get(s.hits, k), TimesOf(log, k), c);
      CheckAgreesOn(limit, windowMs, s, log, key, t, k, c);
    }
  }

  lemma CheckAgreesOn(limit: int, windowMs: int, s: State, log: seq<Hit>, key: Key, t: Time, k: Key, c: Time)
    requires c >= t - windowMs && SameAfter(Get(s.hits, k), TimesOf(log, k), c)
    requires SameAfter(Get(s.hits, key), TimesOf(log, key), t - windowMs)
    ensures SameAfter(Get(CheckStep(limit, windowMs, s, key, t).0.hits, k),
                      TimesOf(CheckLog(limit, windowMs, log, key, t).0, k), c)
  {
    var cutoff := t - windowMs;
    var (s1, allowed) := CheckStep(limit, windowMs, s, key, t);
    TimesAppend(log, Hit(key, t), k);
    StepOnKey(limit, windowMs, s, key, t, k);
    if k == key {
      AllowedAlike(limit, windowMs, s, log, key, t);
      KeyAgrees(Get(s.hits, k), TimesOf(log, k), cutoff, t, allowed, Get(s1.hits, k), c);
    } else {
      ExpiredIfSwept(Get(s.hits, k), cutoff, c);
    }
  }

  lemma AllowedAlike(limit: int, windowMs: int, s: State, log: seq<Hit>, key: Key, t: Time)
    requires SameAfter(Get(s.hits, key), TimesOf(log, key), t - windowMs)
    ensures CheckStep(limit, windowMs, s, key, t).1 == CheckLog(limit, windowMs, log, key, t).1
  {
  }

  lemma {:induction false} RunAgrees(limit: int, windowMs: int, requests: seq<Hit>, now: Time)
    requires Monotone(requests) && (requests != [] ==> requests[|requests| - 1].time <= now)
    ensures Agrees(windowMs, After(limit, windowMs, requests), LogAfter(limit, windowMs, requests), now)
    ensures Allowed(limit, windowMs, requests) == LogAfter(limit, windowMs, requests)
  {
    if requests != [] {
      var front := requests[..|requests| - 1];
      var r := requests[|requests| - 1];
      RunAgrees(limit, windowMs, front, r.time);
      CheckAgrees(limit, windowMs, After(limit, windowMs, front), LogAfter(limit, windowMs, front), r.time, r.key, r.time);
    }
  }

  /** One check answers as a log would. */
  predicate SameAnswer(limit: int, windowMs: int, s: State, log: seq<Hit>, r: Hit) {
    CheckStep(limit, windowMs, s, r.key, r.time).1 == CheckLog(limit, windowMs, log, r.key, r.time).1
  }

  /** After these requests the limiter answers as the log of what it allowed. */
  predicate AnswersAsLog(limit: int, windowMs: int, requests: seq<Hit>, r: Hit) {
    SameAnswer(limit, windowMs, After(limit, windowMs, requests), Allowed(limit, windowMs, requests), r)
  }

  /** Refinement over whole runs: under a clock that never goes back the limiter
      answers every request as the log that forgets nothing would; pruning and
      sweeping are invisible. */
  lemma LimiterRefinesLog(limit: int, windowMs: int, requests: seq<Hit>, r: Hit)
    requires Monotone(requests + [r])
    ensures AnswersAsLog(limit, windowMs, requests, r)
  {
    MonotonePrefix(requests, r);
    RunAgrees(limit, windowMs, requests, r.time);
    CheckAgrees(limit, windowMs, After(limit, windowMs, requests), Allowed(limit, windowMs, requests), r.time, r.key, r.time);
  }

  lemma MonotonePrefix(requests: seq<Hit>, r: Hit)
    requires Monotone(requests + [r])
    ensures Monotone(requests) && (requests != [] ==> requests[|requests| - 1].time <= r.time)
  {
    var all := requests + [r];
    forall i, j | 0 <= i < j < |requests|
      ensures requests[i].time <= requests[j].time
    {
      assert all[i] == requests[i] && all[j] == requests[j];
    }
    assert requests != [] ==> all[|requests| - 1].time <= all[|requests|].time;
  }

  lemma Unroll(limit: int, windowMs: int, requests: seq<Hit>, r: Hit)
    ensures After(limit, windowMs, requests + [r]) ==
            CheckStep(limit, windowMs, After(limit, windowMs, requests), r.key, r.time).0
    ensures Allowed(limit, windowMs, requests + [r]) ==
            Allowed(limit, windowMs, requests) + if Answer(limit, windowMs, requests, r) then [r] else []
  {
    assert (requests + [r])[..|requests|] == requests;
  }

  // ---- how far the clock may go back ----

  /** The clock never falls back by more than `d`. */
  ghost predicate FallsBackAtMost(requests: seq<Hit>, d: int) {
    forall i, j :: 0 <= i < j < |requests| ==> requests[i].time <= requests[j].time + d
  }

  function Repeat(h: Hit, n: nat): (hits: seq<Hit>)
    ensures |hits| == n && forall i :: 0 <= i < n ==> hits[i] == h
  {
    seq(n, i => h)
  }

  function Zeros(n: nat): (times: seq<Time>)
    ensures |times| == n && forall i :: 0 <= i < n ==> times[i] == 0
  {
    seq(n, i => 0)
  }

  lemma {:induction false} LiveZeros(n: nat, cutoff: Time)
    ensures Live(Zeros(n), cutoff) == if cutoff < 0 then Zeros(n) else []
  {
    if n > 0 {
      assert Zeros(n) == Zeros(n - 1) + [0];
      LiveZeros(n - 1, cutoff);
      LiveAppend(Zeros(n - 1), 0, cutoff);
    }
  }

  /** Key 0 was allowed, and is held, at these times. */
  predicate Holds0(limit: int, windowMs: int, requests: seq<Hit>, times: seq<Time>) {
    && Get(After(limit, windowMs, requests).hits, 0) == times
    && TimesOf(Allowed(limit, windowMs, requests), 0) == times
  }

  lemma OneMoreAtZero(limit: int, windowMs: int, requests: seq<Hit>, n: nat)
    requires n < limit && windowMs >= 1 && Holds0(limit, windowMs, requests, Zeros(n))
    ensures Holds0(limit, windowMs, requests + [Hit(0, 0)], Zeros(n + 1))
  {
    LiveZeros(n, -windowMs);
    KeptStep(limit, windowMs, requests, Hit(0, 0), Zeros(n));
    assert Zeros(n + 1) == Zeros(n) + [0];
  }

  /** At most `limit` requests at time 0: all allowed, none forgotten. */
  lemma {:induction false} AllowedAtZero(limit: int, windowMs: int, n: nat)
    requires n <= limit && windowMs >= 1
    ensures Holds0(limit, windowMs, Repeat(Hit(0, 0), n), Zeros(n))
  {
    if n == 0 {
      assert Repeat(Hit(0, 0), 0) == [] && Zeros(0) == [];
    } else {
      AllowedAtZero(limit, windowMs, n - 1);
      OneMoreAtZero(limit, windowMs, Repeat(Hit(0, 0), n - 1), n - 1);
      assert Repeat(Hit(0, 0), n) == Repeat(Hit(0, 0), n - 1) + [Hit(0, 0)];
    }
  }

  /** An allowed request that leaves its key unswept. */
  lemma KeptStep(limit: int, windowMs: int, requests: seq<Hit>, r: Hit, kept: seq<Time>)
    requires windowMs >= 1 && |kept| < limit
    requires Live(Get(After(limit, windowMs, requests).hits, r.key), r.time - windowMs) == kept
    ensures Get(After(limit, windowMs, requests + [r]).hits, r.key) == kept + [r.time]
    ensures TimesOf(Allowed(limit, windowMs, requests + [r]), r.key) ==
            TimesOf(Allowed(limit, windowMs, requests), r.key) + [r.time]
  {
    hide After, Allowed, Live, TimesOf;
    Unroll(limit, windowMs, requests, r);
    StepOnKey(limit, windowMs, After(limit, windowMs, requests), r.key, r.time, r.key);
    assert (kept + [r.time])[|kept|] > r.time - windowMs;
    TimesAppend(Allowed(limit, windowMs, requests), r, r.key);
  }

  /** With room for two: a request one window later prunes the earlier ones, and
      the next, one millisecond back, is let through although the log still
      counts them all. */
  lemma PruningForgets(limit: int, windowMs: int)
    requires limit >= 2 && windowMs >= 1
    ensures !AnswersAsLog(limit, windowMs, Repeat(Hit(0, 0), limit - 1) + [Hit(0, windowMs)], Hit(0, windowMs - 1))
  {
    AllowedAtZero(limit, windowMs, limit - 1);
    PrunedThenBack(limit, windowMs, Repeat(Hit(0, 0), limit - 1));
  }

  lemma PrunedThenBack(limit: int, windowMs: int, early: seq<Hit>)
    requires limit >= 2 && windowMs >= 1 && Holds0(limit, windowMs, early, Zeros(limit - 1))
    ensures !AnswersAsLog(limit, windowMs, early + [Hit(0, windowMs)], Hit(0, windowMs - 1))
  {
    LiveZeros(limit - 1, 0);
    KeptStep(limit, windowMs, early, Hit(0, windowMs), []);
    var requests := early + [Hit(0, windowMs)];
    OneHeldAllLogged(limit, windowMs, After(limit, windowMs, requests), Allowed(limit, windowMs, requests));
  }

  lemma OneHeldAllLogged(limit: int, windowMs: int, s: State, log: seq<Hit>)
    requires limit >= 2 && windowMs >= 1
    requires Get(s.hits, 0) == [] + [windowMs] && TimesOf(log, 0) == Zeros(limit - 1) + [windowMs]
    ensures !SameAnswer(limit, windowMs, s, log, Hit(0, windowMs - 1))
  {
    hide CheckStep, CheckLog, Live, Zeros;
    AnswersByCount(limit, windowMs, s, log, Hit(0, windowMs - 1));
    NoneLive(-1);
    LiveAppend([], windowMs, -1);
    LiveAppend(Zeros(limit - 1), windowMs, -1);
    LiveZeros(limit - 1, -1);
  }

  lemma NoneLive(cutoff: Time)
    ensures Live([], cutoff) == []
  {
  }

  lemma AnswersByCount(limit: int, windowMs: int, s: State, log: seq<Hit>, r: Hit)
    ensures CheckStep(limit, windowMs, s, r.key, r.time).1 <==> |Live(Get(s.hits, r.key), r.time - windowMs)| < limit
    ensures CheckLog(limit, windowMs, log, r.key, r.time).1 <==> |Live(TimesOf(log, r.key), r.time - windowMs)| < limit
  {
    hide Live;
  }

  const FILLER := 1

  /** One request of key 0, then `n` of another key one window later. */
  function Filled(windowMs: int, n: nat): seq<Hit> {
    [Hit(0, 0)] + Repeat(Hit(FILLER, windowMs), n)
  }

  lemma FillOne(limit: int, windowMs: int, n: nat)
    requires n > 0
    ensures var s := After(limit, windowMs, Filled(windowMs, n - 1));
            After(limit, windowMs, Filled(windowMs, n)) == CheckStep(limit, windowMs, s, FILLER, windowMs).0
    ensures TimesOf(Allowed(limit, windowMs, Filled(windowMs, n)), 0) ==
            TimesOf(Allowed(limit, windowMs, Filled(windowMs, n - 1)), 0)
  {
    assert Filled(windowMs, n) == Filled(windowMs, n - 1) + [Hit(FILLER, windowMs)];
    Unroll(limit, windowMs, Filled(windowMs, n - 1), Hit(FILLER, windowMs));
    OtherKey(Allowed(limit, windowMs, Filled(windowMs, n - 1)), windowMs,
             Answer(limit, windowMs, Filled(windowMs, n - 1), Hit(FILLER, windowMs)));
  }

  lemma OtherKey(log: seq<Hit>, at: Time, allowed: bool)
    ensures TimesOf(log + (if allowed then [Hit(FILLER, at)] else []), 0) == TimesOf(log, 0)
  {
    if allowed {
      TimesAppend(log, Hit(FILLER, at), 0);
    } else {
      assert log + [] == log;
    }
  }

  lemma {:induction false} FillUp(windowMs: int, n: nat)
    requires windowMs >= 1 && n < SWEEP_INTERVAL - 1
    ensures var s := After(1, windowMs, Filled(windowMs, n));
            Get(s.hits, 0) == [0] && s.callsSinceSweep == n + 1
    ensures TimesOf(Allowed(1, windowMs, Filled(windowMs, n)), 0) == [0]
  {
    if n == 0 {
      assert Filled(windowMs, 0) == [] + [Hit(0, 0)];
      KeptStep(1, windowMs, [], Hit(0, 0), []);
      Unroll(1, windowMs, [], Hit(0, 0));
    } else {
      FillUp(windowMs, n - 1);
      FillOne(1, windowMs, n);
    }
  }

  /** With room for one: the sweep of the 128th call forgets it. */
  lemma SweepingForgets(windowMs: int)
    requires windowMs >= 1
    ensures !AnswersAsLog(1, windowMs, Filled(windowMs, SWEEP_INTERVAL - 1), Hit(0, windowMs - 1))
  {
    FillUp(windowMs, SWEEP_INTERVAL - 2);
    FillOne(1, windowMs, SWEEP_INTERVAL - 1);
    SweptAway(windowMs, After(1, windowMs, Filled(windowMs, SWEEP_INTERVAL - 2)));
    var requests := Filled(windowMs, SWEEP_INTERVAL - 1);
    NoneHeldOneLogged(windowMs, After(1, windowMs, requests), Allowed(1, windowMs, requests));
  }

  lemma NoneHeldOneLogged(windowMs: int, s: State, log: seq<Hit>)
    requires windowMs >= 1 && Get(s.hits, 0) == [] && TimesOf(log, 0) == [0]
    ensures !SameAnswer(1, windowMs, s, log, Hit(0, windowMs - 1))
  {
    LiveAppend([], 0, -1);
    assert [] + [0] == [0];
  }

  lemma SweptAway(windowMs: int, s: State)
    requires s.callsSinceSweep == SWEEP_INTERVAL - 1 && Get(s.hits, 0) == [0]
    ensures Get(CheckStep(1, windowMs, s, FILLER, windowMs).0.hits, 0) == []
  {
  }

  /** A limiter that can allow anything answers every run like its log if and only
      if the clock never goes back at all: a single millisecond is enough for some
      run to let one request too many through. */
  lemma ClockToleranceIsExact(limit: int, windowMs: int, d: int)
    requires windowMs >= 1 && d >= 0
    ensures (forall requests, r :: FallsBackAtMost(requests + [r], d) ==> AnswersAsLog(limit, windowMs, requests, r))
            <==> d == 0 || limit <= 0
  {
    if d == 0 {
      forall requests, r | FallsBackAtMost(requests + [r], d) ensures AnswersAsLog(limit, windowMs, requests, r) {
        assert Monotone(requests + [r]);
        LimiterRefinesLog(limit, windowMs, requests, r);
      }
    } else if limit > 0 {
      var requests := OneBack(limit, windowMs);
      assert FallsBackAtMost(requests + [Hit(0, windowMs - 1)], d);
    }
  }

  /** A run that falls back once, by one millisecond. */
  lemma OneBack(limit: int, windowMs: int) returns (requests: seq<Hit>)
    requires limit >= 1 && windowMs >= 1
    ensures FallsBackAtMost(requests + [Hit(0, windowMs - 1)], 1)
    ensures !AnswersAsLog(limit, windowMs, requests, Hit(0, windowMs - 1))
  {
    if limit == 1 {
      requests := Filled(windowMs, SWEEP_INTERVAL - 1);
      SweepingForgets(windowMs);
      FilledFallsBackByOne(windowMs, SWEEP_INTERVAL - 1);
    } else {
      requests := Repeat(Hit(0, 0), limit - 1) + [Hit(0, windowMs)];
      PruningForgets(limit, windowMs);
      RepeatFallsBackByOne(windowMs, limit - 1);
    }
  }

  lemma FilledFallsBackByOne(windowMs: int, n: nat)
    requires windowMs >= 1
    ensures FallsBackAtMost(Filled(windowMs, n) + [Hit(0, windowMs - 1)], 1)
  {
  }

  lemma RepeatFallsBackByOne(windowMs: int, n: nat)
    requires windowMs >= 1
    ensures FallsBackAtMost(Repeat(Hit(0, 0), n) + [Hit(0, windowMs)] + [Hit(0, windowMs - 1)], 1)
  {
  }

  // ---- the promised bound ----

  /** The times in (a, b]. */
  function Within(times: seq<Time>, a: Time, b: Time): seq<Time> {
    if times == [] then []
    else
      var last := times[|times| - 1];
      Within(times[..|times| - 1], a, b) + if a < last <= b then [last] else []
  }

  lemma {:induction false} WithinIsLive(times: seq<Time>, a: Time, b: Time, cutoff: Time)
    requires cutoff <= a
    ensures |Within(times, a, b)| <= |Live(times, cutoff)|
  {
    if times != [] {
      WithinIsLive(times[..|times| - 1], a, b, cutoff);
    }
  }

  lemma WithinAppend(times: seq<Time>, t: Time, a: Time, b: Time)
    ensures Within(times + [t], a, b) == Within(times, a, b) + if a < t <= b then [t] else []
  {
    assert (times + [t])[..|times|] == times;
  }

  lemma {:induction false} LogBound(limit: int, windowMs: int, requests: seq<Hit>, key: Key, a: Time)
    ensures var n := |Within(TimesOf(LogAfter(limit, windowMs, requests), key), a, a + windowMs)|;
            n == 0 || n <= limit
  {
    if requests != [] {
      var front := requests[..|requests| - 1];
      var r := requests[|requests| - 1];
      LogBound(limit, windowMs, front, key, a);
      CheckKeepsBound(limit, windowMs, LogAfter(limit, windowMs, front), r, key, a);
    }
  }

  lemma CheckKeepsBound(limit: int, windowMs: int, log: seq<Hit>, r: Hit, key: Key, a: Time)
    requires var n := |Within(TimesOf(log, key), a, a + windowMs)|; n == 0 || n <= limit
    ensures var n := |Within(TimesOf(CheckLog(limit, windowMs, log, r.key, r.time).0, key), a, a + windowMs)|;
            n == 0 || n <= limit
  {
    if r.key == key && |Live(TimesOf(log, key), r.time - windowMs)| < limit {
      OneMoreWithin(limit, windowMs, TimesOf(log, key), r.time, a);
    }
    TimesAppend(log, r, key);
  }

  lemma OneMoreWithin(limit: int, windowMs: int, times: seq<Time>, t: Time, a: Time)
    requires var n := |Within(times, a, a + windowMs)|; n == 0 || n <= limit
    requires |Live(times, t - windowMs)| < limit
    ensures |Within(times + [t], a, a + windowMs)| <= limit
  {
    if a < t <= a + windowMs {
      WithinIsLive(times, a, a + windowMs, t - windowMs);
    }
    WithinAppend(times, t, a, a + windowMs);
  }

  /** No interval one window long ever holds more than `limit` allowed hits of a key. */
  lemma AtMostLimitPerWindow(limit: int, windowMs: int, requests: seq<Hit>, key: Key, a: Time)
    requires Monotone(requests)
    ensures var n := |Within(TimesOf(Allowed(limit, windowMs, requests), key), a, a + windowMs)|;
            n == 0 || n <= limit
  {
    if requests != [] {
      RunAgrees(limit, windowMs, requests, requests[|requests| - 1].time);
    }
    LogBound(limit, windowMs, requests, key, a);
  }

  // ---- memory ----

  /** `n` requests came before the last sweep. Every key still held was live at
      that sweep or was asked for since. */
  ghost predicate HeldSince(limit: int, windowMs: int, requests: seq<Hit>, n: nat, k: Key)
    requires n <= |requests|
  {
    || (exists i :: n <= i < |requests| && requests[i].key == k)
    || (n > 0 && Live(TimesOf(Allowed(limit, windowMs, requests[..n]), k), requests[n - 1].time - windowMs) != [])
  }

  /** Memory: the keys held are those live at the last sweep plus those of the
      fewer than 128 calls since. */
  lemma {:induction false} HeldKeysBounded(limit: int, windowMs: int, requests: seq<Hit>)
    requires Monotone(requests)
    ensures var s := After(limit, windowMs, requests);
            && s.callsSinceSweep < SWEEP_INTERVAL && s.callsSinceSweep <= |requests|
            && forall k :: k in s.hits ==> HeldSince(limit, windowMs, requests, |requests| - s.callsSinceSweep, k)
  {
    if requests != [] {
      var front := requests[..|requests| - 1];
      var r := requests[|requests| - 1];
      var s0, s := After(limit, windowMs, front), After(limit, windowMs, requests);
      HeldKeysBounded(limit, windowMs, front);
      CountedSince(limit, windowMs, s0, r);
      forall k | k in s.hits
        ensures HeldSince(limit, windowMs, requests, |requests| - s.callsSinceSweep, k)
      {
        if s.callsSinceSweep == 0 {
          SweptKeyIsLive(limit, windowMs, requests, k);
        } else if k == r.key {
          assert requests[|requests| - 1].key == k;
        } else {
          HeldExtends(limit, windowMs, requests, |front| - s0.callsSinceSweep, k);
        }
      }
    }
  }

  /** A check counts one call and adds no key but its own. */
  lemma CountedSince(limit: int, windowMs: int, s: State, r: Hit)
    requires s.callsSinceSweep < SWEEP_INTERVAL
    ensures var s1 := CheckStep(limit, windowMs, s, r.key, r.time).0;
            && (s1.callsSinceSweep == 0 || s1.callsSinceSweep == s.callsSinceSweep + 1 < SWEEP_INTERVAL)
            && s1.hits.Keys <= s.hits.Keys + {r.key}
  {
  }

  lemma SweptKeyIsLive(limit: int, windowMs: int, requests: seq<Hit>, k: Key)
    requires Monotone(requests) && requests != []
    requires After(limit, windowMs, requests).callsSinceSweep == 0 && k in After(limit, windowMs, requests).hits
    ensures HeldSince(limit, windowMs, requests, |requests|, k)
  {
    var now := requests[|requests| - 1].time;
    RunAgrees(limit, windowMs, requests, now);
    SweptKeyNotExpired(limit, windowMs, requests, k);
    UnsweptIsLogged(windowMs, After(limit, windowMs, requests), Allowed(limit, windowMs, requests), now, k);
    LiveIsHeld(limit, windowMs, requests, k);
  }

  lemma UnsweptIsLogged(windowMs: int, s: State, log: seq<Hit>, now: Time, k: Key)
    requires Agrees(windowMs, s, log, now) && k in s.hits && !Expired(s.hits[k], now - windowMs)
    ensures Live(TimesOf(log, k), now - windowMs) != []
  {
    AgreesAt(windowMs, s, log, now, k);
    SweptIsLive(s.hits[k], now - windowMs);
  }

  lemma LiveIsHeld(limit: int, windowMs: int, requests: seq<Hit>, k: Key)
    requires requests != []
    requires Live(TimesOf(Allowed(limit, windowMs, requests), k), requests[|requests| - 1].time - windowMs) != []
    ensures HeldSince(limit, windowMs, requests, |requests|, k)
  {
    assert requests[..|requests|] == requests;
  }

  lemma AgreesAt(windowMs: int, s: State, log: seq<Hit>, now: Time, k: Key)
    requires Agrees(windowMs, s, log, now)
    ensures Live(Get(s.hits, k), now - windowMs) == Live(TimesOf(log, k), now - windowMs)
  {
    assert SameAfter(Get(s.hits, k), TimesOf(log, k), now - windowMs);
  }

  lemma SweptKeyNotExpired(limit: int, windowMs: int, requests: seq<Hit>, k: Key)
    requires requests != [] && k in After(limit, windowMs, requests).hits
    requires After(limit, windowMs, requests).callsSinceSweep == 0
    ensures !Expired(After(limit, windowMs, requests).hits[k], requests[|requests| - 1].time - windowMs)
  {
  }

  lemma SweptIsLive(timestamps: seq<Time>, cutoff: Time)
    requires !Expired(timestamps, cutoff)
    ensures Live(timestamps, cutoff) != []
  {
    var i :| 0 <= i < |timestamps| && timestamps[i] > cutoff;
    assert timestamps[i] in Live(timestamps, cutoff);
  }

  lemma HeldExtends(limit: int, windowMs: int, requests: seq<Hit>, n: nat, k: Key)
    requires n < |requests| && HeldSince(limit, windowMs, requests[..|requests| - 1], n, k)
    ensures HeldSince(limit, windowMs, requests, n, k)
  {
    var front := requests[..|requests| - 1];
    assert front[..n] == requests[..n];
    if exists i :: n <= i < |front| && front[i].key == k {
      var i :| n <= i < |front| && front[i].key == k;
      assert requests[i].key == k;
    }
  }
}
