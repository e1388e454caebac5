/**
 The fixed-window rate limiter on INCR and EXPIRE, and what it guarantees over a sliding interval: for every
 run of calls, at most 2 * limit - 1 admitted calls in any half-open interval of the window's length, a bound
 that some run reaches.
 */
module RateLimit {
  import opened Wrappers
  import opened Text
  import opened Redis

  datatype Verdict = Allowed | Limited | BackendError

  class RateLimitService<B> {
    const redis: RedisService<B>
    /** The `rate_limit.exceeded` alerts raised so far, by key. */
    var alerts: seq<Text>

    constructor (redis: RedisService<B>)
      ensures this.redis == redis && alerts == []
    {
      this.redis, alerts := redis, [];
    }

    method AssertAllowed(name: Text, limit: nat, windowSeconds: nat, now: int, reachable: bool) returns (r: Verdict)
      modifies this`alerts, redis`store
      ensures r == BackendError <==>
              !redis.connected || !reachable ||
              (Live(old(redis.store), RateLimitKey(name), now) && !old(redis.store)[RateLimitKey(name)].value.Counter?)
      ensures r == BackendError ==> redis.store == old(redis.store)
      ensures r != BackendError ==>
        && redis.store == Incr(old(redis.store), RateLimitKey(name), windowSeconds, now)
        && (r == Allowed <==> Count(redis.store, name) <= limit)
      ensures alerts == if r == Limited then old(alerts) + [name] else old(alerts)
    {
      var hit := redis.Increment(RateLimitKey(name), windowSeconds, now, reachable);
      if hit.Err? { return BackendError; }
      if hit.value <= limit { return Allowed; }
      alerts := alerts + [name];
      return Limited;
    }
  }

  // ---------- runs ----------

  function Count<B>(store: Store<B>, name: Text): int {
    if RateLimitKey(name) in store && store[RateLimitKey(name)].value.Counter? then store[RateLimitKey(name)].value.n else 0
  }

  /** One call of the limiter, for any key. */
  datatype Call = Call(name: Text, windowSeconds: nat, at: int)

  ghost predicate InOrder(calls: seq<Call>) {
    forall i, j :: 0 <= i < j < |calls| ==> calls[i].at <= calls[j].at
  }

  /** Every call on `name` asks for the same window. */
  ghost predicate SameWindow(calls: seq<Call>, name: Text, windowSeconds: nat) {
    forall i :: 0 <= i < |calls| && calls[i].name == name ==> calls[i].windowSeconds == windowSeconds
  }

  /** No rate-limit cell holds anything but a counter. */
  ghost predicate Counters<B>(store: Store<B>) {
    forall name :: RateLimitKey(name) in store ==> store[RateLimitKey(name)].value.Counter?
  }

  function After<B>(store: Store<B>, call: Call): Store<B>
    requires Counters(store)
  {
    Incr(store, RateLimitKey(call.name), call.windowSeconds, call.at)
  }

  /** The times at which calls on `name` are admitted when `calls` are made one after the other. */
  function Admitted<B>(store: Store<B>, calls: seq<Call>, name: Text, limit: nat): seq<int>
    requires Counters(store)
    decreases |calls|
  {
    if calls == [] then []
    else
      var store' := After(store, calls[0]);
      (if calls[0].name == name && Count(store', name) <= limit then [calls[0].at] else [])
      + Admitted(store', calls[1..], name, limit)
  }

  /** How many of `times` fall in [a, b). */
  function CountIn(times: seq<int>, a: int, b: int): nat {
    if times == [] then 0 else (if a <= times[0] < b then 1 else 0) + CountIn(times[1..], a, b)
  }

  // ---------- counting ----------

  /** The counter on `name` stands at `count` and is live until `until`. */
  predicate WindowOpen<B>(store: Store<B>, name: Text, count: int, until: int) {
    RateLimitKey(name) in store && store[RateLimitKey(name)] == Cell(Counter(count), Some(until))
  }

  function Left(limit: nat, count: int): nat { if count <= limit then limit - count else 0 }

  lemma CountInCons(t: int, times: seq<int>, a: int, b: int)
    ensures CountIn([t] + times, a, b) == (if a <= t < b then 1 else 0) + CountIn(times, a, b)
    ensures [] + times == times
  {
  }

  /** The first call counts if it is on the key, in the interval and within the limit; then the others. */
  lemma CountFirst<B>(store: Store<B>, calls: seq<Call>, name: Text, limit: nat, a: int, b: int)
    requires Counters(store) && calls != []
    ensures CountIn(Admitted(store, calls, name, limit), a, b)
         == (if calls[0].name == name && Count(After(store, calls[0]), name) <= limit && a <= calls[0].at < b then 1 else 0)
            + CountIn(Admitted(After(store, calls[0]), calls[1..], name, limit), a, b)
  {
    CountInCons(calls[0].at, Admitted(After(store, calls[0]), calls[1..], name, limit), a, b);
  }

  /** The counter after one more call, which may be on another key. */
  lemma CounterAfter<B>(store: Store<B>, call: Call, name: Text, count: int, until: int)
    requires Counters(store) && WindowOpen(store, name, count, until)
    ensures call.name != name ==> WindowOpen(After(store, call), name, count, until)
    ensures call.name == name && call.at < until ==> WindowOpen(After(store, call), name, count + 1, until)
    ensures call.name == name && until <= call.at ==> WindowOpen(After(store, call), name, 1, call.at + 1000 * call.windowSeconds)
  {
  }

  lemma Tail(calls: seq<Call>, name: Text, windowSeconds: nat)
    requires calls != [] && InOrder(calls)
    ensures InOrder(calls[1..]) && (|calls| > 1 ==> calls[0].at <= calls[1..][0].at)
    ensures SameWindow(calls, name, windowSeconds) ==> SameWindow(calls[1..], name, windowSeconds)
  {
  }

  lemma {:induction false} NothingAfter<B>(store: Store<B>, calls: seq<Call>, name: Text, limit: nat, a: int, b: int)
    requires Counters(store) && InOrder(calls) && (calls != [] ==> b <= calls[0].at)
    ensures CountIn(Admitted(store, calls, name, limit), a, b) == 0
    decreases |calls|
  {
    if calls != [] {
      Tail(calls, name, 0);
      CountFirst(store, calls, name, limit, a, b);
      NothingAfter(After(store, calls[0]), calls[1..], name, limit, a, b);
    }
  }

  /** What is left of a window that lasts to the end of the interval. */
  lemma {:induction false} OneWindow<B>(store: Store<B>, calls: seq<Call>, name: Text, limit: nat, count: nat, until: int, a: int, b: int)
    requires Counters(store) && InOrder(calls) && WindowOpen(store, name, count, until) && b <= until
    ensures CountIn(Admitted(store, calls, name, limit), a, b) <= Left(limit, count)
    decreases |calls|
  {
    if calls != [] {
      if calls[0].at >= b {
        NothingAfter(store, calls, name, limit, a, b);
      } else {
        Tail(calls, name, 0);
        CountFirst(store, calls, name, limit, a, b);
        CounterAfter(store, calls[0], name, count, until);
        OneWindow(After(store, calls[0]), calls[1..], name, limit, if calls[0].name == name then count + 1 else count, until, a, b);
      }
    }
  }

  /** Inside the interval: what is left of the window open at its start, and at most one window more. */
  lemma {:induction false} RestAndOneWindow<B>(store: Store<B>, calls: seq<Call>, name: Text, limit: nat, windowSeconds: nat,
                                                count: nat, until: int, a: int)
    requires Counters(store) && InOrder(calls) && SameWindow(calls, name, windowSeconds)
    requires WindowOpen(store, name, count, until) && limit >= 1
    requires calls != [] ==> a <= calls[0].at
    ensures CountIn(Admitted(store, calls, name, limit), a, a + 1000 * windowSeconds) <= Left(limit, count) + limit
    decreases |calls|
  {
    if calls != [] {
      var b := a + 1000 * windowSeconds;
      var store' := After(store, calls[0]);
      Tail(calls, name, windowSeconds);
      CountFirst(store, calls, name, limit, a, b);
      CounterAfter(store, calls[0], name, count, until);
      if calls[0].name != name {
        RestAndOneWindow(store', calls[1..], name, limit, windowSeconds, count, until, a);
      } else if calls[0].at < until {
        RestAndOneWindow(store', calls[1..], name, limit, windowSeconds, count + 1, until, a);
      } else {
        OneWindow(store', calls[1..], name, limit, 1, calls[0].at + 1000 * windowSeconds, a, b);
      }
    }
  }

  /** Up to the interval's start, some window has been opened and has taken its first call. */
  lemma {:induction false} TwoWindows<B>(store: Store<B>, calls: seq<Call>, name: Text, limit: nat, windowSeconds: nat,
                                          count: nat, until: int, a: int)
    requires Counters(store) && InOrder(calls) && SameWindow(calls, name, windowSeconds)
    requires WindowOpen(store, name, count, until) && limit >= 1 && count >= 1
    ensures CountIn(Admitted(store, calls, name, limit), a, a + 1000 * windowSeconds) <= 2 * limit - 1
    decreases |calls|
  {
    if calls != [] {
      var t := calls[0].at;
      if a <= t {
        RestAndOneWindow(store, calls, name, limit, windowSeconds, count, until, a);
      } else {
        Tail(calls, name, windowSeconds);
        CountFirst(store, calls, name, limit, a, a + 1000 * windowSeconds);
        CounterAfter(store, calls[0], name, count, until);
        var mine := calls[0].name == name;
        TwoWindows(After(store, calls[0]), calls[1..], name, limit, windowSeconds,
                   if mine && until <= t then 1 else if mine then count + 1 else count,
                   if mine && until <= t then t + 1000 * windowSeconds else until, a);
      }
    }
  }

  /**
   The sliding bound. Whatever the calls, on this key and on others, any interval as long as the window holds
   at most 2 * limit - 1 admitted calls on the key.
   */
  lemma {:induction false} SlidingBound<B>(store: Store<B>, calls: seq<Call>, name: Text, limit: nat, windowSeconds: nat, a: int)
    requires Counters(store) && RateLimitKey(name) !in store
    requires InOrder(calls) && SameWindow(calls, name, windowSeconds) && limit >= 1
    ensures CountIn(Admitted(store, calls, name, limit), a, a + 1000 * windowSeconds) <= 2 * limit - 1
    decreases |calls|
  {
    if calls != [] {
      var b := a + 1000 * windowSeconds;
      var store' := After(store, calls[0]);
      Tail(calls, name, windowSeconds);
      CountFirst(store, calls, name, limit, a, b);
      if calls[0].name != name {
        SlidingBound(store', calls[1..], name, limit, windowSeconds, a);
      } else if a <= calls[0].at {
        OneWindow(store', calls[1..], name, limit, 1, calls[0].at + 1000 * windowSeconds, a, b);
      } else {
        TwoWindows(store', calls[1..], name, limit, windowSeconds, 1, calls[0].at + 1000 * windowSeconds, a);
      }
    }
  }

  /** With limit 0 nothing is ever admitted. */
  lemma {:induction false} LimitZero<B>(store: Store<B>, calls: seq<Call>, name: Text)
    requires Counters(store) && (RateLimitKey(name) in store ==> Count(store, name) >= 0)
    ensures Admitted(store, calls, name, 0) == []
    decreases |calls|
  {
    if calls != [] { LimitZero(After(store, calls[0]), calls[1..], name); }
  }

  // ---------- one window, exactly ----------

  function Times(calls: seq<Call>, name: Text): seq<int> {
    if calls == [] then []
    else (if calls[0].name == name then [calls[0].at] else []) + Times(calls[1..], name)
  }

  function FirstOf(times: seq<int>, n: nat): seq<int> {
    if n <= |times| then times[..n] else times
  }

  /**
   Inside a window exactly the first calls up to the limit are admitted, and the denied ones leave its end
   where it was.
   */
  lemma {:induction false} WindowAdmitsFirst<B>(store: Store<B>, calls: seq<Call>, name: Text, limit: nat, count: nat, until: int)
    requires Counters(store) && WindowOpen(store, name, count, until)
    requires forall i :: 0 <= i < |calls| ==> calls[i].at < until
    ensures Admitted(store, calls, name, limit) == FirstOf(Times(calls, name), Left(limit, count))
    ensures WindowOpen(AfterAll(store, calls), name, count + |Times(calls, name)|, until)
    decreases |calls|
  {
    if calls != [] {
      var mine := calls[0].name == name;
      WindowAdmitsFirst(After(store, calls[0]), calls[1..], name, limit, if mine then count + 1 else count, until);
    }
  }

  ghost function AfterAll<B>(store: Store<B>, calls: seq<Call>): (r: Store<B>)
    requires Counters(store)
    ensures Counters(r)
    decreases |calls|
  {
    if calls == [] then store else AfterAll(After(store, calls[0]), calls[1..])
  }

  // ---------- the bound is reached ----------

  function Burst(n: nat, name: Text, windowSeconds: nat, at: int): (calls: seq<Call>)
    ensures |calls| == n && forall i :: 0 <= i < n ==> calls[i] == Call(name, windowSeconds, at)
  {
    if n == 0 then [] else [Call(name, windowSeconds, at)] + Burst(n - 1, name, windowSeconds, at)
  }

  /** One call, then the rest of the limit at the very end of its window, then a full new window at once. */
  function WorstCase(name: Text, limit: nat, windowSeconds: nat): seq<Call>
    requires limit >= 1
  {
    [Call(name, windowSeconds, 0)]
    + (Burst(limit - 1, name, windowSeconds, 1000 * windowSeconds - 1) + Burst(limit, name, windowSeconds, 1000 * windowSeconds))
  }

  lemma {:induction false} BurstAdmitted<B>(store: Store<B>, n: nat, rest: seq<Call>, name: Text, limit: nat, windowSeconds: nat,
                                             at: int, count: nat, until: int, a: int, b: int)
    requires Counters(store) && WindowOpen(store, name, count, until) && a <= at < b && at < until && count + n <= limit
    ensures WindowOpen(AfterAll(store, Burst(n, name, windowSeconds, at)), name, count + n, until)
    ensures CountIn(Admitted(store, Burst(n, name, windowSeconds, at) + rest, name, limit), a, b)
         == n + CountIn(Admitted(AfterAll(store, Burst(n, name, windowSeconds, at)), rest, name, limit), a, b)
    decreases n
  {
    var burst := Burst(n, name, windowSeconds, at);
    if n == 0 {
      assert burst + rest == rest;
    } else {
      var store' := After(store, Call(name, windowSeconds, at));
      assert (burst + rest)[1..] == Burst(n - 1, name, windowSeconds, at) + rest;
      assert burst[1..] == Burst(n - 1, name, windowSeconds, at);
      BurstAdmitted(store', n - 1, rest, name, limit, windowSeconds, at, count + 1, until, a, b);
      CountInCons(at, Admitted(store', Burst(n - 1, name, windowSeconds, at) + rest, name, limit), a, b);
    }
  }

  /** A full burst once the previous window is over is admitted to the last call. */
  lemma NewWindowBurst<B>(store: Store<B>, name: Text, limit: nat, windowSeconds: nat, at: int, count: nat, until: int, a: int, b: int)
    requires Counters(store) && WindowOpen(store, name, count, until) && until <= at && a <= at < b && limit >= 1 && windowSeconds >= 1
    ensures CountIn(Admitted(store, Burst(limit, name, windowSeconds, at), name, limit), a, b) == limit
  {
    var burst := Burst(limit, name, windowSeconds, at);
    var store' := After(store, burst[0]);
    var others := Burst(limit - 1, name, windowSeconds, at);
    assert burst[1..] == others + [];
    BurstAdmitted(store', limit - 1, [], name, limit, windowSeconds, at, 1, at + 1000 * windowSeconds, a, b);
    CountInCons(at, Admitted(store', others + [], name, limit), a, b);
  }

  lemma WorstCaseInOrder(name: Text, limit: nat, windowSeconds: nat)
    requires limit >= 1 && windowSeconds >= 1
    ensures InOrder(WorstCase(name, limit, windowSeconds)) && SameWindow(WorstCase(name, limit, windowSeconds), name, windowSeconds)
  {
  }

  /** The two bursts, in a window opened at 0 by one call. */
  lemma BurstsInOneInterval<B>(store: Store<B>, name: Text, limit: nat, windowSeconds: nat, w: nat)
    requires Counters(store) && w == 1000 * windowSeconds && WindowOpen(store, name, 1, w) && limit >= 1 && windowSeconds >= 1
    ensures var bursts := Burst(limit - 1, name, windowSeconds, w - 1) + Burst(limit, name, windowSeconds, w);
      CountIn(Admitted(store, bursts, name, limit), w - 1, w - 1 + w) == 2 * limit - 1
  {
    var first, second := Burst(limit - 1, name, windowSeconds, w - 1), Burst(limit, name, windowSeconds, w);
    BurstAdmitted(store, limit - 1, second, name, limit, windowSeconds, w - 1, 1, w, w - 1, w - 1 + w);
    NewWindowBurst(AfterAll(store, first), name, limit, windowSeconds, w, limit, w, w - 1, w - 1 + w);
  }

  /** Tightness: an orderly run that puts 2 * limit - 1 admitted calls into one interval of the window's length. */
  lemma SlidingBoundReached(name: Text, limit: nat, windowSeconds: nat)
    requires limit >= 1 && windowSeconds >= 1
    ensures InOrder(WorstCase(name, limit, windowSeconds)) && SameWindow(WorstCase(name, limit, windowSeconds), name, windowSeconds)
    ensures var a := 1000 * windowSeconds - 1;
      CountIn(Admitted<()>(map[], WorstCase(name, limit, windowSeconds), name, limit), a, a + 1000 * windowSeconds) == 2 * limit - 1
  {
    WorstCaseInOrder(name, limit, windowSeconds);
    var w := 1000 * windowSeconds;
    var calls := WorstCase(name, limit, windowSeconds);
    var store: Store<()> := After(map[], Call(name, windowSeconds, 0));
    var bursts := Burst(limit - 1, name, windowSeconds, w - 1) + Burst(limit, name, windowSeconds, w);
    assert calls[0] == Call(name, windowSeconds, 0) && calls[1..] == bursts;
    BurstsInOneInterval(store, name, limit, windowSeconds, w);
    CountInCons(0, Admitted(store, bursts, name, limit), w - 1, w - 1 + w);
  }

  /** At most `limit` admitted calls in every interval of the window's length, over every orderly run on the key. */
  ghost predicate KeepsLimit(name: Text, limit: nat, windowSeconds: nat) {
    forall calls, a :: InOrder(calls) && SameWindow(calls, name, windowSeconds) ==> WithinLimit(calls, name, limit, windowSeconds, a)
  }

  ghost predicate WithinLimit(calls: seq<Call>, name: Text, limit: nat, windowSeconds: nat, a: int) {
    CountIn(Admitted<()>(map[], calls, name, limit), a, a + 1000 * windowSeconds) <= limit
  }

  /** What a sliding window would promise holds of this limiter exactly for limits 0 and 1. */
  lemma SlidingWindowIff(name: Text, limit: nat, windowSeconds: nat)
    requires windowSeconds >= 1
    ensures KeepsLimit(name, limit, windowSeconds) <==> limit <= 1
  {
    if limit <= 1 {
      forall calls, a | InOrder(calls) && SameWindow(calls, name, windowSeconds) ensures WithinLimit(calls, name, limit, windowSeconds, a) {
        if limit == 0 { LimitZero<()>(map[], calls, name); } else { SlidingBound<()>(map[], calls, name, limit, windowSeconds, a); }
      }
    } else {
      SlidingBoundReached(name, limit, windowSeconds);
      assert !WithinLimit(WorstCase(name, limit, windowSeconds), name, limit, windowSeconds, 1000 * windowSeconds - 1);
    }
  }
}
