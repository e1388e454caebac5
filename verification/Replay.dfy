/**
 Replay protection of requester assertions: SET NX EX on the request id. Over every run of issuing, verifying
 and guarding, a request id passes at most once exactly when the guard's TTL covers the assertion's lifetime
 plus the longest delay between the verification of an assertion and its guard.
 */
module Replay {
  import opened Wrappers
  import opened Text
  import opened Redis

  /** Lifetime of a requester assertion. */
  const ASSERTION_TTL_SECONDS := 300

  datatype GuardError = ReplayProtectionUnavailable | RequestReplayed

  class ReplayProtectionService<B> {
    const tenantId: Text
    const replayTtlSeconds: nat
    const redis: RedisService<B>

    constructor (tenantId: Text, replayTtlSeconds: nat, redis: RedisService<B>)
      ensures this.tenantId == tenantId && this.replayTtlSeconds == replayTtlSeconds && this.redis == redis
    {
      this.tenantId, this.replayTtlSeconds, this.redis := tenantId, replayTtlSeconds, redis;
    }

    /** Passes, and takes the key, exactly when no live key was there; an unreachable store lets nothing pass. */
    method AssertNotReplayed(requestId: Text, now: int, reachable: bool) returns (r: Option<GuardError>)
      modifies redis`store
      ensures var key := ReplayKey(tenantId, requestId);
              var up := redis.connected && reachable;
              && (r.None? <==> up && !Live(old(redis.store), key, now))
              && (r == Some(RequestReplayed) <==> up && Live(old(redis.store), key, now))
              && redis.store == if r.None? then SetEx(old(redis.store), key, Flag, replayTtlSeconds, now) else old(redis.store)
    {
      var accepted := redis.SetIfAbsent(ReplayKey(tenantId, requestId), Flag, replayTtlSeconds, now, reachable);
      match accepted
      case Err(_) => return Some(ReplayProtectionUnavailable);
      case Ok(absent) => return if absent then None else Some(RequestReplayed);
    }
  }

  // ---------- runs ----------

  /** `maxDelayMs`: the most that passes between the verification and the guard of one exchange. */
  datatype Config = Config(tenantId: Text, replayTtlSeconds: nat, maxDelayMs: nat)

  /** An exchange between its verification and its guard. */
  datatype Verified = Verified(requestId: Text, at: int)

  /** `issued`: the `iat` of the assertion carrying each request id. `passed`: the ids that got through the guard. */
  datatype State<B> = State(now: int, store: Store<B>, issued: map<Text, int>, exchanges: map<nat, Verified>, passed: multiset<Text>)

  datatype Action =
    | Advance(ms: nat)
    | Issue(requestId: Text)
    | Verify(exchange: nat, requestId: Text)
    | Guard(exchange: nat)

  function Start<B>(): State<B> {
    State(0, map[], map[], map[], multiset{})
  }

  /** Request ids are random and so never issued twice; an exchange waits at most `maxDelayMs` for its guard. */
  predicate Enabled<B>(cfg: Config, s: State<B>, a: Action) {
    match a
    case Advance(_) => true
    case Issue(requestId) => requestId !in s.issued
    case Verify(e, requestId) =>
      e !in s.exchanges && requestId in s.issued && Unexpired(s.issued[requestId] + ASSERTION_TTL_SECONDS, s.now)
    case Guard(e) => e in s.exchanges && s.now <= s.exchanges[e].at + cfg.maxDelayMs
  }

  function Apply<B>(cfg: Config, s: State<B>, a: Action): State<B>
    requires Enabled(cfg, s, a)
  {
    match a
    case Advance(ms) => s.(now := s.now + ms)
    case Issue(requestId) => s.(issued := s.issued[requestId := s.now / 1000])
    case Verify(e, requestId) => s.(exchanges := s.exchanges[e := Verified(requestId, s.now)])
    case Guard(e) =>
      var id := s.exchanges[e].requestId;
      var key := ReplayKey(cfg.tenantId, id);
      var s' := s.(exchanges := s.exchanges - {e});
      if Live(s.store, key, s.now) then s'
      else s'.(store := SetEx(s.store, key, Flag, cfg.replayTtlSeconds, s.now), passed := s.passed + multiset{id})
  }

  /** The state after a list of actions, if each is possible in its turn. */
  function Run<B>(cfg: Config, acts: seq<Action>): Option<State<B>> {
    if acts == [] then Some(Start())
    else
      match Run<B>(cfg, acts[..|acts| - 1])
      case None => None
      case Some(s) => if Enabled(cfg, s, acts[|acts| - 1]) then Some(Apply(cfg, s, acts[|acts| - 1])) else None
  }

  ghost predicate AtMostOnce(cfg: Config) {
    forall acts, id :: Run<()>(cfg, acts).Some? ==> Run<()>(cfg, acts).value.passed[id] <= 1
  }

  ghost predicate IssuedInPast<B>(s: State<B>) {
    forall id :: id in s.issued ==> 1000 * s.issued[id] <= s.now
  }

  /** A waiting exchange was verified while its assertion was unexpired. */
  ghost predicate VerifiedInTime<B>(s: State<B>) {
    forall e :: e in s.exchanges ==>
      var v := s.exchanges[e];
      v.requestId in s.issued && v.at < 1000 * (s.issued[v.requestId] + ASSERTION_TTL_SECONDS)
  }

  /** An id that passed did so once, and its key lasts at least the guard's TTL from its issue. */
  ghost predicate PassedOnce<B>(cfg: Config, s: State<B>) {
    forall id :: id in s.passed ==>
      && s.passed[id] == 1 && id in s.issued
      && HeldUntil(s.store, ReplayKey(cfg.tenantId, id), 1000 * (s.issued[id] + cfg.replayTtlSeconds))
  }

  predicate HeldUntil<B>(store: Store<B>, key: Key, until: int) {
    key in store && store[key].expiresAt.Some? && store[key].expiresAt.value >= until
  }

  ghost predicate Protected<B>(cfg: Config, s: State<B>) {
    IssuedInPast(s) && VerifiedInTime(s) && PassedOnce(cfg, s)
  }

  /** A key set by an earlier pass is still live, however late this guard comes. */
  lemma GuardedInTime<B>(cfg: Config, s: State<B>, e: nat)
    requires 1000 * cfg.replayTtlSeconds >= 1000 * ASSERTION_TTL_SECONDS + cfg.maxDelayMs
    requires Protected(cfg, s) && Enabled(cfg, s, Guard(e)) && s.exchanges[e].requestId in s.passed
    ensures Live(s.store, ReplayKey(cfg.tenantId, s.exchanges[e].requestId), s.now)
  {
  }

  lemma PassKeepsOthers<B>(cfg: Config, s: State<B>, e: nat)
    requires Protected(cfg, s) && Enabled(cfg, s, Guard(e)) && s.exchanges[e].requestId !in s.passed
    ensures PassedOnce(cfg, Apply(cfg, s, Guard(e)))
  {
  }

  lemma ProtectedStep<B>(cfg: Config, s: State<B>, a: Action)
    requires 1000 * cfg.replayTtlSeconds >= 1000 * ASSERTION_TTL_SECONDS + cfg.maxDelayMs
    requires Protected(cfg, s) && Enabled(cfg, s, a)
    ensures Protected(cfg, Apply(cfg, s, a))
  {
    if a.Guard? {
      if s.exchanges[a.exchange].requestId in s.passed {
        GuardedInTime(cfg, s, a.exchange);
      } else {
        PassKeepsOthers(cfg, s, a.exchange);
      }
    }
  }

  lemma {:induction false} RunsAreProtected<B>(cfg: Config, acts: seq<Action>)
    requires 1000 * cfg.replayTtlSeconds >= 1000 * ASSERTION_TTL_SECONDS + cfg.maxDelayMs
    requires Run<B>(cfg, acts).Some?
    ensures Protected(cfg, Run<B>(cfg, acts).value)
  {
    if acts != [] {
      RunsAreProtected<B>(cfg, acts[..|acts| - 1]);
      ProtectedStep(cfg, Run<B>(cfg, acts[..|acts| - 1]).value, acts[|acts| - 1]);
    }
  }

  lemma Extend<B>(cfg: Config, acts: seq<Action>, s: State<B>, a: Action) returns (acts': seq<Action>, s': State<B>)
    requires Run<B>(cfg, acts) == Some(s) && Enabled(cfg, s, a)
    ensures s' == Apply(cfg, s, a) && Run<B>(cfg, acts') == Some(s')
  {
    acts', s' := acts + [a], Apply(cfg, s, a);
    assert acts'[..|acts'| - 1] == acts;
  }

  lemma FirstUse(cfg: Config, id: Text) returns (acts: seq<Action>, s: State<()>)
    ensures Run<()>(cfg, acts) == Some(s)
    ensures s == State(0, map[ReplayKey(cfg.tenantId, id) := Cell(Flag, Some(1000 * cfg.replayTtlSeconds))], map[id := 0], map[], multiset{id})
  {
    acts, s := Extend(cfg, [], Start<()>(), Issue(id));
    acts, s := Extend(cfg, acts, s, Verify(0, id));
    assert s.exchanges == map[0 := Verified(id, 0)];
    acts, s := Extend(cfg, acts, s, Guard(0));
    assert s.exchanges == map[] && s.passed == multiset{id};
  }

  /** A second use verified at the last moment and guarded as late as possible, after the first use's key has gone. */
  lemma SecondUsePasses(cfg: Config, id: Text)
    requires 1000 * cfg.replayTtlSeconds < 1000 * ASSERTION_TTL_SECONDS + cfg.maxDelayMs
    ensures !AtMostOnce(cfg)
  {
    var acts, s := FirstUse(cfg, id);
    acts, s := Extend(cfg, acts, s, Advance(1000 * ASSERTION_TTL_SECONDS - 1));
    acts, s := Extend(cfg, acts, s, Verify(1, id));
    acts, s := Extend(cfg, acts, s, Advance(cfg.maxDelayMs));
    acts, s := Extend(cfg, acts, s, Guard(1));
    assert s.passed[id] == 2;
  }

  /** The guard is at-most-once in every run exactly when its TTL covers lifetime and delay. */
  lemma AtMostOnceIffCovered(cfg: Config)
    ensures AtMostOnce(cfg) <==> 1000 * cfg.replayTtlSeconds >= 1000 * ASSERTION_TTL_SECONDS + cfg.maxDelayMs
  {
    if 1000 * cfg.replayTtlSeconds >= 1000 * ASSERTION_TTL_SECONDS + cfg.maxDelayMs {
      forall acts, id | Run<()>(cfg, acts).Some? ensures Run<()>(cfg, acts).value.passed[id] <= 1 {
        RunsAreProtected<()>(cfg, acts);
      }
    } else {
      SecondUsePasses(cfg, []);
    }
  }
}
