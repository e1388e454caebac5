/**
 Password login with its lockout: five failures inside a fifteen-minute counter window lock the username for
 fifteen minutes. Over a sliding interval the bound is eight failed password checks, not five, and eight is
 reached.
 */
module Login {
  import opened Wrappers
  import opened Text
  import opened Redis
  import opened RateLimit

  const LOGIN_LOCK_THRESHOLD := 5
  const LOGIN_FAILURE_WINDOW_SECONDS := 15 * 60
  const LOGIN_LOCK_DURATION_SECONDS := 15 * 60
  const WINDOW_MS := 1000 * LOGIN_FAILURE_WINDOW_SECONDS

  /** The scrypt hash is modelled by the password it was made from. */
  datatype Operator = Operator(id: string, password: Text, status: string)

  datatype Outcome = Locked | Failed | Success

  datatype LoginResult = LoggedIn(operator: Operator) | InvalidCredentials | AccountLocked | RateLimited | Unavailable

  // ---------- one attempt on the store ----------

  ghost predicate LoginCells<B>(store: Store<B>) {
    && Counters(store)
    && forall tenantId, user :: LoginFailureKey(tenantId, user) in store ==> store[LoginFailureKey(tenantId, user)].value.Counter?
  }

  /** The failure was the one that locks. */
  predicate Locks<B>(store: Store<B>, tenantId: Text, user: Text, now: int)
    requires Live(store, LoginFailureKey(tenantId, user), now) ==> store[LoginFailureKey(tenantId, user)].value.Counter?
  {
    Incr(store, LoginFailureKey(tenantId, user), LOGIN_FAILURE_WINDOW_SECONDS, now)[LoginFailureKey(tenantId, user)].value.n
      >= LOGIN_LOCK_THRESHOLD
  }

  function AfterFailure<B>(store: Store<B>, tenantId: Text, user: Text, now: int): Store<B>
    requires Live(store, LoginFailureKey(tenantId, user), now) ==> store[LoginFailureKey(tenantId, user)].value.Counter?
  {
    var counted := Incr(store, LoginFailureKey(tenantId, user), LOGIN_FAILURE_WINDOW_SECONDS, now);
    if Locks(store, tenantId, user, now) then
      SetEx(counted, LoginLockKey(tenantId, user), Flag, LOGIN_LOCK_DURATION_SECONDS, now) - {LoginFailureKey(tenantId, user)}
    else counted
  }

  function OutcomeOf<B>(store: Store<B>, tenantId: Text, user: Text, good: bool, now: int): Outcome {
    if Live(store, LoginLockKey(tenantId, user), now) then Locked else if good then Success else Failed
  }

  function AfterAttempt<B>(store: Store<B>, tenantId: Text, user: Text, good: bool, now: int): Store<B>
    requires Live(store, LoginFailureKey(tenantId, user), now) ==> store[LoginFailureKey(tenantId, user)].value.Counter?
  {
    match OutcomeOf(store, tenantId, user, good, now)
    case Locked => store
    case Success => store - {LoginFailureKey(tenantId, user)}
    case Failed => AfterFailure(store, tenantId, user, now)
  }

  // ---------- the service ----------

  class AuthService<B> {
    const tenantId: Text
    const redis: RedisService<B>
    const rateLimit: RateLimitService<B>
    /** String.prototype.toLowerCase */
    const lower: Text -> Text
    var operators: map<Text, Operator>

    constructor (tenantId: Text, redis: RedisService<B>, rateLimit: RateLimitService<B>, lower: Text -> Text,
                 operators: map<Text, Operator>)
      requires rateLimit.redis == redis
      ensures this.tenantId == tenantId && this.redis == redis && this.rateLimit == rateLimit
      ensures this.lower == lower && this.operators == operators
    {
      this.tenantId, this.redis, this.rateLimit := tenantId, redis, rateLimit;
      this.lower, this.operators := lower, operators;
    }

    ghost predicate Valid()
      reads this, redis, rateLimit
    {
      rateLimit.redis == redis && LoginCells(redis.store)
    }

    function UserKey(username: Text): Text {
      var key := lower(Trim(username));
      if key == [] then Literal("unknown") else key
    }

    /** The credentials are those of an active operator; the username is compared before lower-casing. */
    predicate Matches(username: Text, password: Text)
      reads this
    {
      var name := Trim(username);
      name in operators && operators[name].status == "active" && operators[name].password == password
    }

    method Login(username: Text, password: Text, ip: Option<Text>, now: int, reachable: bool) returns (r: LoginResult)
      requires Valid()
      modifies redis`store, rateLimit`alerts
      ensures Valid()
      ensures r == Unavailable <==> !redis.connected || !reachable
      ensures r == Unavailable ==> redis.store == old(redis.store)
      ensures var name := Literal("login:ip:") + (if ip.Some? then ip.value else Literal("unknown"));
              var counted := Incr(old(redis.store), RateLimitKey(name), 60, now);
              var user := UserKey(username);
              r != Unavailable ==>
                && (r == RateLimited <==> Count(counted, name) > 10)
                && (r == RateLimited ==> redis.store == counted)
                && (r != RateLimited ==>
                      && redis.store == AfterAttempt(counted, tenantId, user, Matches(username, password), now)
                      && match OutcomeOf(counted, tenantId, user, Matches(username, password), now)
                         case Locked => r == AccountLocked
                         case Failed => r == InvalidCredentials
                         case Success => r == LoggedIn(operators[Trim(username)]))
    {
      var user := UserKey(username);
      var name := Literal("login:ip:") + (if ip.Some? then ip.value else Literal("unknown"));
      var verdict := rateLimit.AssertAllowed(name, 10, 60, now, reachable);
      if verdict == BackendError { return Unavailable; }
      if verdict == Limited { return RateLimited; }
      var lock := redis.Get(LoginLockKey(tenantId, user), now, reachable);
      if lock.Ok? && lock.value.Some? { return AccountLocked; }
      if !Matches(username, password) {
        var locked := RecordFailedLogin(user, now, reachable);
        return InvalidCredentials;
      }
      var cleared := redis.Delete(LoginFailureKey(tenantId, user), reachable);
      return LoggedIn(operators[Trim(username)]);
    }

    method RecordFailedLogin(user: Text, now: int, reachable: bool) returns (locked: bool)
      requires Valid() && redis.connected && reachable
      modifies redis`store
      ensures Valid()
      ensures locked == Locks(old(redis.store), tenantId, user, now)
      ensures redis.store == AfterFailure(old(redis.store), tenantId, user, now)
    {
      var failures := redis.Increment(LoginFailureKey(tenantId, user), LOGIN_FAILURE_WINDOW_SECONDS, now, reachable);
      if failures.value < LOGIN_LOCK_THRESHOLD { return false; }
      var stored := redis.Set(LoginLockKey(tenantId, user), Flag, Some(LOGIN_LOCK_DURATION_SECONDS), now, reachable);
      var deleted := redis.Delete(LoginFailureKey(tenantId, user), reachable);
      return true;
    }
  }

  // ---------- runs of attempts on one username key ----------

  /** An attempt that passed the IP limiter; `good` when its credentials are right. */
  datatype Attempt = Attempt(at: int, good: bool)

  datatype Event = Event(at: int, outcome: Outcome)

  ghost predicate InOrder(attempts: seq<Attempt>) {
    forall i, j :: 0 <= i < j < |attempts| ==> attempts[i].at <= attempts[j].at
  }

  function Events<B>(store: Store<B>, tenantId: Text, user: Text, attempts: seq<Attempt>): (events: seq<Event>)
    requires LoginCells(store)
    ensures |events| == |attempts|
    ensures forall i :: 0 <= i < |attempts| ==> events[i].at == attempts[i].at
    decreases |attempts|
  {
    if attempts == [] then []
    else
      var t := attempts[0].at;
      [Event(t, OutcomeOf(store, tenantId, user, attempts[0].good, t))]
      + Events(AfterAttempt(store, tenantId, user, attempts[0].good, t), tenantId, user, attempts[1..])
  }

  /** Failed password checks in [a, b). */
  function FailuresIn(events: seq<Event>, a: int, b: int): nat {
    if events == [] then 0
    else (if a <= events[0].at < b && events[0].outcome == Failed then 1 else 0) + FailuresIn(events[1..], a, b)
  }

  ghost predicate NoSuccessIn(events: seq<Event>, a: int, b: int) {
    forall i :: 0 <= i < |events| && a <= events[i].at < b ==> events[i].outcome != Success
  }

  /** The failure counter stands at `count` and is live until `until`. */
  predicate Counting<B>(store: Store<B>, tenantId: Text, user: Text, count: int, until: int) {
    && LoginFailureKey(tenantId, user) in store
    && store[LoginFailureKey(tenantId, user)] == Cell(Counter(count), Some(until))
  }

  predicate LockedUntil<B>(store: Store<B>, tenantId: Text, user: Text, until: int) {
    LoginLockKey(tenantId, user) in store && store[LoginLockKey(tenantId, user)] == Cell(Flag, Some(until))
  }

  function AfterAttempts<B>(store: Store<B>, tenantId: Text, user: Text, attempts: seq<Attempt>): (r: Store<B>)
    requires LoginCells(store)
    ensures LoginCells(r)
    decreases |attempts|
  {
    if attempts == [] then store
    else AfterAttempts(AfterAttempt(store, tenantId, user, attempts[0].good, attempts[0].at), tenantId, user, attempts[1..])
  }

  /** While the lock lives, every attempt is refused without a password check, right credentials or not, and the lock stays. */
  lemma {:induction false} LockHolds<B>(store: Store<B>, tenantId: Text, user: Text, attempts: seq<Attempt>, until: int, i: nat)
    requires LoginCells(store) && InOrder(attempts) && LockedUntil(store, tenantId, user, until)
    requires i < |attempts| && attempts[i].at < until
    ensures Events(store, tenantId, user, attempts)[i].outcome == Locked
    ensures LockedUntil(AfterAttempts(store, tenantId, user, attempts[..i + 1]), tenantId, user, until)
    decreases |attempts|
  {
    assert attempts[..i + 1][1..] == attempts[1..][..i];
    if i > 0 { LockHolds(store, tenantId, user, attempts[1..], until, i - 1); }
  }

  lemma {:induction false} NoFailureWhileLocked<B>(store: Store<B>, tenantId: Text, user: Text, attempts: seq<Attempt>, until: int, a: int, b: int)
    requires LoginCells(store) && InOrder(attempts) && b <= until && LockedUntil(store, tenantId, user, until)
    ensures FailuresIn(Events(store, tenantId, user, attempts), a, b) == 0
    decreases |attempts|
  {
    if attempts != [] {
      if attempts[0].at < b {
        NoFailureWhileLocked(store, tenantId, user, attempts[1..], until, a, b);
      } else {
        NoFailureAfter(store, tenantId, user, attempts, a, b);
      }
    }
  }

  lemma {:induction false} NoFailureAfter<B>(store: Store<B>, tenantId: Text, user: Text, attempts: seq<Attempt>, a: int, b: int)
    requires LoginCells(store) && InOrder(attempts) && (attempts != [] ==> b <= attempts[0].at)
    ensures FailuresIn(Events(store, tenantId, user, attempts), a, b) == 0
    decreases |attempts|
  {
    if attempts != [] {
      NoFailureAfter(AfterAttempt(store, tenantId, user, attempts[0].good, attempts[0].at), tenantId, user, attempts[1..], a, b);
    }
  }

  /** A counter window that lasts to the end of the interval allows what is left up to the locking failure. */
  lemma {:induction false} OneCounter<B>(store: Store<B>, tenantId: Text, user: Text, attempts: seq<Attempt>, count: int, until: int, a: int, b: int)
    requires LoginCells(store) && InOrder(attempts) && (attempts != [] ==> a <= attempts[0].at)
    requires b <= a + WINDOW_MS && b <= until && 1 <= count <= 4 && Counting(store, tenantId, user, count, until)
    requires NoSuccessIn(Events(store, tenantId, user, attempts), a, b)
    ensures FailuresIn(Events(store, tenantId, user, attempts), a, b) <= 5 - count
    decreases |attempts|
  {
    if attempts != [] {
      var t := attempts[0].at;
      var events := Events(store, tenantId, user, attempts);
      var store' := AfterAttempt(store, tenantId, user, attempts[0].good, t);
      TailHasNoSuccess(events, a, b);
      if t >= b {
        NoFailureAfter(store, tenantId, user, attempts, a, b);
      } else if events[0].outcome == Failed && count == 4 {
        NoFailureWhileLocked(store', tenantId, user, attempts[1..], t + WINDOW_MS, a, b);
      } else {
        assert events[0].outcome != Success;
        OneCounter(store', tenantId, user, attempts[1..], if events[0].outcome == Failed then count + 1 else count, until, a, b);
      }
    }
  }

  lemma TailHasNoSuccess(events: seq<Event>, a: int, b: int)
    requires events != [] && NoSuccessIn(events, a, b)
    ensures NoSuccessIn(events[1..], a, b)
  {
  }

  /** No counter is live any more: the interval sees one counter of its own at most. */
  lemma {:induction false} NewCounter<B>(store: Store<B>, tenantId: Text, user: Text, attempts: seq<Attempt>, a: int, b: int)
    requires LoginCells(store) && InOrder(attempts) && b <= a + WINDOW_MS
    requires attempts != [] ==> a <= attempts[0].at && !Live(store, LoginFailureKey(tenantId, user), attempts[0].at)
    requires NoSuccessIn(Events(store, tenantId, user, attempts), a, b)
    ensures FailuresIn(Events(store, tenantId, user, attempts), a, b) <= 5
    decreases |attempts|
  {
    if attempts != [] {
      var t := attempts[0].at;
      var events := Events(store, tenantId, user, attempts);
      var store' := AfterAttempt(store, tenantId, user, attempts[0].good, t);
      TailHasNoSuccess(events, a, b);
      if t >= b {
        NoFailureAfter(store, tenantId, user, attempts, a, b);
      } else if events[0].outcome == Failed {
        OneCounter(store', tenantId, user, attempts[1..], 1, t + WINDOW_MS, a, b);
      } else {
        assert events[0].outcome != Success;
        NewCounter(store', tenantId, user, attempts[1..], a, b);
      }
    }
  }

  /** A counter opened before the interval: what is left of it without locking, then one counter more. */
  lemma {:induction false} OldCounter<B>(store: Store<B>, tenantId: Text, user: Text, attempts: seq<Attempt>, count: int, until: int, a: int, b: int)
    requires LoginCells(store) && InOrder(attempts) && (attempts != [] ==> a <= attempts[0].at)
    requires b <= a + WINDOW_MS && 1 <= count <= 4 && Counting(store, tenantId, user, count, until)
    requires NoSuccessIn(Events(store, tenantId, user, attempts), a, b)
    ensures FailuresIn(Events(store, tenantId, user, attempts), a, b) <= 9 - count
    decreases |attempts|
  {
    if attempts != [] {
      var t := attempts[0].at;
      var events := Events(store, tenantId, user, attempts);
      var store' := AfterAttempt(store, tenantId, user, attempts[0].good, t);
      TailHasNoSuccess(events, a, b);
      if t >= b {
        NoFailureAfter(store, tenantId, user, attempts, a, b);
      } else if until <= t {
        NewCounter(store, tenantId, user, attempts, a, b);
      } else if events[0].outcome == Failed && count == 4 {
        NoFailureWhileLocked(store', tenantId, user, attempts[1..], t + WINDOW_MS, a, b);
      } else {
        assert events[0].outcome != Success;
        OldCounter(store', tenantId, user, attempts[1..], if events[0].outcome == Failed then count + 1 else count, until, a, b);
      }
    }
  }

  /** The counter, if there is one, is below the threshold: reaching it deletes the counter. */
  predicate BelowThreshold<B>(store: Store<B>, tenantId: Text, user: Text) {
    LoginFailureKey(tenantId, user) in store ==>
      var cell := store[LoginFailureKey(tenantId, user)];
      cell.value.Counter? && 1 <= cell.value.n <= 4 && cell.expiresAt.Some?
  }

  /** Attempts keep the counter below the threshold, so it is there in every store they reach from one without it. */
  lemma {:induction false} StaysBelowThreshold<B>(store: Store<B>, tenantId: Text, user: Text, attempts: seq<Attempt>)
    requires LoginCells(store) && BelowThreshold(store, tenantId, user)
    ensures BelowThreshold(AfterAttempts(store, tenantId, user, attempts), tenantId, user)
    decreases |attempts|
  {
    if attempts != [] {
      StaysBelowThreshold(AfterAttempt(store, tenantId, user, attempts[0].good, attempts[0].at), tenantId, user, attempts[1..]);
    }
  }

  /**
   The lockout bound: whatever was attempted before, fifteen minutes without a successful login see at most
   eight failed password checks.
   */
  lemma {:induction false} LockoutBound<B>(store: Store<B>, tenantId: Text, user: Text, attempts: seq<Attempt>, a: int)
    requires LoginCells(store) && BelowThreshold(store, tenantId, user) && InOrder(attempts)
    requires NoSuccessIn(Events(store, tenantId, user, attempts), a, a + WINDOW_MS)
    ensures FailuresIn(Events(store, tenantId, user, attempts), a, a + WINDOW_MS) <= 8
    decreases |attempts|
  {
    if attempts != [] {
      var t := attempts[0].at;
      if a <= t {
        if LoginFailureKey(tenantId, user) in store {
          var cell := store[LoginFailureKey(tenantId, user)];
          OldCounter(store, tenantId, user, attempts, cell.value.n, cell.expiresAt.value, a, a + WINDOW_MS);
        } else {
          NewCounter(store, tenantId, user, attempts, a, a + WINDOW_MS);
        }
      } else {
        TailHasNoSuccess(Events(store, tenantId, user, attempts), a, a + WINDOW_MS);
        LockoutBound(AfterAttempt(store, tenantId, user, attempts[0].good, t), tenantId, user, attempts[1..], a);
      }
    }
  }

  // ---------- eight is reached ----------

  function Failures(n: nat, at: int): (r: seq<Attempt>)
    ensures |r| == n && forall i :: 0 <= i < n ==> r[i] == Attempt(at, false)
  {
    if n == 0 then [] else [Attempt(at, false)] + Failures(n - 1, at)
  }

  /** One failure, three at the end of its counter's life, five on the next counter. */
  function WorstCase(): seq<Attempt> {
    Failures(1, 0) + Failures(3, WINDOW_MS - 1) + Failures(5, WINDOW_MS)
  }

  /** One failure below the threshold, on a store without a lock. */
  lemma FailOnce<B>(store: Store<B>, tenantId: Text, user: Text, attempts: seq<Attempt>, count: int, until: int)
    requires LoginCells(store) && LoginLockKey(tenantId, user) !in store && 1 <= count <= 3
    requires Counting(store, tenantId, user, count, until)
    requires attempts != [] && !attempts[0].good && attempts[0].at < until
    ensures var store' := AfterFailure(store, tenantId, user, attempts[0].at);
      && LoginCells(store') && LoginLockKey(tenantId, user) !in store' && Counting(store', tenantId, user, count + 1, until)
      && Events(store, tenantId, user, attempts) == [Event(attempts[0].at, Failed)] + Events(store', tenantId, user, attempts[1..])
  {
  }

  lemma {:induction false} FailuresCounted(events: seq<Event>, a: int, b: int)
    requires forall i :: 0 <= i < |events| ==> events[i].outcome == Failed && a <= events[i].at < b
    ensures FailuresIn(events, a, b) == |events|
  {
    if events != [] { FailuresCounted(events[1..], a, b); }
  }

  /** The first failure on a dead counter opens a new one. */
  lemma FailFirst<B>(store: Store<B>, tenantId: Text, user: Text, attempts: seq<Attempt>)
    requires LoginCells(store) && LoginLockKey(tenantId, user) !in store
    requires attempts != [] && !attempts[0].good && !Live(store, LoginFailureKey(tenantId, user), attempts[0].at)
    ensures var store' := AfterFailure(store, tenantId, user, attempts[0].at);
      && LoginCells(store') && LoginLockKey(tenantId, user) !in store'
      && Counting(store', tenantId, user, 1, attempts[0].at + WINDOW_MS)
      && Events(store, tenantId, user, attempts) == [Event(attempts[0].at, Failed)] + Events(store', tenantId, user, attempts[1..])
  {
  }

  /** From a fresh counter, a whole run of failures at one time is checked, up to the one that locks. */
  lemma {:induction false} AllFail<B>(store: Store<B>, tenantId: Text, user: Text, attempts: seq<Attempt>, count: int, until: int, at: int)
    requires LoginCells(store) && LoginLockKey(tenantId, user) !in store && Counting(store, tenantId, user, count, until)
    requires 1 <= count && count + |attempts| <= 5 && at < until
    requires forall i :: 0 <= i < |attempts| ==> attempts[i] == Attempt(at, false)
    ensures forall i :: 0 <= i < |attempts| ==> Events(store, tenantId, user, attempts)[i] == Event(at, Failed)
    decreases |attempts|
  {
    if |attempts| == 1 {
      assert attempts[0] == Attempt(at, false);
    } else if attempts != [] {
      FailOnce(store, tenantId, user, attempts, count, until);
      AllFail(AfterFailure(store, tenantId, user, at), tenantId, user, attempts[1..], count + 1, until, at);
    }
  }

  /** Up to three failures on a live counter are checked, and the attempts after them go on from where it then stands. */
  lemma {:induction false} FailsThenRest<B>(store: Store<B>, tenantId: Text, user: Text, n: nat, at: int, rest: seq<Attempt>, count: int, until: int)
    returns (store': Store<B>)
    requires LoginCells(store) && LoginLockKey(tenantId, user) !in store && Counting(store, tenantId, user, count, until)
    requires 1 <= count && count + n <= 4 && at < until
    ensures LoginCells(store') && LoginLockKey(tenantId, user) !in store' && Counting(store', tenantId, user, count + n, until)
    ensures forall a, b :: a <= at < b ==>
      FailuresIn(Events(store, tenantId, user, Failures(n, at) + rest), a, b) == n + FailuresIn(Events(store', tenantId, user, rest), a, b)
    ensures (forall i :: 0 <= i < |rest| ==> Events(store', tenantId, user, rest)[i].outcome != Success) ==>
      forall i :: 0 <= i < n + |rest| ==> Events(store, tenantId, user, Failures(n, at) + rest)[i].outcome != Success
    decreases n
  {
    var attempts := Failures(n, at) + rest;
    if n == 0 {
      assert attempts == rest;
      return store;
    }
    assert attempts[0] == Attempt(at, false) && attempts[1..] == Failures(n - 1, at) + rest;
    FailOnce(store, tenantId, user, attempts, count, until);
    store' := FailsThenRest(AfterFailure(store, tenantId, user, at), tenantId, user, n - 1, at, rest, count + 1, until);
    var events := Events(store, tenantId, user, attempts);
    assert events[1..] == Events(AfterFailure(store, tenantId, user, at), tenantId, user, attempts[1..]);
  }

  /** A dead counter and five failures at once: all five are checked. */
  lemma FiveFail<B>(store: Store<B>, tenantId: Text, user: Text, at: int)
    requires LoginCells(store) && LoginLockKey(tenantId, user) !in store && !Live(store, LoginFailureKey(tenantId, user), at)
    ensures forall i :: 0 <= i < 5 ==> Events(store, tenantId, user, Failures(5, at))[i] == Event(at, Failed)
  {
    var attempts := Failures(5, at);
    FailFirst(store, tenantId, user, attempts);
    var store' := AfterFailure(store, tenantId, user, at);
    AllFail(store', tenantId, user, attempts[1..], 1, at + WINDOW_MS, at);
    forall i | 0 <= i < 5 ensures Events(store, tenantId, user, attempts)[i] == Event(at, Failed) {
      if i > 0 { assert Events(store, tenantId, user, attempts)[i] == Events(store', tenantId, user, attempts[1..])[i - 1]; }
    }
  }

  lemma WorstCaseInOrder()
    ensures InOrder(WorstCase()) && |WorstCase()| == 9
    ensures WorstCase()[0] == Attempt(0, false)
    ensures WorstCase()[1..] == Failures(3, WINDOW_MS - 1) + Failures(5, WINDOW_MS)
  {
  }

  lemma EightAfterOne<B>(store: Store<B>, tenantId: Text, user: Text)
    requires LoginCells(store) && LoginLockKey(tenantId, user) !in store && Counting(store, tenantId, user, 1, WINDOW_MS)
    ensures var events := Events(store, tenantId, user, Failures(3, WINDOW_MS - 1) + Failures(5, WINDOW_MS));
      FailuresIn(events, 1, 1 + WINDOW_MS) == 8 && forall i :: 0 <= i < |events| ==> events[i].outcome != Success
  {
    var last := Failures(5, WINDOW_MS);
    var store' := FailsThenRest(store, tenantId, user, 3, WINDOW_MS - 1, last, 1, WINDOW_MS);
    FiveFail(store', tenantId, user, WINDOW_MS);
    FailuresCounted(Events(store', tenantId, user, last), 1, 1 + WINDOW_MS);
  }

  /** Tightness: eight failed checks within one interval of fifteen minutes, and no success. */
  lemma LockoutBoundReached(tenantId: Text, user: Text)
    ensures InOrder(WorstCase())
    ensures var events := Events<()>(map[], tenantId, user, WorstCase());
      NoSuccessIn(events, 1, 1 + WINDOW_MS) && FailuresIn(events, 1, 1 + WINDOW_MS) == 8
  {
    WorstCaseInOrder();
    var attempts := WorstCase();
    var store: Store<()> := map[];
    FailFirst(store, tenantId, user, attempts);
    EightAfterOne(AfterFailure(store, tenantId, user, 0), tenantId, user);
    Conclude(Events(store, tenantId, user, attempts), 1, 1 + WINDOW_MS);
  }

  lemma Conclude(events: seq<Event>, a: int, b: int)
    requires events != [] && events[0].at < a && forall i :: 0 <= i < |events[1..]| ==> events[1..][i].outcome != Success
    ensures NoSuccessIn(events, a, b) && FailuresIn(events, a, b) == FailuresIn(events[1..], a, b)
  {
  }
}
