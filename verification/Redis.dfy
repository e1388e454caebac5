/**
 The Redis client: a store of cells with an expiry, read against one millisecond clock. A cell written with
 EX n at time t exists on [t, t + 1000 n). Key strings are built from a prefix and parameters; each prefix
 is a constructor here.
 */
module Redis {
  import opened Wrappers
  import opened Text

  datatype Key =
    | RateLimitKey(name: Text)
    | ReplayKey(tenantId: Text, requestId: Text)
    | LoginFailureKey(tenantId: Text, username: Text)
    | LoginLockKey(tenantId: Text, username: Text)
    | TargetTokenKey(tenantId: Text, digest: Text)

  /** A counter, the text "1", or a stored document of type B. */
  datatype Value<+B> = Counter(n: int) | Flag | Document(doc: B)

  datatype Cell<+B> = Cell(value: Value<B>, expiresAt: Option<int>)

  type Store<B> = map<Key, Cell<B>>

  predicate Live<B>(store: Store<B>, key: Key, now: int) {
    key in store && (store[key].expiresAt.None? || now < store[key].expiresAt.value)
  }

  /** GET */
  function Read<B>(store: Store<B>, key: Key, now: int): Option<Value<B>> {
    if Live(store, key, now) then Some(store[key].value) else None
  }

  /** SET key value EX ttlSeconds */
  function SetEx<B>(store: Store<B>, key: Key, value: Value<B>, ttlSeconds: int, now: int): Store<B> {
    store[key := Cell(value, Some(now + 1000 * ttlSeconds))]
  }

  /** INCR, and EXPIRE when the counter was created. */
  function Incr<B>(store: Store<B>, key: Key, ttlSeconds: int, now: int): Store<B>
    requires Live(store, key, now) ==> store[key].value.Counter?
  {
    if Live(store, key, now) then store[key := Cell(Counter(store[key].value.n + 1), store[key].expiresAt)]
    else SetEx(store, key, Counter(1), ttlSeconds, now)
  }

  class RedisService<B> {
    var store: Store<B>
    var connected: bool

    constructor ()
      ensures store == map[] && connected
    {
      store, connected := map[], true;
    }

    /** `reachable` says whether the server answers this command. A missing or zero TTL sets no expiry. */
    method Set(key: Key, value: Value<B>, ttlSeconds: Option<nat>, now: int, reachable: bool) returns (ok: bool)
      modifies this`store
      ensures ok == (connected && reachable)
      ensures store == if !ok then old(store)
                       else if ttlSeconds.Some? && ttlSeconds.value != 0 then SetEx(old(store), key, value, ttlSeconds.value, now)
                       else old(store)[key := Cell(value, None)]
    {
      if !connected || !reachable { return false; }
      if ttlSeconds.Some? && ttlSeconds.value != 0 {
        store := SetEx(store, key, value, ttlSeconds.value, now);
        return true;
      }
      store := store[key := Cell(value, None)];
      return true;
    }

    method Get(key: Key, now: int, reachable: bool) returns (r: Result<Option<Value<B>>, ()>)
      ensures r == if connected && reachable then Ok(Read(store, key, now)) else Err(())
    {
      if !connected || !reachable { return Err(()); }
      return Ok(Read(store, key, now));
    }

    method Delete(key: Key, reachable: bool) returns (ok: bool)
      modifies this`store
      ensures ok == (connected && reachable)
      ensures store == if ok then old(store) - {key} else old(store)
    {
      if !connected || !reachable { return false; }
      store := store - {key};
      return true;
    }

    /** SET key value EX ttlSeconds NX: true exactly when no live cell was there. */
    method SetIfAbsent(key: Key, value: Value<B>, ttlSeconds: nat, now: int, reachable: bool) returns (r: Result<bool, ()>)
      modifies this`store
      ensures r == if connected && reachable then Ok(!Live(old(store), key, now)) else Err(())
      ensures store == if r == Ok(true) then SetEx(old(store), key, value, ttlSeconds, now) else old(store)
    {
      if !connected || !reachable { return Err(()); }
      if Live(store, key, now) { return Ok(false); }
      store := SetEx(store, key, value, ttlSeconds, now);
      return Ok(true);
    }

    /** The new count. INCR on a cell that is not a counter is an error of the server. */
    method Increment(key: Key, ttlSeconds: nat, now: int, reachable: bool) returns (r: Result<int, ()>)
      modifies this`store
      ensures r.Err? <==> !connected || !reachable || (Live(old(store), key, now) && !old(store)[key].value.Counter?)
      ensures r.Err? ==> store == old(store)
      ensures r.Ok? ==> store == Incr(old(store), key, ttlSeconds, now) && store[key].value == Counter(r.value)
    {
      if !connected || !reachable || (Live(store, key, now) && !store[key].value.Counter?) { return Err(()); }
      store := Incr(store, key, ttlSeconds, now);
      return Ok(store[key].value.n);
    }
  }
}
