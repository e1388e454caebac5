/**
 Authorised exchanges can be answered: from any state whose rows authorise a request there is a run that returns its
 first token newly signed, and the next from the cache exactly when its lifetime exceeds the reuse threshold. A
 concrete state shows that the assumptions of the results on runs are met.
 */
module ExchangeAnswers {
  import opened Wrappers
  import opened Text
  import opened Json
  import opened Clients
  import opened Directory
  import opened Redis
  import opened Broker
  import opened Requester
  import opened Exchange
  import opened ExchangeRuns

  // ---------- building runs ----------

  /** Steps of exchanges under way; none begins and no time passes. */
  predicate Plain(acts: seq<Action>) { forall i :: 0 <= i < |acts| ==> OfExchange(acts[i]) && !acts[i].Begin? }

  lemma Extend(cfg: Settings, s0: State, acts: seq<Action>, s: State, a: Action) returns (acts': seq<Action>, s': State)
    requires Run(cfg, s0, acts) == Some(s) && Enabled(cfg, s, a)
    ensures s' == Apply(cfg, s, a) && Run(cfg, s0, acts') == Some(s')
    ensures OfExchange(a) && !a.Begin? && Plain(acts) ==> Plain(acts')
  {
    acts', s' := acts + [a], Apply(cfg, s, a);
    assert Run(cfg, s, [a]) == Some(s');
    RunThen(cfg, s0, acts, [a]);
  }

  lemma {:induction false} RunThen(cfg: Settings, s: State, acts: seq<Action>, more: seq<Action>)
    requires Run(cfg, s, acts).Some?
    ensures Run(cfg, s, acts + more) == Run(cfg, Run(cfg, s, acts).value, more)
    decreases |acts|
  {
    if acts == [] {
      assert [] + more == more;
    } else {
      assert (acts + more)[1..] == acts[1..] + more;
      RunThen(cfg, Apply(cfg, s, acts[0]), acts[1..], more);
    }
  }

  /** Clock and rows are as before; so is every exchange but one. */
  predicate Beside(s: State, s': State, p: nat) { s'.now == s.now && s'.rows == s.rows && s'.flights - {p} == s.flights - {p} }

  /** Nothing is written by the exchange that moves. */
  predicate OnlyMoves(s: State, s': State, p: nat) {
    Beside(s, s', p) && p in s'.flights && s'.cache == s.cache && s'.returned == s.returned && s'.signed == s.signed
  }

  lemma OneMoves(s: State, s': State, p: nat, g: Flight)
    requires s'.now == s.now && s'.rows == s.rows && s'.cache == s.cache && s'.returned == s.returned && s'.signed == s.signed
    requires s'.flights == s.flights[p := g]
    ensures OnlyMoves(s, s', p)
  {
  }

  lemma ReadStep(cfg: Settings, s0: State, acts: seq<Action>, s: State, a: Action) returns (acts': seq<Action>, s': State)
    requires Run(cfg, s0, acts) == Some(s) && IsRead(a) && a.p in s.flights && Answers(cfg, Present(s), s.flights[a.p], a)
    ensures Run(cfg, s0, acts') == Some(s') && OnlyMoves(s, s', a.p)
    ensures s'.flights[a.p] == AfterRead(cfg, Present(s), |s.history|, s.flights[a.p], a)
    ensures Plain(acts) ==> Plain(acts')
  {
    acts', s' := Extend(cfg, s0, acts, s, a);
    OneMoves(s, s', a.p, AfterRead(cfg, Present(s), |s.history|, s.flights[a.p], a));
  }

  // ---------- one check after the other ----------

  /** What a request asks, and what its answer will rest on. */
  datatype Ask = Ask(claims: RequesterClaims, who: Who, code: Text, target: Target, a: Authorization, ttl: nat)

  /** The exchange asks this and has found, up to its phase, what the answer will rest on. */
  predicate Follows(f: Flight, q: Ask) {
    && f.claims == q.claims && f.who == q.who && f.code == q.code
    && (Rank(f.phase) >= Rank(TargetSeen) ==> f.seen.target == q.target)
    && (Rank(f.phase) >= Rank(PrincipalSeen) ==> f.seen.a.principalDbId == q.a.principalDbId)
    && (Rank(f.phase) >= Rank(RuntimeSeen) ==> f.seen.a.runtime == q.a.runtime)
    && (Rank(f.phase) >= Rank(CredentialSeen) ==> f.seen.a.credentialId == q.a.credentialId)
    && (Rank(f.phase) >= Rank(ConnectionSeen) ==> f.seen.a.connectionId == q.a.connectionId && f.seen.ttl == q.ttl)
    && (Rank(f.phase) >= Rank(GrantSeen) ==> f.seen.a.grantId == q.a.grantId)
  }

  predicate Stands(s: State, p: nat, q: Ask, phase: Phase) { p in s.flights && s.flights[p].phase == phase && Follows(s.flights[p], q) }

  lemma TargetFollows(cfg: Settings, m: Moment, k: nat, f: Flight, p: nat, q: Ask)
    requires f.phase == Admitted && Follows(f, q) && TargetActive(m.rows, q.code) && m.rows.targets[q.code] == q.target
    ensures Answers(cfg, m, f, SeeTarget(p)) && AfterRead(cfg, m, k, f, SeeTarget(p)).phase == TargetSeen
    ensures Follows(AfterRead(cfg, m, k, f, SeeTarget(p)), q)
  {
  }

  lemma AgentFollows(cfg: Settings, m: Moment, k: nat, f: Flight, p: nat, q: Ask)
    requires f.phase == TargetSeen && Follows(f, q) && q.who.AgentRequester? && PrincipalActive(m.rows, q.who, q.a.principalDbId)
    ensures Answers(cfg, m, f, SeeAgent(p, q.a.principalDbId))
    ensures AfterRead(cfg, m, k, f, SeeAgent(p, q.a.principalDbId)).phase == PrincipalSeen
    ensures Follows(AfterRead(cfg, m, k, f, SeeAgent(p, q.a.principalDbId)), q)
  {
  }

  lemma RuntimeFollows(cfg: Settings, m: Moment, k: nat, f: Flight, p: nat, q: Ask)
    requires f.phase == PrincipalSeen && Follows(f, q) && RuntimeOk(m.rows, q.who, q.claims, q.a.principalDbId, q.a.runtime)
    ensures Answers(cfg, m, f, SeeRuntime(p, q.a.runtime))
    ensures AfterRead(cfg, m, k, f, SeeRuntime(p, q.a.runtime)).phase == RuntimeSeen
    ensures Follows(AfterRead(cfg, m, k, f, SeeRuntime(p, q.a.runtime)), q)
  {
  }

  lemma CredentialFollows(cfg: Settings, m: Moment, k: nat, f: Flight, p: nat, q: Ask)
    requires f.phase == RuntimeSeen && Follows(f, q)
    requires CredentialOk(m.rows, q.who, q.claims, q.a.principalDbId, q.a.runtime, q.a.credentialId, m.now)
    ensures Answers(cfg, m, f, SeeCredential(p, q.a.credentialId))
    ensures AfterRead(cfg, m, k, f, SeeCredential(p, q.a.credentialId)).phase == CredentialSeen
    ensures Follows(AfterRead(cfg, m, k, f, SeeCredential(p, q.a.credentialId)), q)
  {
  }

  lemma ApplicationFollows(cfg: Settings, m: Moment, k: nat, f: Flight, p: nat, q: Ask)
    requires f.phase == TargetSeen && Follows(f, q) && q.who.ApplicationRequester? && q.a.runtime.None?
    requires PrincipalActive(m.rows, q.who, q.a.principalDbId)
    requires CredentialOk(m.rows, q.who, q.claims, q.a.principalDbId, q.a.runtime, q.a.credentialId, m.now)
    ensures Answers(cfg, m, f, SeeApplication(p, q.a.credentialId))
    ensures AfterRead(cfg, m, k, f, SeeApplication(p, q.a.credentialId)).phase == CredentialSeen
    ensures Follows(AfterRead(cfg, m, k, f, SeeApplication(p, q.a.credentialId)), q)
  {
  }

  lemma ConnectionAnswers(cfg: Settings, m: Moment, k: nat, f: Flight, p: nat, q: Ask)
    requires f.phase == CredentialSeen && Follows(f, q)
    requires ConnectionOk(cfg.broker, m.rows, q.who, q.claims, q.code, q.a.runtime, q.a.connectionId, m.now)
    ensures Answers(cfg, m, f, SeeConnection(p, q.a.connectionId))
    ensures var g := AfterRead(cfg, m, k, f, SeeConnection(p, q.a.connectionId));
      && g.seen.a.connectionId == q.a.connectionId
      && g.seen.ttl == ResolveTokenTtl(cfg.targetTokenTtlSeconds, m.rows.connections[q.a.connectionId].maxTokenTtlSeconds)
  {
  }

  lemma ConnectedFollows(f: Flight, g: Flight, q: Ask)
    requires f.phase == CredentialSeen && g.phase == ConnectionSeen && Follows(f, q)
    requires g.claims == f.claims && g.who == f.who && g.code == f.code
    requires g.seen == f.seen.(a := f.seen.a.(connectionId := q.a.connectionId), connectionAt := g.seen.connectionAt, ttl := q.ttl)
    ensures Follows(g, q)
  {
  }

  lemma ConnectionFollows(cfg: Settings, m: Moment, k: nat, f: Flight, p: nat, q: Ask)
    requires f.phase == CredentialSeen && Follows(f, q)
    requires ConnectionOk(cfg.broker, m.rows, q.who, q.claims, q.code, q.a.runtime, q.a.connectionId, m.now)
    requires q.ttl == ResolveTokenTtl(cfg.targetTokenTtlSeconds, m.rows.connections[q.a.connectionId].maxTokenTtlSeconds)
    ensures Answers(cfg, m, f, SeeConnection(p, q.a.connectionId))
    ensures AfterRead(cfg, m, k, f, SeeConnection(p, q.a.connectionId)).phase == ConnectionSeen
    ensures Follows(AfterRead(cfg, m, k, f, SeeConnection(p, q.a.connectionId)), q)
  {
    ConnectionAnswers(cfg, m, k, f, p, q);
    ConnectionReadTouches(cfg, m, k, f, p, q.a.connectionId);
    ConnectedFollows(f, AfterRead(cfg, m, k, f, SeeConnection(p, q.a.connectionId)), q);
  }

  lemma GrantFollows(cfg: Settings, m: Moment, k: nat, f: Flight, p: nat, q: Ask)
    requires f.phase == ConnectionSeen && Follows(f, q) && GrantFits(m.rows, q.a.grantId, q.a.connectionId, m.now)
    ensures Answers(cfg, m, f, SeeGrant(p, q.a.grantId)) && AfterRead(cfg, m, k, f, SeeGrant(p, q.a.grantId)).phase == GrantSeen
    ensures Follows(AfterRead(cfg, m, k, f, SeeGrant(p, q.a.grantId)), q)
  {
  }

  lemma BeginFollows(claims: RequesterClaims, who: Who, code: Text, k: nat, q: Ask)
    requires q.claims == claims && q.who == who && q.code == code
    ensures Follows(Flight(claims, who, code, k, Admitted, NOTHING_SEEN, None, Miss), q)
  {
  }

  lemma BegunStands(cfg: Settings, s: State, p: nat, q: Ask)
    requires Enabled(cfg, s, Begin(p, q.claims, q.code)) && ReadAssertion(Some(q.claims), q.code).value.0 == q.who
    ensures var s' := Apply(cfg, s, Begin(p, q.claims, q.code)); OnlyMoves(s, s', p) && Stands(s', p, q, Admitted)
  {
    BeginFollows(q.claims, q.who, q.code, |s.history|, q);
  }

  lemma BeginStands(cfg: Settings, s: State, p: nat, q: Ask) returns (acts: seq<Action>, s': State)
    requires Enabled(cfg, s, Begin(p, q.claims, q.code)) && ReadAssertion(Some(q.claims), q.code).value.0 == q.who
    ensures Run(cfg, s, acts) == Some(s') && OnlyMoves(s, s', p) && Stands(s', p, q, Admitted)
  {
    BegunStands(cfg, s, p, q);
    acts, s' := Extend(cfg, s, [], s, Begin(p, q.claims, q.code));
  }

  /** One read further. */
  lemma StandsOn(cfg: Settings, s0: State, acts: seq<Action>, s: State, a: Action, q: Ask, phase: Phase)
    returns (acts': seq<Action>, s': State)
    requires Run(cfg, s0, acts) == Some(s) && IsRead(a) && a.p in s.flights && OnlyMoves(s0, s, a.p)
    requires Answers(cfg, Present(s), s.flights[a.p], a)
    requires var g := AfterRead(cfg, Present(s), |s.history|, s.flights[a.p], a); g.phase == phase && Follows(g, q)
    ensures Run(cfg, s0, acts') == Some(s') && OnlyMoves(s0, s', a.p) && Stands(s', a.p, q, phase)
    ensures Plain(acts) ==> Plain(acts')
  {
    acts', s' := ReadStep(cfg, s0, acts, s, a);
  }

  lemma TargetStands(cfg: Settings, s0: State, acts: seq<Action>, s: State, p: nat, q: Ask) returns (acts': seq<Action>, s': State)
    requires Run(cfg, s0, acts) == Some(s) && OnlyMoves(s0, s, p) && Stands(s, p, q, Admitted)
    requires TargetActive(s.rows, q.code) && s.rows.targets[q.code] == q.target
    ensures Run(cfg, s0, acts') == Some(s') && OnlyMoves(s0, s', p) && Stands(s', p, q, TargetSeen)
    ensures Plain(acts) ==> Plain(acts')
  {
    TargetFollows(cfg, Present(s), |s.history|, s.flights[p], p, q);
    acts', s' := StandsOn(cfg, s0, acts, s, SeeTarget(p), q, TargetSeen);
  }

  lemma IdentityStands(cfg: Settings, s0: State, acts: seq<Action>, s: State, p: nat, q: Ask) returns (acts': seq<Action>, s': State)
    requires Run(cfg, s0, acts) == Some(s) && OnlyMoves(s0, s, p) && Stands(s, p, q, TargetSeen)
    requires PrincipalActive(s.rows, q.who, q.a.principalDbId) && RuntimeOk(s.rows, q.who, q.claims, q.a.principalDbId, q.a.runtime)
    requires CredentialOk(s.rows, q.who, q.claims, q.a.principalDbId, q.a.runtime, q.a.credentialId, s.now)
    ensures Run(cfg, s0, acts') == Some(s') && OnlyMoves(s0, s', p) && Stands(s', p, q, CredentialSeen)
    ensures Plain(acts) ==> Plain(acts')
  {
    var m := Present(s);
    if q.who.ApplicationRequester? {
      ApplicationFollows(cfg, m, |s.history|, s.flights[p], p, q);
      acts', s' := StandsOn(cfg, s0, acts, s, SeeApplication(p, q.a.credentialId), q, CredentialSeen);
    } else {
      AgentFollows(cfg, m, |s.history|, s.flights[p], p, q);
      acts', s' := StandsOn(cfg, s0, acts, s, SeeAgent(p, q.a.principalDbId), q, PrincipalSeen);
      RuntimeFollows(cfg, m, |s'.history|, s'.flights[p], p, q);
      acts', s' := StandsOn(cfg, s0, acts', s', SeeRuntime(p, q.a.runtime), q, RuntimeSeen);
      CredentialFollows(cfg, m, |s'.history|, s'.flights[p], p, q);
      acts', s' := StandsOn(cfg, s0, acts', s', SeeCredential(p, q.a.credentialId), q, CredentialSeen);
    }
  }

  lemma RouteStands(cfg: Settings, s0: State, acts: seq<Action>, s: State, p: nat, q: Ask) returns (acts': seq<Action>, s': State)
    requires Run(cfg, s0, acts) == Some(s) && OnlyMoves(s0, s, p) && Stands(s, p, q, CredentialSeen)
    requires ConnectionOk(cfg.broker, s.rows, q.who, q.claims, q.code, q.a.runtime, q.a.connectionId, s.now)
    requires q.ttl == ResolveTokenTtl(cfg.targetTokenTtlSeconds, s.rows.connections[q.a.connectionId].maxTokenTtlSeconds)
    requires GrantFits(s.rows, q.a.grantId, q.a.connectionId, s.now)
    ensures Run(cfg, s0, acts') == Some(s') && OnlyMoves(s0, s', p) && Stands(s', p, q, GrantSeen)
    ensures Plain(acts) ==> Plain(acts')
  {
    ConnectionFollows(cfg, Present(s), |s.history|, s.flights[p], p, q);
    acts', s' := StandsOn(cfg, s0, acts, s, SeeConnection(p, q.a.connectionId), q, ConnectionSeen);
    GrantFollows(cfg, Present(s), |s'.history|, s'.flights[p], p, q);
    acts', s' := StandsOn(cfg, s0, acts', s', SeeGrant(p, q.a.grantId), q, GrantSeen);
  }

  /** The rows of now authorise what is asked. */
  ghost predicate Asks(cfg: Settings, rows: Rows, now: int, q: Ask) {
    && ReadAssertion(Some(q.claims), q.code).Some? && ReadAssertion(Some(q.claims), q.code).value.0 == q.who
    && (q.claims.externalContext.Some? ==> WellFormed(q.claims.externalContext.value))
    && Authorised(cfg.broker, rows, q.who, q.claims, q.code, q.a, now) && q.target == rows.targets[q.code]
    && q.ttl == ResolveTokenTtl(cfg.targetTokenTtlSeconds, rows.connections[q.a.connectionId].maxTokenTtlSeconds)
  }

  /** Every check of an authorised request passes. */
  lemma ChecksPass(cfg: Settings, s: State, p: nat, q: Ask) returns (acts: seq<Action>, s': State)
    requires Stands(s, p, q, Admitted) && Asks(cfg, s.rows, s.now, q)
    ensures Run(cfg, s, acts) == Some(s') && Plain(acts) && OnlyMoves(s, s', p) && Stands(s', p, q, GrantSeen)
  {
    acts, s' := [], s;
    assert OnlyMoves(s, s, p);
    acts, s' := TargetStands(cfg, s, acts, s', p, q);
    acts, s' := IdentityStands(cfg, s, acts, s', p, q);
    acts, s' := RouteStands(cfg, s, acts, s', p, q);
  }

  // ---------- from the last check to the answer ----------

  function AskedKey(cfg: Settings, q: Ask): Key {
    CacheKey(cfg.broker, BrokerContext(cfg.broker, q.target, q.who, q.claims, q.code, q.a))
  }

  function AskedToken(cfg: Settings, q: Ask, now: int, jti: Text): Token {
    Sign(cfg.broker, RequestedClaims(q.target, q.who, q.claims, q.code), q.target.audience, q.ttl, now, jti)
  }

  /** All that the answer will rest on has been found. */
  predicate Found(f: Flight, q: Ask) {
    f.claims == q.claims && f.who == q.who && f.code == q.code && f.seen.target == q.target && f.seen.a == q.a && f.seen.ttl == q.ttl
  }

  predicate Goes(s: State, p: nat, q: Ask, phase: Phase) { InPhase(s, p, phase) && Found(s.flights[p], q) }

  lemma AllFound(f: Flight, q: Ask)
    requires f.phase == GrantSeen && Follows(f, q)
    ensures Found(f, q)
  {
    assert f.seen.a.grantId == q.a.grantId && f.seen.a.connectionId == q.a.connectionId && f.seen.a.runtime == q.a.runtime;
  }

  lemma FoundKey(cfg: Settings, f: Flight, q: Ask)
    requires Found(f, q)
    ensures KeyOf(cfg, f) == AskedKey(cfg, q)
  {
  }

  lemma FoundToken(cfg: Settings, s: State, f: Flight, q: Ask, jti: Text)
    requires Found(f, q)
    ensures SignedBy(cfg, s, f, jti) == f.(phase := Signed, token := Some(AskedToken(cfg, q, s.now, jti)))
  {
  }

  lemma MissedFlight(cfg: Settings, s: State, f: Flight, q: Ask)
    requires Found(f, q) && Reusable(cfg.broker, s.cache, AskedKey(cfg, q), s.now).None?
    ensures AfterCacheRead(cfg, s, f, ALL_UP) == f.(phase := CacheMissed, cache := Miss)
  {
    FoundKey(cfg, f, q);
  }

  const ALL_UP := Health(true, true, true, true, true)

  lemma MissRead(cfg: Settings, s0: State, acts: seq<Action>, s: State, p: nat, q: Ask) returns (acts': seq<Action>, s': State)
    requires Run(cfg, s0, acts) == Some(s) && Goes(s, p, q, GrantSeen)
    requires Reusable(cfg.broker, s.cache, AskedKey(cfg, q), s.now).None?
    ensures Run(cfg, s0, acts') == Some(s') && Beside(s, s', p) && s'.returned == s.returned && s'.signed == s.signed
    ensures Goes(s', p, q, CacheMissed) && s'.flights[p].cache == Miss
    ensures Plain(acts) ==> Plain(acts')
  {
    MissedFlight(cfg, s, s.flights[p], q);
    acts', s' := Extend(cfg, s0, acts, s, ReadCache(p, ALL_UP));
  }

  lemma SignStep(cfg: Settings, s0: State, acts: seq<Action>, s: State, p: nat, q: Ask, jti: Text) returns (acts': seq<Action>, s': State)
    requires Run(cfg, s0, acts) == Some(s) && Goes(s, p, q, CacheMissed) && jti !in s.signed && s.flights[p].cache == Miss
    ensures Run(cfg, s0, acts') == Some(s') && Beside(s, s', p) && s'.returned == s.returned && s'.signed == s.signed + {jti}
    ensures Goes(s', p, q, Signed) && s'.flights[p].token == Some(AskedToken(cfg, q, s.now, jti)) && s'.flights[p].cache == Miss
    ensures Plain(acts) ==> Plain(acts')
  {
    FoundToken(cfg, s, s.flights[p], q, jti);
    acts', s' := Extend(cfg, s0, acts, s, SignToken(p, jti));
  }

  lemma WriteStep(cfg: Settings, s0: State, acts: seq<Action>, s: State, p: nat, q: Ask) returns (acts': seq<Action>, s': State)
    requires Run(cfg, s0, acts) == Some(s) && Goes(s, p, q, Signed) && s.flights[p].token.Some?
    ensures Run(cfg, s0, acts') == Some(s') && Beside(s, s', p) && s'.returned == s.returned && s'.signed == s.signed
    ensures Goes(s', p, q, ExchangeRuns.Written) && s'.flights[p].token == s.flights[p].token && s'.flights[p].cache == s.flights[p].cache
    ensures s'.cache == Broker.Written(s.cache, AskedKey(cfg, q), s.flights[p].token.value, s.now)
    ensures Plain(acts) ==> Plain(acts')
  {
    FoundKey(cfg, s.flights[p], q);
    acts', s' := Extend(cfg, s0, acts, s, WriteCache(p, true));
  }

  lemma RecordStep(cfg: Settings, s0: State, acts: seq<Action>, s: State, p: nat) returns (acts': seq<Action>, s': State)
    requires Run(cfg, s0, acts) == Some(s) && InPhase(s, p, ExchangeRuns.Written) && s.flights[p].token.Some?
    ensures Run(cfg, s0, acts') == Some(s') && Beside(s, s', p) && s'.returned == s.returned && s'.signed == s.signed && s'.cache == s.cache
    ensures p in s'.flights && s'.flights[p] == s.flights[p].(phase := Done)
    ensures Plain(acts) ==> Plain(acts')
  {
    acts', s' := Extend(cfg, s0, acts, s, Record(p));
  }

  lemma ReturnStep(cfg: Settings, s0: State, acts: seq<Action>, s: State, p: nat) returns (acts': seq<Action>, s': State)
    requires Run(cfg, s0, acts) == Some(s) && InPhase(s, p, Done) && s.flights[p].token.Some?
    ensures Run(cfg, s0, acts') == Some(s') && Beside(s, s', p) && s'.signed == s.signed && s'.cache == s.cache
    ensures p !in s'.flights && s'.returned == s.returned + [Returned(s.flights[p], s.flights[p].token.value, |s.history|)]
    ensures Plain(acts) ==> Plain(acts')
  {
    acts', s' := Extend(cfg, s0, acts, s, Return(p));
  }

  lemma WrittenIsReusable(cfg: Settings, store: Store<CacheDoc>, key: Key, q: Ask, now: int, jti: Text)
    ensures Reusable(cfg.broker, Broker.Written(store, key, AskedToken(cfg, q, now, jti), now), key, now)
            == if q.ttl > cfg.broker.reuseThresholdSeconds then Some(CacheEntry(AskedToken(cfg, q, now, jti))) else None
  {
    assert now == 1000 * (now / 1000) + now % 1000;
  }

  /** With nothing to reuse a new token is signed, cached, recorded and returned. */
  lemma MissReturns(cfg: Settings, s0: State, acts: seq<Action>, s: State, p: nat, q: Ask, jti: Text)
    returns (acts': seq<Action>, s': State, r: Returned)
    requires Run(cfg, s0, acts) == Some(s) && Goes(s, p, q, GrantSeen) && jti !in s.signed
    requires Reusable(cfg.broker, s.cache, AskedKey(cfg, q), s.now).None?
    ensures Run(cfg, s0, acts') == Some(s') && Beside(s, s', p) && p !in s'.flights && s'.signed == s.signed + {jti}
    ensures s'.returned == s.returned + [r] && r.flight.cache == Miss && Found(r.flight, q) && r.token == AskedToken(cfg, q, s.now, jti)
    ensures Reusable(cfg.broker, s'.cache, AskedKey(cfg, q), s.now)
            == if q.ttl > cfg.broker.reuseThresholdSeconds then Some(CacheEntry(r.token)) else None
    ensures Plain(acts) ==> Plain(acts')
  {
    acts', s' := MissRead(cfg, s0, acts, s, p, q);
    acts', s' := SignStep(cfg, s0, acts', s', p, q, jti);
    WrittenIsReusable(cfg, s'.cache, AskedKey(cfg, q), q, s.now, jti);
    acts', s' := WriteStep(cfg, s0, acts', s', p, q);
    acts', s' := RecordStep(cfg, s0, acts', s', p);
    r := Returned(s'.flights[p], s'.flights[p].token.value, |s'.history|);
    acts', s' := ReturnStep(cfg, s0, acts', s', p);
  }

  lemma HitFlightDone(cfg: Settings, s: State, f: Flight, q: Ask)
    requires Found(f, q) && Reusable(cfg.broker, s.cache, AskedKey(cfg, q), s.now).Some?
    ensures var g := AfterCacheRead(cfg, s, f, ALL_UP);
      g.phase == Done && g.cache == Hit && Found(g, q)
      && g.token == Some(Reusable(cfg.broker, s.cache, AskedKey(cfg, q), s.now).value.accessToken)
  {
    FoundKey(cfg, f, q);
  }

  /** A reusable entry is returned, and nothing is signed. */
  lemma HitReturns(cfg: Settings, s0: State, acts: seq<Action>, s: State, p: nat, q: Ask) returns (acts': seq<Action>, s': State, r: Returned)
    requires Run(cfg, s0, acts) == Some(s) && Goes(s, p, q, GrantSeen)
    requires Reusable(cfg.broker, s.cache, AskedKey(cfg, q), s.now).Some?
    ensures Run(cfg, s0, acts') == Some(s') && Beside(s, s', p) && p !in s'.flights && s'.signed == s.signed && s'.returned == s.returned + [r]
    ensures r.flight.cache == Hit && Found(r.flight, q)
    ensures r.token == Reusable(cfg.broker, s.cache, AskedKey(cfg, q), s.now).value.accessToken
    ensures Plain(acts) ==> Plain(acts')
  {
    HitFlightDone(cfg, s, s.flights[p], q);
    acts', s' := Extend(cfg, s0, acts, s, ReadCache(p, ALL_UP));
    r := Returned(s'.flights[p], s'.flights[p].token.value, |s'.history|);
    acts', s' := ReturnStep(cfg, s0, acts', s', p);
  }

  // ---------- main results ----------

  /** The run has answered `q` once more: from the cache if that has a reusable entry, and otherwise with the token signed as `jti`. */
  ghost predicate AnsweredOnce(cfg: Settings, s: State, s': State, q: Ask, jti: Text, r: Returned) {
    var cached := Reusable(cfg.broker, s.cache, AskedKey(cfg, q), s.now);
    && s'.returned == s.returned + [r] && Found(r.flight, q)
    && (r.flight.cache == Hit <==> cached.Some?)
    && r.token == (if cached.Some? then cached.value.accessToken else AskedToken(cfg, q, s.now, jti))
  }

  /** An authorised exchange past its guard is answered by steps of its own, whatever else is under way. */
  lemma AdmittedIsAnswered(cfg: Settings, s: State, p: nat, q: Ask, jti: Text) returns (acts: seq<Action>, s': State, r: Returned)
    requires Stands(s, p, q, Admitted) && jti !in s.signed && Asks(cfg, s.rows, s.now, q)
    ensures Run(cfg, s, acts) == Some(s') && Plain(acts) && Beside(s, s', p) && p !in s'.flights && s'.signed <= s.signed + {jti}
    ensures AnsweredOnce(cfg, s, s', q, jti, r)
  {
    var mid;
    acts, mid := ChecksPass(cfg, s, p, q);
    AllFound(mid.flights[p], q);
    if Reusable(cfg.broker, s.cache, AskedKey(cfg, q), s.now).Some? {
      acts, s', r := HitReturns(cfg, s, acts, mid, p, q);
    } else {
      acts, s', r := MissReturns(cfg, s, acts, mid, p, q, jti);
    }
  }

  lemma AnsweredSince(cfg: Settings, s: State, mid: State, s': State, p: nat, q: Ask, jti: Text, r: Returned)
    requires OnlyMoves(s, mid, p) && AnsweredOnce(cfg, mid, s', q, jti, r)
    ensures AnsweredOnce(cfg, s, s', q, jti, r)
  {
  }

  lemma Answer(cfg: Settings, s: State, p: nat, q: Ask, jti: Text) returns (acts: seq<Action>, s': State, r: Returned)
    requires p !in s.flights && jti !in s.signed && Asks(cfg, s.rows, s.now, q)
    ensures Run(cfg, s, acts) == Some(s') && AnsweredOnce(cfg, s, s', q, jti, r)
  {
    var begun, mid := BeginStands(cfg, s, p, q);
    acts, s', r := AdmittedIsAnswered(cfg, mid, p, q, jti);
    AnsweredSince(cfg, s, mid, s', p, q, jti, r);
    RunThen(cfg, s, begun, acts);
    acts := begun + acts;
  }

  /** From every state whose rows authorise a request some run answers it. */
  lemma AuthorisedIsAnswered(cfg: Settings, s: State, p: nat, q: Ask, jti: Text)
    requires p !in s.flights && jti !in s.signed && Asks(cfg, s.rows, s.now, q)
    ensures exists acts, r :: Run(cfg, s, acts).Some? && AnsweredOnce(cfg, s, Run(cfg, s, acts).value, q, jti, r)
  {
    var acts, s', r := Answer(cfg, s, p, q, jti);
  }

  /** Two answers to one principal for one target: the first signed, the second cached exactly for a lifetime above the threshold. */
  ghost predicate AnsweredTwice(cfg: Settings, s: State, s': State, q: Ask, jti: Text, again: Text, r: Returned, t: Returned) {
    && s'.returned == s.returned + [r, t]
    && r.flight.cache == Miss && r.token == AskedToken(cfg, q, s.now, jti)
    && (t.flight.cache == Hit <==> q.ttl > cfg.broker.reuseThresholdSeconds)
    && t.token == if t.flight.cache == Hit then r.token else AskedToken(cfg, q, s.now, again)
  }

  /** The first of two exchanges. */
  lemma FirstAnswer(cfg: Settings, s: State, p: nat, q: Ask, jti: Text) returns (acts: seq<Action>, s': State, r: Returned)
    requires p !in s.flights && jti !in s.signed && Asks(cfg, s.rows, s.now, q)
    requires Reusable(cfg.broker, s.cache, AskedKey(cfg, q), s.now).None?
    ensures Run(cfg, s, acts) == Some(s') && p !in s'.flights && s'.now == s.now && s'.rows == s.rows && s'.signed == s.signed + {jti}
    ensures s'.returned == s.returned + [r] && r.flight.cache == Miss && r.token == AskedToken(cfg, q, s.now, jti)
    ensures Reusable(cfg.broker, s'.cache, AskedKey(cfg, q), s.now)
            == if q.ttl > cfg.broker.reuseThresholdSeconds then Some(CacheEntry(r.token)) else None
  {
    var begun, mid := BeginStands(cfg, s, p, q);
    acts, s' := ChecksPass(cfg, mid, p, q);
    AllFound(s'.flights[p], q);
    acts, s', r := MissReturns(cfg, mid, acts, s', p, q, jti);
    RunThen(cfg, s, begun, acts);
    acts := begun + acts;
  }

  /** Key and token depend on an assertion only through its external context. */
  lemma AskedAlike(cfg: Settings, q: Ask, claims: RequesterClaims, now: int, jti: Text)
    requires claims.externalContext == q.claims.externalContext
    ensures AskedKey(cfg, q.(claims := claims)) == AskedKey(cfg, q)
    ensures AskedToken(cfg, q.(claims := claims), now, jti) == AskedToken(cfg, q, now, jti)
  {
  }

  lemma TwoAnswers(cfg: Settings, s: State, mid: State, s': State, q: Ask, claims: RequesterClaims, jti: Text, again: Text, r: Returned, t: Returned)
    requires claims.externalContext == q.claims.externalContext && mid.now == s.now
    requires mid.returned == s.returned + [r] && r.flight.cache == Miss && r.token == AskedToken(cfg, q, s.now, jti)
    requires Reusable(cfg.broker, mid.cache, AskedKey(cfg, q), s.now)
             == if q.ttl > cfg.broker.reuseThresholdSeconds then Some(CacheEntry(r.token)) else None
    requires AnsweredOnce(cfg, mid, s', q.(claims := claims), again, t)
    ensures AnsweredTwice(cfg, s, s', q, jti, again, r, t)
  {
    AskedAlike(cfg, q, claims, s.now, again);
    assert s.returned + [r] + [t] == s.returned + [r, t];
  }

  lemma BothAnswers(cfg: Settings, s: State, p: nat, q: Ask, claims: RequesterClaims, jti: Text, again: Text)
    returns (acts: seq<Action>, s': State, r: Returned, t: Returned)
    requires p !in s.flights && jti !in s.signed && again !in s.signed && jti != again
    requires Asks(cfg, s.rows, s.now, q) && Asks(cfg, s.rows, s.now, q.(claims := claims)) && claims.externalContext == q.claims.externalContext
    requires Reusable(cfg.broker, s.cache, AskedKey(cfg, q), s.now).None?
    ensures Run(cfg, s, acts) == Some(s') && AnsweredTwice(cfg, s, s', q, jti, again, r, t)
  {
    var mid, more;
    acts, mid, r := FirstAnswer(cfg, s, p, q, jti);
    more, s', t := Answer(cfg, mid, p, q.(claims := claims), again);
    RunThen(cfg, s, acts, more);
    TwoAnswers(cfg, s, mid, s', q, claims, jti, again, r, t);
    acts := acts + more;
  }

  /** A second assertion of the same principal, with the same external context, is answered from the cache if the first token outlives the threshold. */
  lemma SecondIsCachedIff(cfg: Settings, s: State, p: nat, q: Ask, claims: RequesterClaims, jti: Text, again: Text)
    requires p !in s.flights && jti !in s.signed && again !in s.signed && jti != again
    requires Asks(cfg, s.rows, s.now, q) && Asks(cfg, s.rows, s.now, q.(claims := claims)) && claims.externalContext == q.claims.externalContext
    requires Reusable(cfg.broker, s.cache, AskedKey(cfg, q), s.now).None?
    ensures exists acts, r, t :: Run(cfg, s, acts).Some? && AnsweredTwice(cfg, s, Run(cfg, s, acts).value, q, jti, again, r, t)
  {
    var acts, s', r, t := BothAnswers(cfg, s, p, q, claims, jti, again);
  }

  // ---------- the assumptions are met ----------

  lemma DigestsExist()
    ensures Digests(t => [0] + t)
  {
    var sha: Text -> Text := t => [0] + t;
    forall a, b | sha(a) == sha(b) ensures a == b {
      assert a == sha(a)[1..] && b == sha(b)[1..];
    }
  }

  const A_CLIENT := Client([97], "active", false, [], [], [], [SecretRow([115], "s", true, None)])

  const ITS_CONNECTION := Connection(ApplicationType, [97], None, [116], "active", None, "optional", [], 600)

  function SomeRows(until: int): Rows {
    Rows(map[[116] := Target([1], [2], "active")], map[], map[], map[], map[[99] := ITS_CONNECTION],
         map[[103] := Grant([99], "allow", "active", until)], map[[97] := A_CLIENT])
  }

  function AtStart(until: int): State { State(0, SomeRows(until), map[], map[], [], [], {}, {}, {}) }

  function AnAssertion(requestId: Text): RequesterClaims {
    ApplicationAssertion([97], [115], [116], requestId, None, [106])
  }

  function AnAsk(cfg: Settings, requestId: Text): Ask {
    Ask(AnAssertion(requestId), ApplicationRequester([97]), [116], Target([1], [2], "active"),
        Authorization([97], None, [115], [99], [103]), ResolveTokenTtl(cfg.targetTokenTtlSeconds, 600))
  }

  lemma AskIsAuthorised(cfg: Settings, until: int, now: int, requestId: Text)
    requires now < until && requestId != [] && Trimmed(requestId)
    ensures Asks(cfg, SomeRows(until), now, AnAsk(cfg, requestId))
    ensures ReadAssertion(Some(AnAssertion(requestId)), [116]).value.1 == requestId
  {
    IssuedToApplicationIsAdmitted(SomeRows(until), [97], SecretRow([115], "s", true, None), now, [116], requestId, None, [106]);
  }

  ghost predicate ReturnsHit(cfg: Settings, s: State, acts: seq<Action>, r: Returned) {
    Run(cfg, s, acts).Some? && r in Run(cfg, s, acts).value.returned && r.flight.cache == Hit
  }

  /** With a lifetime above the threshold some run returns a cached token. */
  lemma SecondIsHit(cfg: Settings, s: State, p: nat, q: Ask, claims: RequesterClaims, jti: Text, again: Text)
    requires p !in s.flights && jti !in s.signed && again !in s.signed && jti != again
    requires Asks(cfg, s.rows, s.now, q) && Asks(cfg, s.rows, s.now, q.(claims := claims)) && claims.externalContext == q.claims.externalContext
    requires Reusable(cfg.broker, s.cache, AskedKey(cfg, q), s.now).None? && q.ttl > cfg.broker.reuseThresholdSeconds
    ensures exists acts, r :: ReturnsHit(cfg, s, acts, r)
  {
    SecondIsCachedIff(cfg, s, p, q, claims, jti, again);
    var acts, r, t :| Run(cfg, s, acts).Some? && AnsweredTwice(cfg, s, Run(cfg, s, acts).value, q, jti, again, r, t);
    assert t in Run(cfg, s, acts).value.returned;
    assert ReturnsHit(cfg, s, acts, t);
  }

  lemma EmptyCacheMisses(cfg: Settings, s: State, key: Key)
    requires s.cache == map[]
    ensures Reusable(cfg.broker, s.cache, key, s.now).None?
  {
  }

  lemma EmptyStartReturnsHit(cfg: Settings, s: State, q: Ask, claims: RequesterClaims)
    requires s.flights == map[] && s.signed == {} && s.cache == map[] && claims.externalContext == q.claims.externalContext
    requires Asks(cfg, s.rows, s.now, q) && Asks(cfg, s.rows, s.now, q.(claims := claims)) && q.ttl > cfg.broker.reuseThresholdSeconds
    ensures exists acts, r :: ReturnsHit(cfg, s, acts, r)
  {
    EmptyCacheMisses(cfg, s, AskedKey(cfg, q));
    SecondIsHit(cfg, s, 0, q, claims, [1], [2]);
  }

  lemma StartReturnsHit(cfg: Settings)
    requires cfg.broker.reuseThresholdSeconds < ResolveTokenTtl(cfg.targetTokenTtlSeconds, 600)
    ensures exists acts, r :: ReturnsHit(cfg, AtStart(1), acts, r)
  {
    AskIsAuthorised(cfg, 1, 0, [49]);
    AskIsAuthorised(cfg, 1, 0, [50]);
    assert AnAsk(cfg, [49]).(claims := AnAssertion([50])) == AnAsk(cfg, [50]);
    EmptyStartReturnsHit(cfg, AtStart(1), AnAsk(cfg, [49]), AnAssertion([50]));
  }

  /** The assumptions of the results on runs are met by a digest, a state and a run that returns a cached token. */
  lemma SomeRunReturnsHit()
    ensures exists cfg: Settings, s, acts, r :: Digests(cfg.broker.sha) && Initial(cfg, s) && ReturnsHit(cfg, s, acts, r)
  {
    var cfg := Settings(Config(t => [0] + t, (a, b) => true, [110], [105], 60), 300);
    DigestsExist();
    assert Initial(cfg, AtStart(1));
    StartReturnsHit(cfg);
  }
}
