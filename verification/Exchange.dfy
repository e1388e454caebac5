/**
 The delegated token exchange of section 2 of RFC 8693 as one uninterrupted call: every check in its order, the
 broker, and the record of what was signed.
 */
module Exchange {
  import opened Wrappers
  import opened Text
  import opened Json
  import opened Clients
  import opened Directory
  import opened Redis
  import opened Broker
  import opened Requester
  import RateLimit
  import Replay
  import ContextPolicy

  const TARGET_ACCESS_GRANT := "urn:authany:params:oauth:grant-type:target-access"

  /** Everything one exchange was authorised by. `credentialId` is the caller credential's or the application secret's. */
  datatype Authorization = Authorization(principalDbId: Text, runtime: Option<(Text, Text)>, credentialId: Text,
                                         connectionId: Text, grantId: Text)

  // ---------- the checks, each on the rows it reads ----------

  /** The database id of the principal: an active agent, or an active application under its own id. */
  predicate PrincipalActive(rows: Rows, who: Who, dbId: Text) {
    match who
    case AgentRequester(id) => AgentActive(rows, dbId, id)
    case ApplicationRequester(id) => UsableClient(rows.clients, id) && dbId == id
  }

  predicate RuntimeOk(rows: Rows, who: Who, claims: RequesterClaims, dbId: Text, runtime: Option<(Text, Text)>) {
    match who
    case AgentRequester(_) => RuntimeMatches(rows, claims.runtimeId, dbId, runtime)
    case ApplicationRequester(_) => runtime.None?
  }

  /** A live secret row; the one the assertion names, if it names one. */
  predicate RowFits(row: SecretRow, wanted: Option<Text>, now: int) {
    (wanted.Some? && wanted.value != [] ==> row.id == wanted.value) && LiveSecret(row, now)
  }

  predicate SecretFits(secrets: seq<SecretRow>, secretId: Text, wanted: Option<Text>, now: int) {
    exists row :: row in secrets && row.id == secretId && RowFits(row, wanted, now)
  }

  /** The first such row, in the rows' order. */
  function FindSecret(secrets: seq<SecretRow>, wanted: Option<Text>, now: int): (r: Option<SecretRow>)
    ensures r.Some? ==> r.value in secrets && RowFits(r.value, wanted, now)
    ensures r.None? ==> forall row :: row in secrets ==> !RowFits(row, wanted, now)
  {
    if secrets == [] then None
    else if RowFits(secrets[0], wanted, now) then Some(secrets[0])
    else FindSecret(secrets[1..], wanted, now)
  }

  predicate CredentialOk(rows: Rows, who: Who, claims: RequesterClaims, dbId: Text, runtime: Option<(Text, Text)>, credentialId: Text, now: int) {
    match who
    case AgentRequester(_) =>
      CredentialFits(rows, credentialId, dbId, RuntimeDbId(runtime), now)
      && (claims.credentialId.Some? ==> credentialId == claims.credentialId.value)
    case ApplicationRequester(id) =>
      id in rows.clients && SecretFits(rows.clients[id].secrets, credentialId, claims.secretId, now)
  }

  function PrincipalOf(who: Who, runtime: Option<(Text, Text)>): Principal {
    match who
    case AgentRequester(id) => AgentPrincipal(id, runtime)
    case ApplicationRequester(id) => ApplicationPrincipal(id)
  }

  /** The external-context policy of a connection, as the checks of that policy accept it. */
  ghost predicate ContextAccepted(cfg: Config, connection: Connection, context: Option<Json>) {
    match context
    case None => connection.contextMode != "required"
    case Some(v) =>
      connection.contextMode != "forbidden" && ContextPolicy.ProviderAllowed(connection.allowedProviders, v)
      && ContextPolicy.WithinLimits(cfg.le, v)
  }

  ghost predicate ConnectionOk(cfg: Config, rows: Rows, who: Who, claims: RequesterClaims, code: Text, runtime: Option<(Text, Text)>, id: Text, now: int) {
    ConnectionFits(rows, id, PrincipalOf(who, runtime), code, now) && ContextAccepted(cfg, rows.connections[id], claims.externalContext)
  }

  /** All of it at one moment. */
  ghost predicate Authorised(cfg: Config, rows: Rows, who: Who, claims: RequesterClaims, code: Text, a: Authorization, now: int) {
    && TargetActive(rows, code)
    && PrincipalActive(rows, who, a.principalDbId)
    && RuntimeOk(rows, who, claims, a.principalDbId, a.runtime)
    && CredentialOk(rows, who, claims, a.principalDbId, a.runtime, a.credentialId, now)
    && ConnectionOk(cfg, rows, who, claims, code, a.runtime, a.connectionId, now)
    && GrantFits(rows, a.grantId, a.connectionId, now)
  }

  /** The assertion is one for this target by a principal it identifies; None is a missing or invalid token. */
  function ReadAssertion(claims: Option<RequesterClaims>, code: Text): Option<(Who, Text)> {
    if claims.None? || claims.value.tokenUse != Some(REQUESTER_ASSERTION) || claims.value.targetResource != Some(code) then None
    else
      var who, requestId := ResolveRequesterPrincipal(claims.value), ReadRequestId(claims.value);
      if who.Some? && requestId.Some? then Some((who.value, requestId.value)) else None
  }

  /**
   An assertion just issued to an authenticated agent reads back as that agent, and on the same rows the exchange
   finds principal, runtime and credential in order. Request ids are drawn without white space.
   */
  lemma IssuedToAgentIsAdmitted(rows: Rows, agentId: Text, runtimeId: Option<Text>, secret: Text, a: Authenticated, now: int,
                                code: Text, requestId: Text, context: Option<Json>, randomId: Text)
    requires Authentic(rows, agentId, runtimeId, secret, a, now) && Trimmed(agentId) && Trimmed(requestId) && requestId != []
    ensures var claims := AgentAssertion(agentId, RuntimePublicId(a.runtime), a.credentialId, code, requestId, context, randomId);
      var who := AgentRequester(agentId);
      && ReadAssertion(Some(claims), code) == Some((who, requestId))
      && PrincipalActive(rows, who, a.agentDbId) && RuntimeOk(rows, who, claims, a.agentDbId, a.runtime)
      && CredentialOk(rows, who, claims, a.agentDbId, a.runtime, a.credentialId, now)
  {
    AgentRoundTrip(agentId, RuntimePublicId(a.runtime), a.credentialId, code, requestId, context, randomId);
  }

  /** The same for an application and the secret row it presented. */
  lemma IssuedToApplicationIsAdmitted(rows: Rows, appId: Text, row: SecretRow, now: int, code: Text, requestId: Text,
                                      context: Option<Json>, randomId: Text)
    requires UsableClient(rows.clients, appId) && row in rows.clients[appId].secrets && LiveSecret(row, now)
    requires Trimmed(appId) && Trimmed(requestId) && requestId != []
    ensures var claims := ApplicationAssertion(appId, row.id, code, requestId, context, randomId);
      var who := ApplicationRequester(appId);
      && ReadAssertion(Some(claims), code) == Some((who, requestId))
      && PrincipalActive(rows, who, appId) && RuntimeOk(rows, who, claims, appId, None)
      && CredentialOk(rows, who, claims, appId, None, row.id, now)
  {
    ApplicationRoundTrip(appId, row.id, code, requestId, context, randomId);
  }

  // ---------- what the broker is asked ----------

  function DigestIfAny(cfg: Config, context: Option<Json>): Option<Text> {
    if context.Some? then Some(DigestJson(cfg, context.value)) else None
  }

  /** The agent path and the application path each build their own. */
  function BrokerContext(cfg: Config, target: Target, who: Who, claims: RequesterClaims, code: Text, a: Authorization): Context {
    match who
    case AgentRequester(id) =>
      Context(AgentKind, id, target.audience, a.connectionId, Some(a.credentialId), a.grantId, RuntimeDbId(a.runtime), target.id, code,
              DigestIfAny(cfg, claims.externalContext))
    case ApplicationRequester(id) =>
      Context(ApplicationKind, id, target.audience, a.connectionId, Some(a.credentialId), a.grantId, None, target.id, code,
              DigestIfAny(cfg, claims.externalContext))
  }

  function RequestedClaims(target: Target, who: Who, claims: RequesterClaims, code: Text): Claims {
    match who
    case AgentRequester(id) =>
      Claims(AgentPrefix() + id, target.audience, Some(id), None, code, TARGET_ACCESS, Some("agent_as_self"), claims.externalContext)
    case ApplicationRequester(id) =>
      Claims(AppPrefix() + id, target.audience, None, Some(id), code, TARGET_ACCESS, None, claims.externalContext)
  }

  /** What the transparency of the cache rests on: the context names all that the claims say. */
  lemma RequestIsConsistent(cfg: Config, target: Target, who: Who, claims: RequesterClaims, code: Text, a: Authorization)
    requires claims.externalContext.Some? ==> WellFormed(claims.externalContext.value)
    ensures Consistent(cfg, BrokerContext(cfg, target, who, claims, code, a), RequestedClaims(target, who, claims, code))
  {
  }

  function ResolveTokenTtl(targetTokenTtlSeconds: nat, maxTokenTtlSeconds: nat): (ttl: nat)
    ensures ttl <= targetTokenTtlSeconds && ttl <= maxTokenTtlSeconds && ttl in {targetTokenTtlSeconds, maxTokenTtlSeconds}
  {
    if maxTokenTtlSeconds < targetTokenTtlSeconds then maxTokenTtlSeconds else targetTokenTtlSeconds
  }

  /** Cells that are not documents do not matter to the cache. */
  lemma CacheOnlyInDocuments(cfg: Config, before: Store<CacheDoc>, after: Store<CacheDoc>)
    requires forall key :: key in after ==> (key in before && after[key] == before[key]) || !after[key].value.Document?
    ensures CacheSound(cfg, before) ==> CacheSound(cfg, after)
  {
  }

  // ---------- the checks as the service makes them ----------

  class DelegationPolicyService {
    const db: Database
    const cfg: Config

    constructor (db: Database, cfg: Config)
      ensures this.db == db && this.cfg == cfg
    {
      this.db, this.cfg := db, cfg;
    }

    /** Some eligible connection; which one of several is the database's choice. */
    method FindConnection(who: Principal, code: Text, now: int) returns (r: Option<Text>)
      ensures r.Some? ==> ConnectionFits(db.rows, r.value, who, code, now)
      ensures r.None? ==> forall id :: !ConnectionFits(db.rows, id, who, code, now)
    {
      if exists id :: id in db.rows.connections && ConnectionFits(db.rows, id, who, code, now) {
        var id :| id in db.rows.connections && ConnectionFits(db.rows, id, who, code, now);
        return Some(id);
      }
      return None;
    }

    method FindActiveGrant(connectionId: Text, now: int) returns (r: Option<Text>)
      ensures r.Some? ==> GrantFits(db.rows, r.value, connectionId, now)
      ensures r.None? ==> forall id :: !GrantFits(db.rows, id, connectionId, now)
    {
      if exists id :: id in db.rows.grants && GrantFits(db.rows, id, connectionId, now) {
        var id :| id in db.rows.grants && GrantFits(db.rows, id, connectionId, now);
        return Some(id);
      }
      return None;
    }
  }

  /** The records after, as a map. */
  lemma RecordedOnce(before: map<Text, (Text, int)>, after: map<Text, (Text, int)>, result: BrokerResult, subjectId: Text)
    requires forall jti :: jti in before && (result.cache.Hit? || jti != result.jti) ==> jti in after && after[jti] == before[jti]
    requires after.Keys == before.Keys + (if result.cache.Hit? then {} else {result.jti})
    requires !result.cache.Hit? ==> after[result.jti] == (subjectId, result.expiresAt)
    ensures after == if result.cache.Hit? then before else before[result.jti := (subjectId, result.expiresAt)]
  {
  }

  /** Connection, context policy and grant: the checks both paths end with. */
  datatype Route = Route(connectionId: Text, grantId: Text)

  const ROUTE_ERRORS := {ConnectionNotAllowed, InvalidExternalContext, AccessNotAllowed}

  class TargetTokenExchangeService {
    const db: Database
    const policy: DelegationPolicyService
    const credentials: CallerCredentialService
    const rateLimit: RateLimit.RateLimitService<CacheDoc>
    const replay: Replay.ReplayProtectionService<CacheDoc>
    const broker: TargetTokenBrokerService
    const targetTokenTtlSeconds: nat
    /** Access-token records by jti: subject and expiry. */
    var records: map<Text, (Text, int)>

    constructor (db: Database, policy: DelegationPolicyService, credentials: CallerCredentialService,
                 rateLimit: RateLimit.RateLimitService<CacheDoc>, replay: Replay.ReplayProtectionService<CacheDoc>,
                 broker: TargetTokenBrokerService, targetTokenTtlSeconds: nat)
      requires policy.db == db && credentials.db == db && policy.cfg == broker.cfg && replay.tenantId == broker.cfg.tenantId
      requires rateLimit.redis == broker.redis && replay.redis == broker.redis
      ensures Valid() && records == map[] && this.db == db && this.broker == broker
    {
      this.db, this.policy, this.credentials, this.rateLimit := db, policy, credentials, rateLimit;
      this.replay, this.broker, this.targetTokenTtlSeconds, this.records := replay, broker, targetTokenTtlSeconds, map[];
    }

    /** The services share one database and one Redis. */
    ghost predicate Valid() {
      && policy.db == db && credentials.db == db && policy.cfg == broker.cfg && replay.tenantId == broker.cfg.tenantId
      && rateLimit.redis == broker.redis && replay.redis == broker.redis
    }

    method FindRoute(who: Who, claims: RequesterClaims, runtime: Option<(Text, Text)>, code: Text, now: int) returns (r: Result<Route, Refusal>)
      requires Valid() && (claims.externalContext.Some? ==> WellFormed(claims.externalContext.value))
      ensures r.Ok? ==>
        ConnectionOk(broker.cfg, db.rows, who, claims, code, runtime, r.value.connectionId, now)
        && GrantFits(db.rows, r.value.grantId, r.value.connectionId, now)
      ensures r == Err(ConnectionNotAllowed) <==> forall id :: !ConnectionFits(db.rows, id, PrincipalOf(who, runtime), code, now)
      ensures r == Err(InvalidExternalContext) ==>
        exists id :: ConnectionFits(db.rows, id, PrincipalOf(who, runtime), code, now)
                     && !ContextAccepted(broker.cfg, db.rows.connections[id], claims.externalContext)
      ensures r == Err(AccessNotAllowed) ==>
        exists id :: ConnectionOk(broker.cfg, db.rows, who, claims, code, runtime, id, now) && forall g :: !GrantFits(db.rows, g, id, now)
      ensures r.Err? ==> r.error in ROUTE_ERRORS
    {
      var connection := policy.FindConnection(PrincipalOf(who, runtime), code, now);
      if connection.None? { return Err(ConnectionNotAllowed); }
      var row := db.rows.connections[connection.value];
      var refused := ContextPolicy.AssertExternalContextPolicy(row.contextMode, row.allowedProviders, claims.externalContext, broker.cfg.le);
      assert refused.None? <==> ContextAccepted(broker.cfg, db.rows.connections[connection.value], claims.externalContext);
      if refused.Some? { return Err(InvalidExternalContext); }
      assert ConnectionOk(broker.cfg, db.rows, who, claims, code, runtime, connection.value, now);
      var grant := policy.FindActiveGrant(connection.value, now);
      if grant.None? { return Err(AccessNotAllowed); }
      return Ok(Route(connection.value, grant.value));
    }

    method AuthoriseAgent(agentId: Text, claims: RequesterClaims, code: Text, now: int) returns (r: Result<Authorization, Refusal>)
      requires Valid() && TargetActive(db.rows, code) && (claims.externalContext.Some? ==> WellFormed(claims.externalContext.value))
      ensures r.Ok? ==> Authorised(broker.cfg, db.rows, AgentRequester(agentId), claims, code, r.value, now)
      ensures r == Err(InvalidAgent) <==> forall x :: !AgentActive(db.rows, x, agentId)
      ensures r == Err(InvalidRuntime) ==>
        exists x :: AgentActive(db.rows, x, agentId) && forall runtime :: !RuntimeMatches(db.rows, claims.runtimeId, x, runtime)
      ensures r == Err(InvalidCallerCredential) ==>
        exists x, runtime :: AgentActive(db.rows, x, agentId) && RuntimeMatches(db.rows, claims.runtimeId, x, runtime)
          && forall c :: !CredentialOk(db.rows, AgentRequester(agentId), claims, x, runtime, c, now)
      ensures r.Err? ==> r.error in {InvalidAgent, InvalidRuntime, InvalidCallerCredential} + ROUTE_ERRORS
    {
      var agent := credentials.FindAgent(agentId);
      if agent.None? { return Err(InvalidAgent); }
      var runtime := credentials.FindRuntime(claims.runtimeId, agent.value);
      if runtime.Err? { return Err(InvalidRuntime); }
      var credential := credentials.RequireActiveForAgent(agent.value, RuntimeDbId(runtime.value), claims.credentialId, now);
      if credential.None? { return Err(InvalidCallerCredential); }
      var route := FindRoute(AgentRequester(agentId), claims, runtime.value, code, now);
      if route.Err? { return Err(route.error); }
      return Ok(Authorization(agent.value, runtime.value, credential.value, route.value.connectionId, route.value.grantId));
    }

    method AuthoriseApplication(appId: Text, claims: RequesterClaims, code: Text, now: int) returns (r: Result<Authorization, Refusal>)
      requires Valid() && TargetActive(db.rows, code) && (claims.externalContext.Some? ==> WellFormed(claims.externalContext.value))
      ensures r.Ok? ==> Authorised(broker.cfg, db.rows, ApplicationRequester(appId), claims, code, r.value, now)
      ensures r == Err(InvalidApplication) <==> !UsableClient(db.rows.clients, appId)
      ensures r == Err(InvalidAppSecret) <==>
              UsableClient(db.rows.clients, appId) && forall id :: !SecretFits(db.rows.clients[appId].secrets, id, claims.secretId, now)
      ensures r.Err? ==> r.error in {InvalidApplication, InvalidAppSecret} + ROUTE_ERRORS
    {
      if !UsableClient(db.rows.clients, appId) { return Err(InvalidApplication); }
      var secret := FindSecret(db.rows.clients[appId].secrets, claims.secretId, now);
      if secret.None? { return Err(InvalidAppSecret); }
      assert SecretFits(db.rows.clients[appId].secrets, secret.value.id, claims.secretId, now);
      var route := FindRoute(ApplicationRequester(appId), claims, None, code, now);
      if route.Err? { return Err(route.error); }
      return Ok(Authorization(appId, None, secret.value.id, route.value.connectionId, route.value.grantId));
    }

    method Authorise(who: Who, claims: RequesterClaims, code: Text, now: int) returns (r: Result<Authorization, Refusal>)
      requires Valid() && (claims.externalContext.Some? ==> WellFormed(claims.externalContext.value))
      ensures r.Ok? ==> Authorised(broker.cfg, db.rows, who, claims, code, r.value, now)
      ensures r.Err? ==> r.error !in {UnsupportedGrantType, InvalidRequesterJwt}
      ensures r == Err(InvalidTargetResource) <==> !TargetActive(db.rows, code)
    {
      if !TargetActive(db.rows, code) { return Err(InvalidTargetResource); }
      match who
      case AgentRequester(id) => r := AuthoriseAgent(id, claims, code, now);
      case ApplicationRequester(id) => r := AuthoriseApplication(id, claims, code, now);
    }

    /** The limiter's key for one principal and target. */
    function LimitKey(who: Who, code: Text): Text {
      var subject := match who
        case AgentRequester(id) => Literal("target-token:agent:") + id
        case ApplicationRequester(id) => Literal("target-token:application:") + id;
      subject + Literal(":") + code
    }

    /** Rate limit, then replay guard. Passing takes the request id for the guard's TTL. */
    method Admit(who: Who, requestId: Text, code: Text, now: int, health: Health) returns (r: Option<Refusal>)
      requires Valid()
      modifies rateLimit`alerts, broker.redis`store
      ensures var limit := RateLimitKey(LimitKey(who, code));
        var up := broker.redis.connected && health.limit
                  && (Live(old(broker.redis.store), limit, now) ==> old(broker.redis.store)[limit].value.Counter?);
        && (r == Some(RateLimitUnavailable) <==> !up)
        && (up ==>
              var within := RateLimit.Count(Incr(old(broker.redis.store), limit, 60, now), LimitKey(who, code)) <= 300;
              && (r == Some(RateLimited) <==> !within)
              && (within ==>
                    && (r == Some(ReplayProtectionUnavailable) <==> !health.guard)
                    && (health.guard ==>
                          && (r == Some(RequestReplayed) <==> Live(old(broker.redis.store), ReplayKey(broker.cfg.tenantId, requestId), now))
                          && (r.None? <==> !Live(old(broker.redis.store), ReplayKey(broker.cfg.tenantId, requestId), now)))))
      ensures r.None? ==>
        broker.redis.store == SetEx(Incr(old(broker.redis.store), RateLimitKey(LimitKey(who, code)), 60, now),
                                    ReplayKey(broker.cfg.tenantId, requestId), Flag, replay.replayTtlSeconds, now)
      ensures r.Some? ==> r.value in {RateLimited, RateLimitUnavailable, RequestReplayed, ReplayProtectionUnavailable}
      ensures CacheSound(broker.cfg, old(broker.redis.store)) ==> CacheSound(broker.cfg, broker.redis.store)
    {
      ghost var before := broker.redis.store;
      var verdict := rateLimit.AssertAllowed(LimitKey(who, code), 300, 60, now, health.limit);
      CacheOnlyInDocuments(broker.cfg, before, broker.redis.store);
      if verdict.BackendError? { return Some(RateLimitUnavailable); }
      if verdict.Limited? { return Some(RateLimited); }
      ghost var counted := broker.redis.store;
      var refused := replay.AssertNotReplayed(requestId, now, health.guard);
      CacheOnlyInDocuments(broker.cfg, counted, broker.redis.store);
      if refused.None? { return None; }
      return Some(if refused.value.RequestReplayed? then RequestReplayed else ReplayProtectionUnavailable);
    }

    /** A hit leaves the records alone; a signed token is recorded with its subject and expiry, and every other record is kept. */
    method PersistAndAudit(result: BrokerResult, subjectId: Text)
      modifies this`records
      ensures forall jti :: jti in old(records) && (result.cache.Hit? || jti != result.jti) ==> jti in records && records[jti] == old(records)[jti]
      ensures records.Keys == old(records.Keys) + (if result.cache.Hit? then {} else {result.jti})
      ensures !result.cache.Hit? ==> records[result.jti] == (subjectId, result.expiresAt)
      ensures result.jti !in old(records) ==> |records| == |old(records)| + (if result.cache.Hit? then 0 else 1)
    {
      if !result.cache.Hit? { records := records[result.jti := (subjectId, result.expiresAt)]; }
    }

    /** The configured lifetime, capped by the connection. */
    function TtlOf(a: Authorization): nat
      reads db
      requires a.connectionId in db.rows.connections
    {
      ResolveTokenTtl(targetTokenTtlSeconds, db.rows.connections[a.connectionId].maxTokenTtlSeconds)
    }

    /** A result authorised by `a` on the rows as they are, carrying the claims asked for, and recorded when it was signed. */
    ghost predicate GrantedBy(who: Who, claims: RequesterClaims, code: Text, now: int, jti: Text, result: BrokerResult,
                              before: map<Text, (Text, int)>, after: map<Text, (Text, int)>, a: Authorization)
      reads db
    {
      && Authorised(broker.cfg, db.rows, who, claims, code, a, now)
      && after == (if result.cache.Hit? then before else before[result.jti := (a.principalDbId, result.expiresAt)])
      && (!result.cache.Hit? ==> result.accessToken.exp == now / 1000 + TtlOf(a) && result.jti == jti)
      && Alike(result.accessToken.claims, RequestedClaims(db.rows.targets[code], who, claims, code))
    }

    ghost predicate Granted(who: Who, claims: RequesterClaims, code: Text, now: int, jti: Text, result: BrokerResult,
                            before: map<Text, (Text, int)>, after: map<Text, (Text, int)>)
      reads db
    {
      exists a :: GrantedBy(who, claims, code, now, jti, result, before, after, a)
    }

    method AskBroker(target: Target, who: Who, claims: RequesterClaims, code: Text, a: Authorization, ttl: nat, now: int, jti: Text,
                     signerReady: bool, health: Health) returns (r: Result<BrokerResult, ()>)
      requires broker.redis.connected && Digests(broker.cfg.sha) && CacheSound(broker.cfg, broker.redis.store)
      requires claims.externalContext.Some? ==> WellFormed(claims.externalContext.value)
      modifies broker.redis`store
      ensures CacheSound(broker.cfg, broker.redis.store)
      ensures forall key: Key :: !key.TargetTokenKey? && key in old(broker.redis.store) ==>
        key in broker.redis.store && broker.redis.store[key] == old(broker.redis.store)[key]
      ensures r.Ok? && !r.value.cache.Hit? ==> r.value.jti == jti && r.value.accessToken.exp == now / 1000 + ttl && r.value.expiresIn == ttl
      ensures r.Ok? ==> Alike(r.value.accessToken.claims, RequestedClaims(target, who, claims, code))
    {
      RequestIsConsistent(broker.cfg, target, who, claims, code, a);
      r := broker.GetOrIssue(BrokerContext(broker.cfg, target, who, claims, code, a), RequestedClaims(target, who, claims, code),
                             ttl, now, jti, signerReady, health);
    }

    /** The authorised part of an exchange: checks, broker, record. Only the broker's own cell changes in the store. */
    method Issue(who: Who, claims: RequesterClaims, code: Text, now: int, jti: Text, signerReady: bool, health: Health)
      returns (r: Result<BrokerResult, Refusal>)
      requires Valid() && broker.redis.connected && Digests(broker.cfg.sha) && CacheSound(broker.cfg, broker.redis.store)
      requires claims.externalContext.Some? ==> WellFormed(claims.externalContext.value)
      modifies this`records, broker.redis`store
      ensures CacheSound(broker.cfg, broker.redis.store)
      ensures forall key: Key :: !key.TargetTokenKey? && key in old(broker.redis.store) ==>
        key in broker.redis.store && broker.redis.store[key] == old(broker.redis.store)[key]
      ensures r.Ok? ==> Granted(who, claims, code, now, jti, r.value, old(records), records)
      ensures r.Err? ==> records == old(records) && r.error !in {UnsupportedGrantType, InvalidRequesterJwt}
    {
      var authorised := Authorise(who, claims, code, now);
      if authorised.Err? { return Err(authorised.error); }
      var a := authorised.value;
      var result := AskBroker(db.rows.targets[code], who, claims, code, a, TtlOf(a), now, jti, signerReady, health);
      if result.Err? { return Err(NoSigningKey); }
      ghost var before := records;
      PersistAndAudit(result.value, a.principalDbId);
      RecordedOnce(before, records, result.value, a.principalDbId);
      assert GrantedBy(who, claims, code, now, jti, result.value, before, records, a);
      return Ok(result.value);
    }

    /**
     A success was authorised in full by the rows as they are, carries the claims asked for whether cached or
     new, uses its request id up, and adds a record exactly when it signed.
     */
    method Exchange(grantType: string, claims: Option<RequesterClaims>, code: Text, now: int, jti: Text, signerReady: bool, health: Health)
      returns (r: Result<BrokerResult, Refusal>)
      requires Valid() && broker.redis.connected && Digests(broker.cfg.sha) && CacheSound(broker.cfg, broker.redis.store)
      requires claims.Some? && claims.value.externalContext.Some? ==> WellFormed(claims.value.externalContext.value)
      modifies this`records, rateLimit`alerts, broker.redis`store
      ensures CacheSound(broker.cfg, broker.redis.store)
      ensures r.Ok? ==>
        && grantType == TARGET_ACCESS_GRANT && ReadAssertion(claims, code).Some?
        && var (who, requestId) := ReadAssertion(claims, code).value;
           && !Live(old(broker.redis.store), ReplayKey(broker.cfg.tenantId, requestId), now)
           && ReplayKey(broker.cfg.tenantId, requestId) in broker.redis.store
           && broker.redis.store[ReplayKey(broker.cfg.tenantId, requestId)] == Cell(Flag, Some(now + 1000 * replay.replayTtlSeconds))
           && Granted(who, claims.value, code, now, jti, r.value, old(records), records)
      ensures r.Err? ==> records == old(records)
      ensures r == Err(UnsupportedGrantType) <==> grantType != TARGET_ACCESS_GRANT
      ensures r == Err(InvalidRequesterJwt) <==> grantType == TARGET_ACCESS_GRANT && ReadAssertion(claims, code).None?
      ensures r in {Err(UnsupportedGrantType), Err(InvalidRequesterJwt)} ==> broker.redis.store == old(broker.redis.store)
    {
      if grantType != TARGET_ACCESS_GRANT { return Err(UnsupportedGrantType); }
      var read := ReadAssertion(claims, code);
      if read.None? { return Err(InvalidRequesterJwt); }
      var (who, requestId) := read.value;
      var refused := Admit(who, requestId, code, now, health);
      if refused.Some? { return Err(refused.value); }
      ghost var key := ReplayKey(broker.cfg.tenantId, requestId);
      assert broker.redis.store[key] == Cell(Flag, Some(now + 1000 * replay.replayTtlSeconds));
      r := Issue(who, claims.value, code, now, jti, signerReady, health);
    }
  }
}
