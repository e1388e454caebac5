/**
 Requester assertions: what issuing one checks and signs, and how the exchange reads one back. The claims that
 matter are strings when present, as the issuer signs them.
 */
module Requester {
  import opened Wrappers
  import opened Text
  import opened Json
  import opened Clients
  import opened Directory
  import Redis
  import opened Broker
  import RateLimit
  import Replay

  const REQUESTER_ASSERTION := "requester_assertion"

  datatype RequesterClaims = RequesterClaims(sub: Option<Text>, tokenUse: Option<string>, agentId: Option<Text>, appId: Option<Text>,
                                             runtimeId: Option<Text>, targetResource: Option<Text>, requestId: Option<Text>,
                                             jti: Option<Text>, credentialId: Option<Text>, secretId: Option<Text>,
                                             externalContext: Option<Json>)

  datatype Who = AgentRequester(id: Text) | ApplicationRequester(id: Text)

  datatype Assertion = Assertion(claims: RequesterClaims, iat: int, exp: int)

  // ---------- reading an assertion ----------

  function ResolveRequesterPrincipal(claims: RequesterClaims): Option<Who> {
    match NonBlank(claims.sub)
    case None => None
    case Some(subject) =>
      if StartsWith(subject, AgentPrefix()) then
        if claims.agentId == Some(subject[|AgentPrefix()|..]) then Some(AgentRequester(subject[|AgentPrefix()|..])) else None
      else if StartsWith(subject, AppPrefix()) then
        if claims.appId == Some(subject[|AppPrefix()|..]) then Some(ApplicationRequester(subject[|AppPrefix()|..])) else None
      else None
  }

  /** `request_id`, or the token's own id without one. */
  function ReadRequestId(claims: RequesterClaims): Option<Text> {
    NonBlank(if claims.requestId.Some? then claims.requestId else claims.jti)
  }

  // ---------- writing one ----------

  /** `randomId` is the claim `jti` every signing draws. */
  function AgentAssertion(agentId: Text, runtimeId: Option<Text>, credentialId: Text, code: Text, requestId: Text,
                          externalContext: Option<Json>, randomId: Text): RequesterClaims {
    RequesterClaims(Some(AgentPrefix() + agentId), Some(REQUESTER_ASSERTION), Some(agentId), None, runtimeId, Some(code), Some(requestId),
                    Some(randomId), Some(credentialId), None, externalContext)
  }

  function ApplicationAssertion(appId: Text, secretId: Text, code: Text, requestId: Text, externalContext: Option<Json>,
                                randomId: Text): RequesterClaims {
    RequesterClaims(Some(AppPrefix() + appId), Some(REQUESTER_ASSERTION), None, Some(appId), None, Some(code), Some(requestId),
                    Some(randomId), None, Some(secretId), externalContext)
  }

  /** An agent's assertion resolves to the agent exactly when its id does not end in white space. */
  lemma AgentRoundTrip(agentId: Text, runtimeId: Option<Text>, credentialId: Text, code: Text, requestId: Text,
                       externalContext: Option<Json>, randomId: Text)
    ensures var claims := AgentAssertion(agentId, runtimeId, credentialId, code, requestId, externalContext, randomId);
      ResolveRequesterPrincipal(claims) == Some(AgentRequester(agentId)) <==> (agentId == [] || !IsSpace(agentId[|agentId| - 1]))
  {
  }

  lemma ApplicationRoundTrip(appId: Text, secretId: Text, code: Text, requestId: Text, externalContext: Option<Json>, randomId: Text)
    ensures var claims := ApplicationAssertion(appId, secretId, code, requestId, externalContext, randomId);
      ResolveRequesterPrincipal(claims) == Some(ApplicationRequester(appId)) <==> (appId == [] || !IsSpace(appId[|appId| - 1]))
  {
    SubjectTrims(AppPrefix(), appId);
    OnePrefix(Trim(AppPrefix() + appId));
  }

  lemma OnePrefix(subject: Text)
    ensures !StartsWith(subject, AgentPrefix()) || !StartsWith(subject, AppPrefix())
  {
    assert AgentPrefix()[1] == 'g' as int && AppPrefix()[1] == 'p' as int;
    if |subject| >= |AgentPrefix()| {
      assert subject[..|AgentPrefix()|][1] == subject[1] == subject[..|AppPrefix()|][1];
    }
  }

  /** Trimming a subject keeps its prefix, and keeps the id just when the id does not end in white space. */
  lemma SubjectTrims(prefix: Text, id: Text)
    requires prefix != [] && Trimmed(prefix)
    ensures var subject := Trim(prefix + id);
      && StartsWith(subject, prefix) && subject != [] && subject <= prefix + id
      && (subject[|prefix|..] == id <==> id == [] || !IsSpace(id[|id| - 1]))
  {
    var whole := prefix + id;
    assert TrimStart(whole) == whole;
    TrimEndKeepsPrefix(prefix, id);
    var subject := Trim(whole);
    if id != [] && !IsSpace(id[|id| - 1]) {
      assert whole[|whole| - 1] == id[|id| - 1];
      assert subject == whole;
    }
    if subject[|prefix|..] == id { assert subject == prefix + id; }
  }

  lemma {:induction false} TrimEndKeepsPrefix(prefix: Text, id: Text)
    requires prefix != [] && !IsSpace(prefix[|prefix| - 1])
    ensures StartsWith(TrimEnd(prefix + id), prefix) && TrimEnd(prefix + id) <= prefix + id
    decreases |id|
  {
    if id == [] {
      assert prefix + id == prefix;
    } else if IsSpace(id[|id| - 1]) {
      assert (prefix + id)[..|prefix + id| - 1] == prefix + id[..|id| - 1];
      TrimEndKeepsPrefix(prefix, id[..|id| - 1]);
    }
  }

  // ---------- issuing ----------

  /** The error codes of both delegation endpoints. */
  datatype Refusal = MissingId | RateLimited | RateLimitUnavailable | InvalidAgent | InvalidRuntime | InvalidCallerCredential
                   | InvalidApplication | InvalidAppSecret | InvalidTargetResource | NoSigningKey
                   | UnsupportedGrantType | InvalidRequesterJwt | RequestReplayed | ReplayProtectionUnavailable
                   | ConnectionNotAllowed | InvalidExternalContext | AccessNotAllowed

  /** How many matching credential rows one authentication looks at. */
  const CREDENTIALS_READ := 10

  datatype Authenticated = Authenticated(agentDbId: Text, runtime: Option<(Text, Text)>, credentialId: Text)

  function RuntimeDbId(runtime: Option<(Text, Text)>): Option<Text> { if runtime.Some? then Some(runtime.value.0) else None }

  function RuntimePublicId(runtime: Option<(Text, Text)>): Option<Text> { if runtime.Some? then Some(runtime.value.1) else None }

  /** The runtime a request names, if it names one. */
  predicate RuntimeMatches(rows: Rows, wanted: Option<Text>, agentDbId: Text, runtime: Option<(Text, Text)>) {
    if wanted.Some? && wanted.value != [] then
      runtime.Some? && runtime.value.1 == wanted.value && RuntimeActive(rows, runtime.value.0, wanted.value, agentDbId)
    else runtime.None?
  }

  predicate Authentic(rows: Rows, agentId: Text, runtimeId: Option<Text>, secret: Text, a: Authenticated, now: int) {
    && AgentActive(rows, a.agentDbId, agentId) && RuntimeMatches(rows, runtimeId, a.agentDbId, a.runtime)
    && CredentialFits(rows, a.credentialId, a.agentDbId, RuntimeDbId(a.runtime), now) && rows.credentials[a.credentialId].secret == secret
  }

  function Candidates(rows: Rows, agentDbId: Text, runtimeDbId: Option<Text>, now: int): set<Text> {
    set id | id in rows.credentials && CredentialFits(rows, id, agentDbId, runtimeDbId, now)
  }

  lemma {:induction false} SubsetOfSize(ids: set<Text>, n: nat)
    requires n <= |ids|
    ensures exists page :: page <= ids && |page| == n
    decreases |ids|
  {
    if n < |ids| {
      var id :| id in ids;
      SubsetOfSize(ids - {id}, n);
    } else {
      assert ids <= ids;
    }
  }

  class CallerCredentialService {
    const db: Database

    constructor (db: Database)
      ensures this.db == db
    {
      this.db := db;
    }

    method FindAgent(agentId: Text) returns (r: Option<Text>)
      ensures r.Some? ==> AgentActive(db.rows, r.value, agentId)
      ensures r.None? ==> forall x :: !AgentActive(db.rows, x, agentId)
    {
      if exists x :: x in db.rows.agents && AgentActive(db.rows, x, agentId) {
        var x :| x in db.rows.agents && AgentActive(db.rows, x, agentId);
        return Some(x);
      }
      return None;
    }

    /** Ok(None) when the request names no runtime. */
    method FindRuntime(runtimeId: Option<Text>, agentDbId: Text) returns (r: Result<Option<(Text, Text)>, ()>)
      ensures r.Ok? ==> RuntimeMatches(db.rows, runtimeId, agentDbId, r.value)
      ensures r.Err? ==> forall runtime :: !RuntimeMatches(db.rows, runtimeId, agentDbId, runtime)
    {
      if runtimeId.None? || runtimeId.value == [] { return Ok(None); }
      if exists x :: x in db.rows.runtimes && RuntimeActive(db.rows, x, runtimeId.value, agentDbId) {
        var x :| x in db.rows.runtimes && RuntimeActive(db.rows, x, runtimeId.value, agentDbId);
        return Ok(Some((x, runtimeId.value)));
      }
      return Err(());
    }

    /** Any active credential of the agent and runtime; exactly the named one when the assertion names one. */
    method RequireActiveForAgent(agentDbId: Text, runtimeDbId: Option<Text>, credentialId: Option<Text>, now: int) returns (r: Option<Text>)
      ensures r.Some? ==> CredentialFits(db.rows, r.value, agentDbId, runtimeDbId, now) && (credentialId.Some? ==> r == credentialId)
      ensures r.None? ==> forall id :: !(CredentialFits(db.rows, id, agentDbId, runtimeDbId, now) && (credentialId.Some? ==> Some(id) == credentialId))
    {
      var fitting := Candidates(db.rows, agentDbId, runtimeDbId, now);
      assert forall id :: CredentialFits(db.rows, id, agentDbId, runtimeDbId, now) ==> id in fitting;
      if credentialId.Some? { return if credentialId.value in fitting then credentialId else None; }
      if fitting == {} { return None; }
      var id :| id in fitting;
      return Some(id);
    }

    /**
     Among at most ten fitting credentials, whichever the database returns, the one with this secret. With no
     more than ten fitting, the secret of every one of them authenticates.
     */
    method AuthenticateAgentSecret(secret: Option<Text>, agentId: Text, runtimeId: Option<Text>, now: int) returns (r: Result<Authenticated, Refusal>)
      ensures r.Ok? ==> secret.Some? && Authentic(db.rows, agentId, runtimeId, secret.value, r.value, now)
      ensures r == Err(InvalidAgent) <==> secret.Some? && secret.value != [] && forall x :: !AgentActive(db.rows, x, agentId)
      ensures r.Err? ==> r.error in {InvalidAgent, InvalidRuntime, InvalidCallerCredential}
      ensures UniqueIds(db.rows) && r == Err(InvalidCallerCredential) && secret.Some? && secret.value != [] ==>
        forall a: Authenticated :: |Candidates(db.rows, a.agentDbId, RuntimeDbId(a.runtime), now)| <= CREDENTIALS_READ ==>
          !Authentic(db.rows, agentId, runtimeId, secret.value, a, now)
    {
      if secret.None? || secret.value == [] { return Err(InvalidCallerCredential); }
      var agent := FindAgent(agentId);
      if agent.None? { return Err(InvalidAgent); }
      var runtime := FindRuntime(runtimeId, agent.value);
      if runtime.Err? { return Err(InvalidRuntime); }
      var fitting := Candidates(db.rows, agent.value, RuntimeDbId(runtime.value), now);
      var size := if |fitting| <= CREDENTIALS_READ then |fitting| else CREDENTIALS_READ;
      SubsetOfSize(fitting, size);
      var page: set<Text> :| page <= fitting && |page| == size;
      if exists id :: id in page && db.rows.credentials[id].secret == secret.value {
        var id :| id in page && db.rows.credentials[id].secret == secret.value;
        return Ok(Authenticated(agent.value, runtime.value, id));
      }
      NobodyAuthentic(db.rows, agentId, runtimeId, secret.value, agent.value, runtime.value, page, now);
      return Err(InvalidCallerCredential);
    }
  }

  lemma FullPage(page: set<Text>, ids: set<Text>)
    requires page <= ids && |page| == |ids|
    ensures page == ids
  {
    if id :| id in ids && id !in page {
      SmallerSubset(page, ids, id);
    }
  }

  lemma {:induction false} SmallerSubset(page: set<Text>, ids: set<Text>, id: Text)
    requires page <= ids - {id} && id in ids
    ensures |page| < |ids|
    decreases |page|
  {
    if page != {} {
      var p :| p in page;
      SmallerSubset(page - {p}, ids - {p}, id);
    }
  }

  lemma NobodyAuthentic(rows: Rows, agentId: Text, runtimeId: Option<Text>, secret: Text, agentDbId: Text, runtime: Option<(Text, Text)>,
                        page: set<Text>, now: int)
    requires AgentActive(rows, agentDbId, agentId) && RuntimeMatches(rows, runtimeId, agentDbId, runtime)
    requires page <= Candidates(rows, agentDbId, RuntimeDbId(runtime), now)
    requires |Candidates(rows, agentDbId, RuntimeDbId(runtime), now)| <= CREDENTIALS_READ
             ==> |page| == |Candidates(rows, agentDbId, RuntimeDbId(runtime), now)|
    requires forall id :: id in page ==> rows.credentials[id].secret != secret
    ensures UniqueIds(rows) ==>
      forall a: Authenticated :: |Candidates(rows, a.agentDbId, RuntimeDbId(a.runtime), now)| <= CREDENTIALS_READ ==> !Authentic(rows, agentId, runtimeId, secret, a, now)
  {
    if UniqueIds(rows) {
      forall a | Authentic(rows, agentId, runtimeId, secret, a, now)
        ensures |Candidates(rows, a.agentDbId, RuntimeDbId(a.runtime), now)| > CREDENTIALS_READ
      {
        assert a.agentDbId == agentDbId && a.runtime == runtime;
        var ids := Candidates(rows, agentDbId, RuntimeDbId(runtime), now);
        assert a.credentialId in ids && a.credentialId !in page;
        if |ids| <= CREDENTIALS_READ { FullPage(page, ids); }
      }
    }
  }

  class RequesterTokenService {
    const credentials: CallerCredentialService
    const rateLimit: RateLimit.RateLimitService<CacheDoc>

    constructor (credentials: CallerCredentialService, rateLimit: RateLimit.RateLimitService<CacheDoc>)
      ensures this.credentials == credentials && this.rateLimit == rateLimit
    {
      this.credentials, this.rateLimit := credentials, rateLimit;
    }

    method LimitIssue(name: Text, now: int, reachable: bool) returns (r: Option<Refusal>)
      modifies rateLimit`alerts, rateLimit.redis`store
      ensures r.None? && Redis.Live(old(rateLimit.redis.store), Redis.RateLimitKey(name), now) ==>
              old(rateLimit.redis.store)[Redis.RateLimitKey(name)].value.Counter?
      ensures r.None? ==> rateLimit.redis.store == Redis.Incr(old(rateLimit.redis.store), Redis.RateLimitKey(name), 60, now)
                          && RateLimit.Count(rateLimit.redis.store, name) <= 120
      ensures r.Some? ==> r.value in {RateLimited, RateLimitUnavailable}
    {
      var verdict := rateLimit.AssertAllowed(name, 120, 60, now, reachable);
      match verdict
      case Allowed => return None;
      case Limited => return Some(RateLimited);
      case BackendError => return Some(RateLimitUnavailable);
    }

    /**
     An issued assertion names the authenticated agent, runtime and credential, lives 300 s, and reads back as
     that agent.
     */
    method IssueAgent(agentId: Option<Text>, runtimeId: Option<Text>, secret: Option<Text>, code: Text, externalContext: Option<Json>,
                      requestId: Text, randomId: Text, now: int, reachable: bool, signerReady: bool) returns (r: Result<Assertion, Refusal>)
      modifies rateLimit`alerts, rateLimit.redis`store
      ensures r.Ok? ==>
        && agentId.Some? && secret.Some? && TargetActive(credentials.db.rows, code)
        && r.value.iat == now / 1000 && r.value.exp == r.value.iat + Replay.ASSERTION_TTL_SECONDS
        && ResolveRequesterPrincipal(r.value.claims) == Some(AgentRequester(Trim(agentId.value)))
        && (exists a :: Authentic(credentials.db.rows, Trim(agentId.value), runtimeId, secret.value, a, now)
              && r.value.claims == AgentAssertion(Trim(agentId.value), RuntimePublicId(a.runtime), a.credentialId, code, requestId,
                                                  externalContext, randomId))
      ensures r == Err(InvalidAgent) ==> agentId.Some? && forall x :: !AgentActive(credentials.db.rows, x, Trim(agentId.value))
      ensures r == Err(InvalidTargetResource) ==> !TargetActive(credentials.db.rows, code)
      ensures r == Err(MissingId) <==> NonBlank(agentId).None?
      ensures r == Err(MissingId) ==> rateLimit.redis.store == old(rateLimit.redis.store)
    {
      var id := NonBlank(agentId);
      if id.None? { return Err(MissingId); }
      var limited := LimitIssue(Literal("requester-token:agent:") + id.value, now, reachable);
      if limited.Some? { return Err(limited.value); }
      var authenticated := credentials.AuthenticateAgentSecret(secret, id.value, runtimeId, now);
      if authenticated.Err? { return Err(authenticated.error); }
      if !TargetActive(credentials.db.rows, code) { return Err(InvalidTargetResource); }
      if !signerReady { return Err(NoSigningKey); }
      var a := authenticated.value;
      var claims := AgentAssertion(id.value, RuntimePublicId(a.runtime), a.credentialId, code, requestId, externalContext, randomId);
      AgentRoundTrip(id.value, RuntimePublicId(a.runtime), a.credentialId, code, requestId, externalContext, randomId);
      return Ok(Assertion(claims, now / 1000, now / 1000 + Replay.ASSERTION_TTL_SECONDS));
    }

    /** The first live secret row with this secret, in the rows' order. */
    function MatchingSecret(secrets: seq<SecretRow>, secret: string, now: int): (r: Option<SecretRow>)
      ensures r.Some? <==> exists row :: row in secrets && LiveSecret(row, now) && row.secret == secret
      ensures r.Some? ==> r.value in secrets && LiveSecret(r.value, now) && r.value.secret == secret
    {
      if secrets == [] then None
      else if LiveSecret(secrets[0], now) && secrets[0].secret == secret then Some(secrets[0])
      else MatchingSecret(secrets[1..], secret, now)
    }

    method IssueApplication(appId: Option<Text>, secret: Option<string>, code: Text, externalContext: Option<Json>,
                            requestId: Text, randomId: Text, now: int, reachable: bool, signerReady: bool) returns (r: Result<Assertion, Refusal>)
      modifies rateLimit`alerts, rateLimit.redis`store
      ensures r.Ok? ==>
        && appId.Some? && secret.Some? && TargetActive(credentials.db.rows, code)
        && UsableClient(credentials.db.rows.clients, Trim(appId.value))
        && r.value.iat == now / 1000 && r.value.exp == r.value.iat + Replay.ASSERTION_TTL_SECONDS
        && ResolveRequesterPrincipal(r.value.claims) == Some(ApplicationRequester(Trim(appId.value)))
        && (exists row :: row in credentials.db.rows.clients[Trim(appId.value)].secrets && LiveSecret(row, now) && row.secret == secret.value
              && r.value.claims == ApplicationAssertion(Trim(appId.value), row.id, code, requestId, externalContext, randomId))
      ensures r == Err(InvalidApplication) ==> appId.Some? && !UsableClient(credentials.db.rows.clients, Trim(appId.value))
      ensures r == Err(InvalidTargetResource) ==> !TargetActive(credentials.db.rows, code)
      ensures r == Err(MissingId) <==> NonBlank(appId).None?
      ensures r == Err(MissingId) ==> rateLimit.redis.store == old(rateLimit.redis.store)
    {
      var id := NonBlank(appId);
      if id.None? { return Err(MissingId); }
      var limited := LimitIssue(Literal("requester-token:application:") + id.value, now, reachable);
      if limited.Some? { return Err(limited.value); }
      if secret.None? || secret.value == "" { return Err(InvalidAppSecret); }
      var rows := credentials.db.rows;
      if !UsableClient(rows.clients, id.value) { return Err(InvalidApplication); }
      var row := MatchingSecret(rows.clients[id.value].secrets, secret.value, now);
      if row.None? { return Err(InvalidAppSecret); }
      if !TargetActive(rows, code) { return Err(InvalidTargetResource); }
      if !signerReady { return Err(NoSigningKey); }
      var claims := ApplicationAssertion(id.value, row.value.id, code, requestId, externalContext, randomId);
      ApplicationRoundTrip(id.value, row.value.id, code, requestId, externalContext, randomId);
      return Ok(Assertion(claims, now / 1000, now / 1000 + Replay.ASSERTION_TTL_SECONDS));
    }
  }
}
