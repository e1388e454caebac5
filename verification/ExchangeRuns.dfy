/**
 Any number of target-token exchanges at once, a database statement or a Redis command at a time, while admin
 operations change the rows and the clock runs. Every check is made on the rows of some moment during the
 exchange, so nothing that was gone before an exchange started can authorise it, warm cache or not.
 */
module ExchangeRuns {
  import opened Wrappers
  import opened Text
  import opened Json
  import opened Clients
  import opened Directory
  import opened Redis
  import opened Broker
  import opened Requester
  import opened Exchange

  datatype Settings = Settings(broker: Config, targetTokenTtlSeconds: nat)

  /** The rows and the clock as one step saw them. */
  datatype Moment = Moment(rows: Rows, now: int)

  datatype Phase = Admitted | TargetSeen | PrincipalSeen | RuntimeSeen | CredentialSeen | ConnectionSeen | GrantSeen
                 | CacheMissed | Signed | Written | Done

  function Rank(phase: Phase): nat {
    match phase
    case Admitted => 0 case TargetSeen => 1 case PrincipalSeen => 2 case RuntimeSeen => 3 case CredentialSeen => 4
    case ConnectionSeen => 5 case GrantSeen => 6 case CacheMissed => 7 case Signed => 8 case Written => 9 case Done => 10
  }

  /** What an exchange has read so far, and at which step. */
  datatype Seen = Seen(target: Target, targetAt: nat, a: Authorization, principalAt: nat, runtimeAt: nat, credentialAt: nat,
                       connectionAt: nat, ttl: nat, grantAt: nat, cacheAt: nat)

  const NOTHING_SEEN := Seen(Target([], [], ""), 0, Authorization([], None, [], [], []), 0, 0, 0, 0, 0, 0, 0)

  /** An exchange past its replay guard. `start` is the step it began at. */
  datatype Flight = Flight(claims: RequesterClaims, who: Who, code: Text, start: nat, phase: Phase, seen: Seen,
                           token: Option<Token>, cache: CacheOutcome)

  datatype Returned = Returned(flight: Flight, token: Token, at: nat)

  /** `signed`: every jti signed. `lost`: those whose record could not be written. */
  datatype State = State(now: int, rows: Rows, cache: Store<CacheDoc>, flights: map<nat, Flight>, returned: seq<Returned>,
                         history: seq<Moment>, signed: set<Text>, records: set<Text>, lost: set<Text>)

  datatype Action =
    | Advance(ms: nat)
    | Administer(rows: Rows)
    | Evict(key: Key)
    | Begin(p: nat, claims: RequesterClaims, code: Text)
    | SeeTarget(p: nat)
    | SeeAgent(p: nat, id: Text)
    | SeeRuntime(p: nat, runtime: Option<(Text, Text)>)
    | SeeCredential(p: nat, id: Text)
    | SeeApplication(p: nat, id: Text)
    | SeeConnection(p: nat, id: Text)
    | SeeGrant(p: nat, id: Text)
    | ReadCache(p: nat, health: Health)
    | SignToken(p: nat, jti: Text)
    | WriteCache(p: nat, reachable: bool)
    | Record(p: nat)
    | LoseRecord(p: nat)
    | Return(p: nat)
    | Abort(p: nat)

  predicate InPhase(s: State, p: nat, phase: Phase) { p in s.flights && s.flights[p].phase == phase }

  function ContextOf(cfg: Settings, f: Flight): Context {
    BrokerContext(cfg.broker, f.seen.target, f.who, f.claims, f.code, f.seen.a)
  }

  function KeyOf(cfg: Settings, f: Flight): Key { CacheKey(cfg.broker, ContextOf(cfg, f)) }

  function ClaimsOf(f: Flight): Claims { RequestedClaims(f.seen.target, f.who, f.claims, f.code) }

  predicate IsRead(a: Action) {
    a.SeeTarget? || a.SeeAgent? || a.SeeRuntime? || a.SeeCredential? || a.SeeApplication? || a.SeeConnection? || a.SeeGrant?
  }

  /** The rows of the moment answer the exchange's next read; when they do not, the exchange is refused. */
  ghost predicate Answers(cfg: Settings, m: Moment, f: Flight, a: Action)
    requires IsRead(a)
  {
    match a
    case SeeTarget(_) => f.phase == Admitted && TargetActive(m.rows, f.code)
    case SeeAgent(_, id) => f.phase == TargetSeen && f.who.AgentRequester? && PrincipalActive(m.rows, f.who, id)
    case SeeRuntime(_, runtime) => f.phase == PrincipalSeen && RuntimeOk(m.rows, f.who, f.claims, f.seen.a.principalDbId, runtime)
    case SeeCredential(_, id) =>
      f.phase == RuntimeSeen && CredentialOk(m.rows, f.who, f.claims, f.seen.a.principalDbId, f.seen.a.runtime, id, m.now)
    case SeeApplication(_, id) =>
      f.phase == TargetSeen && f.who.ApplicationRequester? && PrincipalActive(m.rows, f.who, f.who.id)
      && CredentialOk(m.rows, f.who, f.claims, f.who.id, None, id, m.now)
    case SeeConnection(_, id) =>
      f.phase == CredentialSeen && ConnectionOk(cfg.broker, m.rows, f.who, f.claims, f.code, f.seen.a.runtime, id, m.now)
    case SeeGrant(_, id) => f.phase == ConnectionSeen && GrantFits(m.rows, id, f.seen.a.connectionId, m.now)
  }

  /** The exchange after one of its reads, made at step `k`. */
  ghost function AfterRead(cfg: Settings, m: Moment, k: nat, f: Flight, a: Action): Flight
    requires IsRead(a) && Answers(cfg, m, f, a)
  {
    var seen := f.seen;
    match a
    case SeeTarget(_) => f.(phase := TargetSeen, seen := seen.(target := m.rows.targets[f.code], targetAt := k))
    case SeeAgent(_, id) => f.(phase := PrincipalSeen, seen := seen.(a := seen.a.(principalDbId := id), principalAt := k))
    case SeeRuntime(_, runtime) => f.(phase := RuntimeSeen, seen := seen.(a := seen.a.(runtime := runtime), runtimeAt := k))
    case SeeCredential(_, id) => f.(phase := CredentialSeen, seen := seen.(a := seen.a.(credentialId := id), credentialAt := k))
    case SeeApplication(_, id) =>
      f.(phase := CredentialSeen, seen := seen.(a := seen.a.(principalDbId := f.who.id, runtime := None, credentialId := id),
                                                principalAt := k, runtimeAt := k, credentialAt := k))
    case SeeConnection(_, id) =>
      f.(phase := ConnectionSeen,
         seen := seen.(a := seen.a.(connectionId := id), connectionAt := k,
                       ttl := ResolveTokenTtl(cfg.targetTokenTtlSeconds, m.rows.connections[id].maxTokenTtlSeconds)))
    case SeeGrant(_, id) => f.(phase := GrantSeen, seen := seen.(a := seen.a.(grantId := id), grantAt := k))
  }

  function Present(s: State): Moment { Moment(s.rows, s.now) }

  ghost predicate Enabled(cfg: Settings, s: State, a: Action) {
    match a
    case Advance(_) => true
    case Administer(rows) => Evolves(s.rows, rows)
    case Evict(_) => true
    case Begin(p, claims, code) =>
      p !in s.flights && ReadAssertion(Some(claims), code).Some?
      && (claims.externalContext.Some? ==> WellFormed(claims.externalContext.value))
    case ReadCache(p, _) => InPhase(s, p, GrantSeen)
    case SignToken(p, jti) => InPhase(s, p, CacheMissed) && jti !in s.signed
    case WriteCache(p, _) => InPhase(s, p, Signed) && s.flights[p].token.Some?
    case Record(p) => InPhase(s, p, Written) && s.flights[p].token.Some?
    case LoseRecord(p) => InPhase(s, p, Written) && s.flights[p].token.Some?
    case Return(p) => InPhase(s, p, Done) && s.flights[p].token.Some?
    case Abort(p) => p in s.flights && !InPhase(s, p, Signed) && !InPhase(s, p, Written)
    case _ => a.p in s.flights && Answers(cfg, Present(s), s.flights[a.p], a)
  }

  /** A reusable entry answers the exchange; otherwise it goes on to sign. */
  function AfterCacheRead(cfg: Settings, s: State, f: Flight, health: Health): Flight {
    var reusable := if health.read then Reusable(cfg.broker, s.cache, KeyOf(cfg, f), s.now) else None;
    if reusable.Some? then f.(phase := Done, token := Some(reusable.value.accessToken), cache := Hit, seen := f.seen.(cacheAt := |s.history|))
    else f.(phase := CacheMissed, cache := if health.read then Miss else BackendError)
  }

  function SignedBy(cfg: Settings, s: State, f: Flight, jti: Text): Flight {
    f.(phase := Signed, token := Some(Sign(cfg.broker, ClaimsOf(f), ContextOf(cfg, f).audience, f.seen.ttl, s.now, jti)))
  }

  /** A failed write is reported, and does not stop the exchange. */
  function AfterWrite(f: Flight, reachable: bool): Flight {
    f.(phase := Written, cache := if reachable then f.cache else BackendError)
  }

  function JtiOf(f: Flight): Text { if f.token.Some? then f.token.value.jti else [] }

  /** Steps of the clock, of administration and of the store belong to no exchange. */
  predicate OfExchange(a: Action) { !a.Advance? && !a.Administer? && !a.Evict? }

  /** What a step makes of the exchange it belongs to; None when the exchange ends. */
  ghost function Moved(cfg: Settings, s: State, a: Action): Option<Flight>
    requires Enabled(cfg, s, a) && OfExchange(a)
  {
    if IsRead(a) then Some(AfterRead(cfg, Present(s), |s.history|, s.flights[a.p], a))
    else
      match a
      case Begin(_, claims, code) =>
        Some(Flight(claims, ReadAssertion(Some(claims), code).value.0, code, |s.history|, Admitted, NOTHING_SEEN, None, Miss))
      case ReadCache(p, health) => Some(AfterCacheRead(cfg, s, s.flights[p], health))
      case SignToken(p, jti) => Some(SignedBy(cfg, s, s.flights[p], jti))
      case WriteCache(p, reachable) => Some(AfterWrite(s.flights[p], reachable))
      case Record(p) => Some(s.flights[p].(phase := Done))
      case _ => None
  }

  ghost function CacheAfter(cfg: Settings, s: State, a: Action): Store<CacheDoc>
    requires Enabled(cfg, s, a)
  {
    match a
    case Evict(key) => s.cache - {key}
    case ReadCache(p, health) => StoreAfter(cfg.broker, s.cache, KeyOf(cfg, s.flights[p]), s.now, health)
    case WriteCache(p, reachable) =>
      if reachable then Broker.Written(s.cache, KeyOf(cfg, s.flights[p]), s.flights[p].token.value, s.now) else s.cache
    case _ => s.cache
  }

  ghost function FlightsAfter(cfg: Settings, s: State, a: Action): map<nat, Flight>
    requires Enabled(cfg, s, a)
  {
    if !OfExchange(a) then s.flights
    else
      match Moved(cfg, s, a)
      case None => s.flights - {a.p}
      case Some(g) => s.flights[a.p := g]
  }

  /** Every step leaves the moment it was made at in the history. */
  ghost function Apply(cfg: Settings, s: State, a: Action): State
    requires Enabled(cfg, s, a)
  {
    State(if a.Advance? then s.now + a.ms else s.now,
          if a.Administer? then a.rows else s.rows,
          CacheAfter(cfg, s, a),
          FlightsAfter(cfg, s, a),
          if a.Return? then s.returned + [Returned(s.flights[a.p], s.flights[a.p].token.value, |s.history|)] else s.returned,
          s.history + [Present(s)],
          if a.SignToken? then s.signed + {a.jti} else s.signed,
          if a.Record? then s.records + {JtiOf(s.flights[a.p])} else s.records,
          if a.LoseRecord? then s.lost + {JtiOf(s.flights[a.p])} else s.lost)
  }

  ghost function Run(cfg: Settings, s: State, acts: seq<Action>): Option<State>
    decreases |acts|
  {
    if acts == [] then Some(s)
    else if Enabled(cfg, s, acts[0]) then Run(cfg, Apply(cfg, s, acts[0]), acts[1..])
    else None
  }

  /** Nothing in progress; the cache may be warm. */
  ghost predicate Initial(cfg: Settings, s: State) {
    && UniqueIds(s.rows) && CacheSound(cfg.broker, s.cache) && s.flights == map[] && s.returned == [] && s.history == []
    && s.signed == s.records == s.lost == {}
  }

  // ---------- the authorization behind an exchange ----------

  predicate During(h: seq<Moment>, f: Flight, k: nat) { f.start <= k < |h| }

  predicate TargetBacked(h: seq<Moment>, f: Flight) {
    During(h, f, f.seen.targetAt)
    && var rows := h[f.seen.targetAt].rows; TargetActive(rows, f.code) && rows.targets[f.code] == f.seen.target
  }

  predicate PrincipalBacked(h: seq<Moment>, f: Flight) {
    During(h, f, f.seen.principalAt) && PrincipalActive(h[f.seen.principalAt].rows, f.who, f.seen.a.principalDbId)
  }

  predicate RuntimeBacked(h: seq<Moment>, f: Flight) {
    During(h, f, f.seen.runtimeAt) && RuntimeOk(h[f.seen.runtimeAt].rows, f.who, f.claims, f.seen.a.principalDbId, f.seen.a.runtime)
  }

  predicate CredentialBacked(h: seq<Moment>, f: Flight) {
    During(h, f, f.seen.credentialAt)
    && var m := h[f.seen.credentialAt];
       CredentialOk(m.rows, f.who, f.claims, f.seen.a.principalDbId, f.seen.a.runtime, f.seen.a.credentialId, m.now)
  }

  /** The lifetime comes from the connection as it was read. */
  ghost predicate ConnectionBacked(cfg: Settings, h: seq<Moment>, f: Flight) {
    During(h, f, f.seen.connectionAt)
    && var m, id := h[f.seen.connectionAt], f.seen.a.connectionId;
       && ConnectionOk(cfg.broker, m.rows, f.who, f.claims, f.code, f.seen.a.runtime, id, m.now)
       && f.seen.ttl == ResolveTokenTtl(cfg.targetTokenTtlSeconds, m.rows.connections[id].maxTokenTtlSeconds)
  }

  predicate GrantBacked(h: seq<Moment>, f: Flight) {
    During(h, f, f.seen.grantAt) && GrantFits(h[f.seen.grantAt].rows, f.seen.a.grantId, f.seen.a.connectionId, h[f.seen.grantAt].now)
  }

  /** Each check an exchange has passed held at some step since its start. */
  ghost predicate Backed(cfg: Settings, h: seq<Moment>, f: Flight) {
    && (Rank(f.phase) >= 1 ==> TargetBacked(h, f))
    && (Rank(f.phase) >= 2 ==> PrincipalBacked(h, f))
    && (Rank(f.phase) >= 3 ==> RuntimeBacked(h, f))
    && (Rank(f.phase) >= 4 ==> CredentialBacked(h, f))
    && (Rank(f.phase) >= 5 ==> ConnectionBacked(cfg, h, f))
    && (Rank(f.phase) >= 6 ==> GrantBacked(h, f))
  }

  lemma BackedLater(cfg: Settings, h: seq<Moment>, m: Moment, f: Flight)
    requires Backed(cfg, h, f)
    ensures Backed(cfg, h + [m], f)
  {
  }

  lemma SeeTargetBacked(cfg: Settings, h: seq<Moment>, m: Moment, f: Flight, p: nat)
    requires Answers(cfg, m, f, SeeTarget(p)) && Backed(cfg, h + [m], f) && f.start <= |h|
    ensures Backed(cfg, h + [m], AfterRead(cfg, m, |h|, f, SeeTarget(p)))
  {
  }

  lemma SeeAgentBacked(cfg: Settings, h: seq<Moment>, m: Moment, f: Flight, p: nat, id: Text)
    requires Answers(cfg, m, f, SeeAgent(p, id)) && Backed(cfg, h + [m], f) && f.start <= |h|
    ensures Backed(cfg, h + [m], AfterRead(cfg, m, |h|, f, SeeAgent(p, id)))
  {
  }

  lemma SeeRuntimeBacked(cfg: Settings, h: seq<Moment>, m: Moment, f: Flight, p: nat, runtime: Option<(Text, Text)>)
    requires Answers(cfg, m, f, SeeRuntime(p, runtime)) && Backed(cfg, h + [m], f) && f.start <= |h|
    ensures Backed(cfg, h + [m], AfterRead(cfg, m, |h|, f, SeeRuntime(p, runtime)))
  {
  }

  lemma SeeCredentialBacked(cfg: Settings, h: seq<Moment>, m: Moment, f: Flight, p: nat, id: Text)
    requires Answers(cfg, m, f, SeeCredential(p, id)) && Backed(cfg, h + [m], f) && f.start <= |h|
    ensures Backed(cfg, h + [m], AfterRead(cfg, m, |h|, f, SeeCredential(p, id)))
  {
  }

  lemma SeeApplicationBacked(cfg: Settings, h: seq<Moment>, m: Moment, f: Flight, p: nat, id: Text)
    requires Answers(cfg, m, f, SeeApplication(p, id)) && Backed(cfg, h + [m], f) && f.start <= |h|
    ensures Backed(cfg, h + [m], AfterRead(cfg, m, |h|, f, SeeApplication(p, id)))
  {
  }

  /** The first four checks do not look at what the connection read adds. */
  lemma FirstChecksAlike(h: seq<Moment>, f: Flight, g: Flight)
    requires TargetBacked(h, f) && PrincipalBacked(h, f) && RuntimeBacked(h, f) && CredentialBacked(h, f)
    requires g.claims == f.claims && g.who == f.who && g.code == f.code && g.start == f.start
    requires g.seen == f.seen.(a := f.seen.a.(connectionId := g.seen.a.connectionId), connectionAt := g.seen.connectionAt, ttl := g.seen.ttl)
    ensures TargetBacked(h, g) && PrincipalBacked(h, g) && RuntimeBacked(h, g) && CredentialBacked(h, g)
  {
  }

  lemma NewConnectionBacked(cfg: Settings, h: seq<Moment>, m: Moment, f: Flight, p: nat, id: Text)
    requires Answers(cfg, m, f, SeeConnection(p, id)) && f.start <= |h|
    ensures ConnectionBacked(cfg, h + [m], AfterRead(cfg, m, |h|, f, SeeConnection(p, id)))
  {
  }

  lemma IdentifiedBacked(cfg: Settings, h: seq<Moment>, f: Flight)
    requires Backed(cfg, h, f) && Rank(f.phase) >= Rank(CredentialSeen)
    ensures TargetBacked(h, f) && PrincipalBacked(h, f) && RuntimeBacked(h, f) && CredentialBacked(h, f)
  {
  }

  lemma ConnectedBacked(cfg: Settings, h: seq<Moment>, g: Flight)
    requires g.phase == ConnectionSeen && TargetBacked(h, g) && PrincipalBacked(h, g) && RuntimeBacked(h, g) && CredentialBacked(h, g)
    requires ConnectionBacked(cfg, h, g)
    ensures Backed(cfg, h, g)
  {
  }

  lemma ConnectionReadTouches(cfg: Settings, m: Moment, k: nat, f: Flight, p: nat, id: Text)
    requires Answers(cfg, m, f, SeeConnection(p, id))
    ensures var g := AfterRead(cfg, m, k, f, SeeConnection(p, id));
      && f.phase == CredentialSeen && g.phase == ConnectionSeen
      && g.claims == f.claims && g.who == f.who && g.code == f.code && g.start == f.start
      && g.seen == f.seen.(a := f.seen.a.(connectionId := g.seen.a.connectionId), connectionAt := g.seen.connectionAt, ttl := g.seen.ttl)
  {
  }

  lemma SeeConnectionBacked(cfg: Settings, h: seq<Moment>, m: Moment, f: Flight, p: nat, id: Text)
    requires Answers(cfg, m, f, SeeConnection(p, id)) && Backed(cfg, h + [m], f) && f.start <= |h|
    ensures Backed(cfg, h + [m], AfterRead(cfg, m, |h|, f, SeeConnection(p, id)))
  {
    var g := AfterRead(cfg, m, |h|, f, SeeConnection(p, id));
    NewConnectionBacked(cfg, h, m, f, p, id);
    ConnectionReadTouches(cfg, m, |h|, f, p, id);
    IdentifiedBacked(cfg, h + [m], f);
    FirstChecksAlike(h + [m], f, g);
    ConnectedBacked(cfg, h + [m], g);
  }

  lemma SeeGrantBacked(cfg: Settings, h: seq<Moment>, m: Moment, f: Flight, p: nat, id: Text)
    requires Answers(cfg, m, f, SeeGrant(p, id)) && Backed(cfg, h + [m], f) && f.start <= |h|
    ensures Backed(cfg, h + [m], AfterRead(cfg, m, |h|, f, SeeGrant(p, id)))
  {
  }

  /** A read adds its check. */
  lemma ReadBacked(cfg: Settings, h: seq<Moment>, m: Moment, f: Flight, a: Action)
    requires IsRead(a) && Answers(cfg, m, f, a) && Backed(cfg, h, f) && f.start <= |h|
    ensures Backed(cfg, h + [m], AfterRead(cfg, m, |h|, f, a))
  {
    BackedLater(cfg, h, m, f);
    match a
    case SeeTarget(p) => SeeTargetBacked(cfg, h, m, f, p);
    case SeeAgent(p, id) => SeeAgentBacked(cfg, h, m, f, p, id);
    case SeeRuntime(p, runtime) => SeeRuntimeBacked(cfg, h, m, f, p, runtime);
    case SeeCredential(p, id) => SeeCredentialBacked(cfg, h, m, f, p, id);
    case SeeApplication(p, id) => SeeApplicationBacked(cfg, h, m, f, p, id);
    case SeeConnection(p, id) => SeeConnectionBacked(cfg, h, m, f, p, id);
    case SeeGrant(p, id) => SeeGrantBacked(cfg, h, m, f, p, id);
  }

  // ---------- what every reachable state satisfies ----------

  /** A signed or cached token carries the claims this exchange asks for; its own has the lifetime it read. */
  ghost predicate TokenSound(cfg: Settings, f: Flight) {
    && (f.phase == CacheMissed ==> f.cache != Hit)
    && (Rank(f.phase) >= Rank(Signed) ==> OwnToken(cfg, f))
  }

  ghost predicate OwnToken(cfg: Settings, f: Flight) {
    && f.token.Some? && Alike(f.token.value.claims, ClaimsOf(f))
    && (f.phase != Done ==> f.cache != Hit)
    && (f.cache != Hit ==> f.token.value.iss == cfg.broker.issuer && f.token.value.claims == ClaimsOf(f)
                           && f.token.value.exp == f.token.value.iat + f.seen.ttl)
  }

  /** At the cache read a hit had more than the threshold left. */
  predicate HitBacked(cfg: Settings, h: seq<Moment>, f: Flight) {
    f.phase == Done && f.cache == Hit ==>
      During(h, f, f.seen.cacheAt) && f.token.Some?
      && 1000 * f.token.value.exp - h[f.seen.cacheAt].now > 1000 * cfg.broker.reuseThresholdSeconds
  }

  ghost predicate FlightSound(cfg: Settings, h: seq<Moment>, f: Flight) {
    && f.start <= |h| && Backed(cfg, h, f) && TokenSound(cfg, f) && HitBacked(cfg, h, f)
    && (f.claims.externalContext.Some? ==> WellFormed(f.claims.externalContext.value))
  }

  /** What an answer rests on lies between the exchange's start and its return. */
  ghost predicate ReturnSound(cfg: Settings, h: seq<Moment>, r: Returned) {
    r.at < |h| && r.flight.phase == Done && r.flight.token == Some(r.token) && FlightSound(cfg, h[..r.at], r.flight)
  }

  ghost predicate FlightsSound(cfg: Settings, s: State) {
    forall p :: p in s.flights ==> FlightSound(cfg, s.history, s.flights[p])
  }

  ghost predicate ReturnsSound(cfg: Settings, s: State) {
    forall r :: r in s.returned ==> ReturnSound(cfg, s.history, r)
  }

  lemma FlightLater(cfg: Settings, h: seq<Moment>, m: Moment, f: Flight)
    requires FlightSound(cfg, h, f)
    ensures FlightSound(cfg, h + [m], f)
  {
  }

  lemma ReadFlight(cfg: Settings, h: seq<Moment>, m: Moment, f: Flight, a: Action)
    requires IsRead(a) && Answers(cfg, m, f, a) && FlightSound(cfg, h, f)
    ensures FlightSound(cfg, h + [m], AfterRead(cfg, m, |h|, f, a))
  {
    ReadBacked(cfg, h, m, f, a);
    ReadTouches(cfg, m, |h|, f, a);
  }

  lemma ReadTouches(cfg: Settings, m: Moment, k: nat, f: Flight, a: Action)
    requires IsRead(a) && Answers(cfg, m, f, a)
    ensures Rank(AfterRead(cfg, m, k, f, a).phase) < Rank(Signed)
    ensures AfterRead(cfg, m, k, f, a).start == f.start
    ensures AfterRead(cfg, m, k, f, a).claims == f.claims && AfterRead(cfg, m, k, f, a).code == f.code
  {
  }

  /** Cache transparency at the read: a reusable entry carries the claims this exchange asks for. */
  lemma HitIsAlike(cfg: Settings, s: State, f: Flight)
    requires Digests(cfg.broker.sha) && CacheSound(cfg.broker, s.cache)
    requires f.claims.externalContext.Some? ==> WellFormed(f.claims.externalContext.value)
    requires Reusable(cfg.broker, s.cache, KeyOf(cfg, f), s.now).Some?
    ensures var entry := Reusable(cfg.broker, s.cache, KeyOf(cfg, f), s.now).value;
      Alike(entry.accessToken.claims, ClaimsOf(f)) && entry.expiresAt == 1000 * entry.accessToken.exp
      && entry.expiresAt - s.now > 1000 * cfg.broker.reuseThresholdSeconds
  {
    RequestIsConsistent(cfg.broker, f.seen.target, f.who, f.claims, f.code, f.seen.a);
    ReusedIsAlike(cfg.broker, s.cache, ContextOf(cfg, f), f.claims.externalContext, s.now);
    assert EntrySound(cfg.broker, s.cache, KeyOf(cfg, f));
  }

  lemma CacheReadFlight(cfg: Settings, s: State, f: Flight, health: Health)
    requires Digests(cfg.broker.sha) && CacheSound(cfg.broker, s.cache)
    requires f.phase == GrantSeen && FlightSound(cfg, s.history, f)
    ensures FlightSound(cfg, s.history + [Present(s)], AfterCacheRead(cfg, s, f, health))
  {
    var g := AfterCacheRead(cfg, s, f, health);
    CacheReadTouches(cfg, s, f, health);
    if g.phase == CacheMissed {
      MissFlight(cfg, s.history, Present(s), f, g);
    } else {
      HitIsAlike(cfg, s, f);
      HitFlight(cfg, s.history, Present(s), f, g);
    }
  }

  lemma CacheReadTouches(cfg: Settings, s: State, f: Flight, health: Health)
    ensures var g := AfterCacheRead(cfg, s, f, health);
      && (if g.phase == CacheMissed then g == f.(phase := CacheMissed, cache := g.cache) && g.cache != Hit
          else
            (Reusable(cfg.broker, s.cache, KeyOf(cfg, f), s.now).Some?
              && g == f.(phase := Done, token := Some(Reusable(cfg.broker, s.cache, KeyOf(cfg, f), s.now).value.accessToken), cache := Hit,
                         seen := f.seen.(cacheAt := |s.history|))))
  {
  }

  lemma HitFlight(cfg: Settings, h: seq<Moment>, m: Moment, f: Flight, g: Flight)
    requires FlightSound(cfg, h, f) && f.phase == GrantSeen && g.token.Some?
    requires g == f.(phase := Done, token := g.token, cache := Hit, seen := f.seen.(cacheAt := |h|))
    requires Alike(g.token.value.claims, ClaimsOf(f)) && 1000 * g.token.value.exp - m.now > 1000 * cfg.broker.reuseThresholdSeconds
    ensures FlightSound(cfg, h + [m], g)
  {
    assert ClaimsOf(g) == ClaimsOf(f);
    assert (h + [m])[|h|] == m;
    MovedOn(cfg, h, m, f, g);
  }

  lemma MissFlight(cfg: Settings, h: seq<Moment>, m: Moment, f: Flight, g: Flight)
    requires FlightSound(cfg, h, f) && f.phase == GrantSeen
    requires g == f.(phase := CacheMissed, cache := g.cache) && g.cache != Hit
    ensures FlightSound(cfg, h + [m], g)
  {
    MovedOn(cfg, h, m, f, g);
  }

  /** Past the grant nothing more is checked, and nothing read is forgotten. */
  lemma BackedAlike(cfg: Settings, h: seq<Moment>, f: Flight, g: Flight)
    requires Backed(cfg, h, f) && Rank(f.phase) >= Rank(GrantSeen)
    requires g.claims == f.claims && g.who == f.who && g.code == f.code && g.start == f.start
    requires g.seen == f.seen.(cacheAt := g.seen.cacheAt)
    ensures Backed(cfg, h, g)
  {
  }

  /** Past the grant, a move that keeps the token sound keeps the exchange sound. */
  lemma MovedOn(cfg: Settings, h: seq<Moment>, m: Moment, f: Flight, g: Flight)
    requires FlightSound(cfg, h, f) && Rank(f.phase) >= Rank(GrantSeen)
    requires g.claims == f.claims && g.who == f.who && g.code == f.code && g.start == f.start
    requires g.seen == f.seen.(cacheAt := g.seen.cacheAt)
    requires TokenSound(cfg, g) && HitBacked(cfg, h + [m], g)
    ensures FlightSound(cfg, h + [m], g)
  {
    BackedLater(cfg, h, m, f);
    BackedAlike(cfg, h + [m], f, g);
  }

  /** A token of one's own: its claims are the ones asked for, its lifetime the one read. */
  lemma OwnFlight(cfg: Settings, h: seq<Moment>, m: Moment, f: Flight, g: Flight)
    requires FlightSound(cfg, h, f) && Rank(f.phase) >= Rank(GrantSeen) && Rank(g.phase) >= Rank(Signed) && g.token.Some?
    requires g == f.(phase := g.phase, token := g.token, cache := g.cache) && g.cache != Hit
    requires Alike(ClaimsOf(f), ClaimsOf(f)) && g.token.value.claims == ClaimsOf(f) && g.token.value.iss == cfg.broker.issuer
    requires g.token.value.exp == g.token.value.iat + f.seen.ttl
    ensures FlightSound(cfg, h + [m], g)
  {
    assert ClaimsOf(g) == ClaimsOf(f);
    MovedOn(cfg, h, m, f, g);
  }

  lemma SignedFlight(cfg: Settings, s: State, f: Flight, jti: Text)
    requires f.phase == CacheMissed && FlightSound(cfg, s.history, f)
    ensures FlightSound(cfg, s.history + [Present(s)], SignedBy(cfg, s, f, jti))
  {
    AsksAlike(cfg, f);
    OwnFlight(cfg, s.history, Present(s), f, SignedBy(cfg, s, f, jti));
  }

  lemma AsksAlike(cfg: Settings, f: Flight)
    requires f.claims.externalContext.Some? ==> WellFormed(f.claims.externalContext.value)
    ensures Alike(ClaimsOf(f), ClaimsOf(f)) && ClaimsOf(f).aud == ContextOf(cfg, f).audience
  {
    RequestIsConsistent(cfg.broker, f.seen.target, f.who, f.claims, f.code, f.seen.a);
    AlikeItself(cfg.broker, ContextOf(cfg, f), f.claims.externalContext);
  }

  /** The writes after signing leave the token as it is. */
  lemma WrittenFlight(cfg: Settings, h: seq<Moment>, m: Moment, f: Flight, phase: Phase, cache: CacheOutcome)
    requires FlightSound(cfg, h, f) && (f.phase == Signed || f.phase == Written) && Rank(phase) > Rank(f.phase)
    requires cache == f.cache || cache == BackendError
    ensures FlightSound(cfg, h + [m], f.(phase := phase, cache := cache))
  {
    AsksAlike(cfg, f);
    OwnFlight(cfg, h, m, f, f.(phase := phase, cache := cache));
  }

  ghost predicate Sound(cfg: Settings, s: State) {
    CacheSound(cfg.broker, s.cache) && FlightsSound(cfg, s) && ReturnsSound(cfg, s)
  }

  lemma NewFlightSound(cfg: Settings, s: State, p: nat, claims: RequesterClaims, code: Text)
    requires Enabled(cfg, s, Begin(p, claims, code))
    ensures FlightSound(cfg, s.history + [Present(s)], Moved(cfg, s, Begin(p, claims, code)).value)
  {
  }

  lemma WriteMoved(cfg: Settings, s: State, a: Action)
    requires Enabled(cfg, s, a) && a.WriteCache? && FlightSound(cfg, s.history, s.flights[a.p])
    ensures Moved(cfg, s, a).Some? && FlightSound(cfg, s.history + [Present(s)], Moved(cfg, s, a).value)
  {
    WrittenFlight(cfg, s.history, Present(s), s.flights[a.p], Written, if a.reachable then s.flights[a.p].cache else BackendError);
  }

  lemma RecordMoved(cfg: Settings, s: State, a: Action)
    requires Enabled(cfg, s, a) && a.Record? && FlightSound(cfg, s.history, s.flights[a.p])
    ensures Moved(cfg, s, a).Some? && FlightSound(cfg, s.history + [Present(s)], Moved(cfg, s, a).value)
  {
    WrittenFlight(cfg, s.history, Present(s), s.flights[a.p], Done, s.flights[a.p].cache);
    assert s.flights[a.p].(phase := Done, cache := s.flights[a.p].cache) == s.flights[a.p].(phase := Done);
  }

  lemma CacheReadMoved(cfg: Settings, s: State, a: Action)
    requires Digests(cfg.broker.sha) && CacheSound(cfg.broker, s.cache) && Enabled(cfg, s, a) && a.ReadCache?
    requires FlightSound(cfg, s.history, s.flights[a.p])
    ensures Moved(cfg, s, a).Some? && FlightSound(cfg, s.history + [Present(s)], Moved(cfg, s, a).value)
  {
    CacheReadFlight(cfg, s, s.flights[a.p], a.health);
  }

  lemma SignMoved(cfg: Settings, s: State, a: Action)
    requires Enabled(cfg, s, a) && a.SignToken? && FlightSound(cfg, s.history, s.flights[a.p])
    ensures Moved(cfg, s, a).Some? && FlightSound(cfg, s.history + [Present(s)], Moved(cfg, s, a).value)
  {
    SignedFlight(cfg, s, s.flights[a.p], a.jti);
  }

  lemma MovedFlightSound(cfg: Settings, s: State, a: Action)
    requires Digests(cfg.broker.sha) && CacheSound(cfg.broker, s.cache) && Enabled(cfg, s, a) && OfExchange(a) && !IsRead(a)
    requires Moved(cfg, s, a).Some? && !a.Begin? && FlightSound(cfg, s.history, s.flights[a.p])
    ensures FlightSound(cfg, s.history + [Present(s)], Moved(cfg, s, a).value)
  {
    if a.ReadCache? { CacheReadMoved(cfg, s, a); }
    else if a.SignToken? { SignMoved(cfg, s, a); }
    else if a.WriteCache? { WriteMoved(cfg, s, a); }
    else { RecordMoved(cfg, s, a); }
  }

  lemma FlightSoundAfter(cfg: Settings, s: State, a: Action, p: nat)
    requires Digests(cfg.broker.sha) && CacheSound(cfg.broker, s.cache) && FlightsSound(cfg, s) && Enabled(cfg, s, a)
    requires p in FlightsAfter(cfg, s, a)
    ensures FlightSound(cfg, s.history + [Present(s)], FlightsAfter(cfg, s, a)[p])
  {
    if !OfExchange(a) || a.p != p {
      FlightLater(cfg, s.history, Present(s), s.flights[p]);
    } else if a.Begin? {
      NewFlightSound(cfg, s, p, a.claims, a.code);
    } else if IsRead(a) {
      ReadFlight(cfg, s.history, Present(s), s.flights[p], a);
    } else {
      MovedFlightSound(cfg, s, a);
    }
  }

  lemma FlightsStep(cfg: Settings, s: State, a: Action)
    requires Digests(cfg.broker.sha) && Sound(cfg, s) && Enabled(cfg, s, a)
    ensures FlightsSound(cfg, Apply(cfg, s, a))
  {
    forall p | p in FlightsAfter(cfg, s, a) ensures FlightSound(cfg, s.history + [Present(s)], FlightsAfter(cfg, s, a)[p]) {
      FlightSoundAfter(cfg, s, a, p);
    }
  }

  lemma ReturnLater(cfg: Settings, h: seq<Moment>, m: Moment, r: Returned)
    requires ReturnSound(cfg, h, r)
    ensures ReturnSound(cfg, h + [m], r)
  {
  }

  lemma ReturnsStep(cfg: Settings, s: State, a: Action)
    requires Sound(cfg, s) && Enabled(cfg, s, a)
    ensures ReturnsSound(cfg, Apply(cfg, s, a))
  {
    var s' := Apply(cfg, s, a);
    forall r | r in s'.returned ensures ReturnSound(cfg, s'.history, r) {
      if r in s.returned {
        ReturnLater(cfg, s.history, Present(s), r);
      } else {
        NewReturn(cfg, s, a, r);
      }
    }
  }

  lemma NewReturn(cfg: Settings, s: State, a: Action, r: Returned)
    requires FlightsSound(cfg, s) && Enabled(cfg, s, a) && r in Apply(cfg, s, a).returned && r !in s.returned
    ensures ReturnSound(cfg, s.history + [Present(s)], r)
  {
    assert a.Return?;
    assert FlightSound(cfg, s.history, s.flights[a.p]);
    assert (s.history + [Present(s)])[..|s.history|] == s.history;
  }

  lemma WriteKeepsCache(cfg: Settings, s: State, f: Flight)
    requires CacheSound(cfg.broker, s.cache) && f.phase == Signed && TokenSound(cfg, f)
    requires f.claims.externalContext.Some? ==> WellFormed(f.claims.externalContext.value)
    ensures CacheSound(cfg.broker, Broker.Written(s.cache, KeyOf(cfg, f), f.token.value, s.now))
  {
    RequestIsConsistent(cfg.broker, f.seen.target, f.who, f.claims, f.code, f.seen.a);
    WritingKeepsSound(cfg.broker, s.cache, ContextOf(cfg, f), f.token.value, s.now);
  }

  lemma CacheStep(cfg: Settings, s: State, a: Action)
    requires CacheSound(cfg.broker, s.cache) && FlightsSound(cfg, s) && Enabled(cfg, s, a)
    ensures CacheSound(cfg.broker, CacheAfter(cfg, s, a))
  {
    if a.Evict? {
      CacheOnlyInDocuments(cfg.broker, s.cache, s.cache - {a.key});
    } else if a.ReadCache? {
      CleaningKeepsSound(cfg.broker, s.cache, KeyOf(cfg, s.flights[a.p]), s.now, a.health);
    } else if a.WriteCache? {
      assert FlightSound(cfg, s.history, s.flights[a.p]);
      WriteKeepsCache(cfg, s, s.flights[a.p]);
    }
  }

  lemma SoundStep(cfg: Settings, s: State, a: Action)
    requires Digests(cfg.broker.sha) && Sound(cfg, s) && Enabled(cfg, s, a)
    ensures Sound(cfg, Apply(cfg, s, a))
  {
    FlightsStep(cfg, s, a);
    ReturnsStep(cfg, s, a);
    CacheStep(cfg, s, a);
  }

  lemma {:induction false} RunsAreSound(cfg: Settings, s: State, acts: seq<Action>)
    requires Digests(cfg.broker.sha) && Sound(cfg, s) && Run(cfg, s, acts).Some?
    ensures Sound(cfg, Run(cfg, s, acts).value)
    decreases |acts|
  {
    if acts != [] {
      SoundStep(cfg, s, acts[0]);
      RunsAreSound(cfg, Apply(cfg, s, acts[0]), acts[1..]);
    }
  }

  lemma InitialSound(cfg: Settings, s: State)
    requires Initial(cfg, s)
    ensures Sound(cfg, s)
  {
  }

  // ---------- main results: authorization, transparency, lifetime ----------

  lemma ReturnedSoundly(cfg: Settings, s: State, acts: seq<Action>, r: Returned)
    requires Digests(cfg.broker.sha) && Initial(cfg, s) && Run(cfg, s, acts).Some? && r in Run(cfg, s, acts).value.returned
    ensures ReturnSound(cfg, Run(cfg, s, acts).value.history, r)
  {
    InitialSound(cfg, s);
    RunsAreSound(cfg, s, acts);
  }

  /** Every check held at a step between the exchange's start and its return. */
  ghost predicate AuthorisedThroughout(cfg: Settings, h: seq<Moment>, r: Returned) {
    && r.at < |h|
    && var during, f := h[..r.at], r.flight;
       TargetBacked(during, f) && PrincipalBacked(during, f) && RuntimeBacked(during, f) && CredentialBacked(during, f)
       && ConnectionBacked(cfg, during, f) && GrantBacked(during, f)
  }

  lemma SoundIsAuthorised(cfg: Settings, h: seq<Moment>, r: Returned)
    requires ReturnSound(cfg, h, r)
    ensures AuthorisedThroughout(cfg, h, r)
  {
  }

  /**
   Fresh authorization, hit or miss: each of target, principal, runtime, credential or secret, connection with
   its context policy, and grant passed its check at a step between the exchange's start and its return.
   */
  lemma ReturnsAreAuthorised(cfg: Settings, s: State, acts: seq<Action>, r: Returned)
    requires Digests(cfg.broker.sha) && Initial(cfg, s) && Run(cfg, s, acts).Some? && r in Run(cfg, s, acts).value.returned
    ensures AuthorisedThroughout(cfg, Run(cfg, s, acts).value.history, r)
  {
    ReturnedSoundly(cfg, s, acts, r);
    SoundIsAuthorised(cfg, Run(cfg, s, acts).value.history, r);
  }

  lemma ReturnedToken(cfg: Settings, h: seq<Moment>, r: Returned)
    requires ReturnSound(cfg, h, r)
    ensures r.flight.token == Some(r.token) && OwnToken(cfg, r.flight)
  {
  }

  lemma SoundIsAlike(cfg: Settings, h: seq<Moment>, r: Returned)
    requires ReturnSound(cfg, h, r)
    ensures Alike(r.token.claims, ClaimsOf(r.flight))
  {
    ReturnedToken(cfg, h, r);
  }

  /** Cache transparency over all runs: a returned token carries the claims its own exchange would have signed. */
  lemma ReturnsAreTransparent(cfg: Settings, s: State, acts: seq<Action>, r: Returned)
    requires Digests(cfg.broker.sha) && Initial(cfg, s) && Run(cfg, s, acts).Some? && r in Run(cfg, s, acts).value.returned
    ensures Alike(r.token.claims, ClaimsOf(r.flight))
  {
    ReturnedSoundly(cfg, s, acts, r);
    SoundIsAlike(cfg, Run(cfg, s, acts).value.history, r);
  }

  /** A signed token has the lifetime its connection allows; a cached one had more than the threshold left when read. */
  ghost predicate LivesLongEnough(cfg: Settings, h: seq<Moment>, r: Returned) {
    if r.flight.cache == Hit then
      r.flight.start <= r.flight.seen.cacheAt < r.at < |h|
      && 1000 * r.token.exp - h[r.flight.seen.cacheAt].now > 1000 * cfg.broker.reuseThresholdSeconds
    else r.token.exp == r.token.iat + r.flight.seen.ttl && r.flight.seen.ttl <= cfg.targetTokenTtlSeconds
  }

  lemma SoundLives(cfg: Settings, h: seq<Moment>, r: Returned)
    requires ReturnSound(cfg, h, r)
    ensures LivesLongEnough(cfg, h, r)
  {
  }

  lemma ReturnsLiveLongEnough(cfg: Settings, s: State, acts: seq<Action>, r: Returned)
    requires Digests(cfg.broker.sha) && Initial(cfg, s) && Run(cfg, s, acts).Some? && r in Run(cfg, s, acts).value.returned
    ensures LivesLongEnough(cfg, Run(cfg, s, acts).value.history, r)
  {
    ReturnedSoundly(cfg, s, acts, r);
    SoundLives(cfg, Run(cfg, s, acts).value.history, r);
  }

  // ---------- what is gone stays gone ----------

  lemma EvolvesOn(a: Rows, b: Rows, c: Rows)
    requires Evolves(a, b) && Evolves(b, c)
    ensures Evolves(a, c)
  {
  }

  lemma EvolvesStep(cfg: Settings, s: State, a: Action)
    requires UniqueIds(s.rows) && Enabled(cfg, s, a)
    ensures Evolves(s.rows, Apply(cfg, s, a).rows)
  {
  }

  /** The rows of every later step have only evolved. */
  lemma {:induction false} LaterRowsEvolve(cfg: Settings, s: State, acts: seq<Action>, k: nat)
    requires UniqueIds(s.rows) && Run(cfg, s, acts).Some? && |s.history| <= k < |Run(cfg, s, acts).value.history|
    ensures Evolves(s.rows, Run(cfg, s, acts).value.history[k].rows)
    decreases |acts|
  {
    if acts != [] {
      var s' := Apply(cfg, s, acts[0]);
      EvolvesStep(cfg, s, acts[0]);
      HistoryKept(cfg, s', acts[1..]);
      if k == |s.history| {
        assert s'.history[k].rows == s.rows;
      } else {
        LaterRowsEvolve(cfg, s', acts[1..], k);
        EvolvesOn(s.rows, s'.rows, Run(cfg, s, acts).value.history[k].rows);
      }
    }
  }

  lemma {:induction false} HistoryKept(cfg: Settings, s: State, acts: seq<Action>)
    requires Run(cfg, s, acts).Some?
    ensures s.history <= Run(cfg, s, acts).value.history
    decreases |acts|
  {
    if acts != [] { HistoryKept(cfg, Apply(cfg, s, acts[0]), acts[1..]); }
  }

  /** The exchange's agent or application is deleted. */
  ghost predicate PrincipalGone(rows: Rows, f: Flight) {
    match f.who
    case AgentRequester(id) => AgentGone(rows, id)
    case ApplicationRequester(id) => ClientGone(rows.clients, id)
  }

  /** The credential or secret its assertion names is revoked or rotated away. */
  ghost predicate NamedCredentialGone(rows: Rows, f: Flight) {
    match f.who
    case AgentRequester(_) => f.claims.credentialId.Some? && CredentialGone(rows, f.claims.credentialId.value)
    case ApplicationRequester(id) =>
      f.claims.secretId.Some? && f.claims.secretId.value != [] && SecretGone(rows.clients, id, f.claims.secretId.value)
  }

  lemma GonePrincipalFails(before: Rows, after: Rows, f: Flight)
    requires Evolves(before, after) && PrincipalGone(before, f)
    ensures !PrincipalActive(after, f.who, f.seen.a.principalDbId)
  {
  }

  lemma GoneCredentialFails(before: Rows, after: Rows, f: Flight, now: int)
    requires Evolves(before, after) && NamedCredentialGone(before, f)
    ensures !CredentialOk(after, f.who, f.claims, f.seen.a.principalDbId, f.seen.a.runtime, f.seen.a.credentialId, now)
  {
  }

  /** The steps of the two checks lie at or after the exchange's start. */
  lemma ChecksAfterStart(cfg: Settings, h: seq<Moment>, r: Returned)
    requires ReturnSound(cfg, h, r)
    ensures var f := r.flight;
      && f.start <= f.seen.principalAt < |h| && PrincipalActive(h[f.seen.principalAt].rows, f.who, f.seen.a.principalDbId)
      && f.start <= f.seen.credentialAt < |h|
      && CredentialOk(h[f.seen.credentialAt].rows, f.who, f.claims, f.seen.a.principalDbId, f.seen.a.runtime, f.seen.a.credentialId,
                      h[f.seen.credentialAt].now)
  {
  }

  /**
   Once an agent or an application is deleted, or the credential or secret an assertion names is revoked or
   rotated away, no exchange started later returns a token, whatever the cache still holds.
   */
  lemma GoneNeverReturns(cfg: Settings, s0: State, before: seq<Action>, s: State, after: seq<Action>, r: Returned)
    requires Digests(cfg.broker.sha) && Initial(cfg, s0) && Run(cfg, s0, before) == Some(s)
    requires Run(cfg, s, after).Some? && r in Run(cfg, s, after).value.returned
    requires PrincipalGone(s.rows, r.flight) || NamedCredentialGone(s.rows, r.flight)
    ensures r.flight.start < |s.history|
  {
    InitialSound(cfg, s0);
    RunsAreSound(cfg, s0, before);
    RunsAreSound(cfg, s, after);
    RowsUnique(cfg, s0, before);
    GoneBeforeStart(cfg, s, after, r);
  }

  lemma GoneBeforeStart(cfg: Settings, s: State, after: seq<Action>, r: Returned)
    requires UniqueIds(s.rows) && Run(cfg, s, after).Some? && ReturnSound(cfg, Run(cfg, s, after).value.history, r)
    requires PrincipalGone(s.rows, r.flight) || NamedCredentialGone(s.rows, r.flight)
    ensures r.flight.start < |s.history|
  {
    var h, f := Run(cfg, s, after).value.history, r.flight;
    ChecksAfterStart(cfg, h, r);
    if f.start >= |s.history| {
      LaterRowsEvolve(cfg, s, after, f.seen.principalAt);
      LaterRowsEvolve(cfg, s, after, f.seen.credentialAt);
      if PrincipalGone(s.rows, f) {
        GonePrincipalFails(s.rows, h[f.seen.principalAt].rows, f);
      } else {
        GoneCredentialFails(s.rows, h[f.seen.credentialAt].rows, f, h[f.seen.credentialAt].now);
      }
    }
  }

  lemma {:induction false} RowsUnique(cfg: Settings, s: State, acts: seq<Action>)
    requires UniqueIds(s.rows) && Run(cfg, s, acts).Some?
    ensures UniqueIds(Run(cfg, s, acts).value.rows)
    decreases |acts|
  {
    if acts != [] {
      EvolvesStep(cfg, s, acts[0]);
      RowsUnique(cfg, Apply(cfg, s, acts[0]), acts[1..]);
    }
  }

  // ---------- records ----------

  /** An exchange that has signed and not yet recorded. */
  predicate Unrecorded(f: Flight) { f.phase == Signed || f.phase == Written }

  /** The token ids of the exchanges between their signing and their record. */
  function Pending(s: State): (r: set<Text>)
    ensures forall j :: j in r <==> exists p :: p in s.flights && Unrecorded(s.flights[p]) && JtiOf(s.flights[p]) == j
  {
    set p | p in s.flights && Unrecorded(s.flights[p]) :: JtiOf(s.flights[p])
  }

  predicate SamePending(f: Flight, g: Flight) { Unrecorded(f) && Unrecorded(g) && JtiOf(f) == JtiOf(g) }

  ghost predicate PendingOnce(s: State) {
    forall p, q :: p in s.flights && q in s.flights && SamePending(s.flights[p], s.flights[q]) ==> p == q
  }

  ghost predicate OpenId(s: State, f: Flight) {
    f.token.Some? && JtiOf(f) in s.signed && JtiOf(f) !in s.records && JtiOf(f) !in s.lost
  }

  ghost predicate PendingOpen(s: State) {
    forall p :: p in s.flights && Unrecorded(s.flights[p]) ==> OpenId(s, s.flights[p])
  }

  /** A finished exchange that signed has its record. */
  ghost predicate DoneRecorded(s: State) {
    && (forall p :: p in s.flights && s.flights[p].phase == Done && s.flights[p].cache != Hit ==> JtiOf(s.flights[p]) in s.records)
    && (forall r :: r in s.returned && r.flight.cache != Hit ==> r.token.jti in s.records)
  }

  ghost predicate Closed(s: State) {
    && s.records <= s.signed && s.lost <= s.signed && s.records !! s.lost
    && (forall j :: j in s.signed ==> j in s.records || j in s.lost || j in Pending(s))
  }

  ghost predicate Accounted(s: State) { PendingOnce(s) && PendingOpen(s) && DoneRecorded(s) && Closed(s) }

  /** What a step makes of the part of an exchange that accounting looks at. */
  predicate Progress(s: State, a: Action, f: Flight, g: Flight) {
    || Rank(g.phase) < Rank(Signed)
    || (a.ReadCache? && g.phase == Done && g.cache == Hit)
    || (a.SignToken? && g.phase == Signed && g.token.Some? && JtiOf(g) == a.jti)
    || (a.WriteCache? && f.phase == Signed && g.phase == Written && g.token == f.token)
    || (a.Record? && f.phase == Written && g.phase == Done && g.token == f.token)
  }

  lemma AfterStep(cfg: Settings, s: State, a: Action, p: nat)
    requires Enabled(cfg, s, a) && p in FlightsAfter(cfg, s, a)
    ensures var g := FlightsAfter(cfg, s, a)[p];
      (p in s.flights && g == s.flights[p] && (OfExchange(a) ==> a.p != p))
      || (OfExchange(a) && a.p == p && (a.Begin? || p in s.flights) && Progress(s, a, if p in s.flights then s.flights[p] else g, g))
  {
    if OfExchange(a) && IsRead(a) && a.p == p { ReadTouches(cfg, Present(s), |s.history|, s.flights[p], a); }
  }

  /** Another exchange's record has another id. */
  lemma UnmovedOpen(cfg: Settings, s: State, a: Action, p: nat)
    requires PendingOnce(s) && Enabled(cfg, s, a) && p in s.flights && Unrecorded(s.flights[p]) && OpenId(s, s.flights[p])
    requires OfExchange(a) ==> a.p != p
    ensures OpenId(Apply(cfg, s, a), s.flights[p])
  {
    if a.Record? || a.LoseRecord? { assert !SamePending(s.flights[a.p], s.flights[p]); }
  }

  lemma MovedOpen(cfg: Settings, s: State, a: Action, g: Flight)
    requires PendingOpen(s) && Closed(s) && Enabled(cfg, s, a) && (a.SignToken? || a.WriteCache?)
    requires Progress(s, a, s.flights[a.p], g) && Unrecorded(g)
    ensures OpenId(Apply(cfg, s, a), g)
  {
  }

  lemma PendingOpenAt(cfg: Settings, s: State, a: Action, p: nat)
    requires Accounted(s) && Enabled(cfg, s, a)
    requires p in FlightsAfter(cfg, s, a) && Unrecorded(FlightsAfter(cfg, s, a)[p])
    ensures OpenId(Apply(cfg, s, a), FlightsAfter(cfg, s, a)[p])
  {
    AfterStep(cfg, s, a, p);
    if OfExchange(a) && a.p == p {
      MovedOpen(cfg, s, a, FlightsAfter(cfg, s, a)[p]);
    } else {
      UnmovedOpen(cfg, s, a, p);
    }
  }

  lemma PendingOnceAt(cfg: Settings, s: State, a: Action, p: nat, q: nat)
    requires PendingOnce(s) && PendingOpen(s) && Enabled(cfg, s, a)
    requires p in FlightsAfter(cfg, s, a) && q in FlightsAfter(cfg, s, a)
    requires SamePending(FlightsAfter(cfg, s, a)[p], FlightsAfter(cfg, s, a)[q])
    ensures p == q
  {
    AfterStep(cfg, s, a, p);
    AfterStep(cfg, s, a, q);
    if p in s.flights && q in s.flights && !a.SignToken? { assert SamePending(s.flights[p], s.flights[q]); }
  }

  lemma PendingStep(cfg: Settings, s: State, a: Action)
    requires Accounted(s) && Enabled(cfg, s, a)
    ensures PendingOnce(Apply(cfg, s, a)) && PendingOpen(Apply(cfg, s, a))
  {
    var flights := FlightsAfter(cfg, s, a);
    forall p, q | p in flights && q in flights && SamePending(flights[p], flights[q]) ensures p == q {
      PendingOnceAt(cfg, s, a, p, q);
    }
    forall p | p in flights && Unrecorded(flights[p]) ensures OpenId(Apply(cfg, s, a), flights[p]) {
      PendingOpenAt(cfg, s, a, p);
    }
  }

  lemma DoneStep(cfg: Settings, s: State, a: Action)
    requires Accounted(s) && Enabled(cfg, s, a)
    ensures DoneRecorded(Apply(cfg, s, a))
  {
    var flights := FlightsAfter(cfg, s, a);
    forall p | p in flights && flights[p].phase == Done && flights[p].cache != Hit ensures JtiOf(flights[p]) in Apply(cfg, s, a).records {
      AfterStep(cfg, s, a, p);
    }
  }

  lemma ClosedStep(cfg: Settings, s: State, a: Action)
    requires Accounted(s) && Enabled(cfg, s, a)
    ensures Closed(Apply(cfg, s, a))
  {
    var s' := Apply(cfg, s, a);
    forall j | j in s'.signed ensures j in s'.records || j in s'.lost || j in Pending(s') {
      if a.SignToken? && j == a.jti {
        assert Unrecorded(s'.flights[a.p]) && JtiOf(s'.flights[a.p]) == j;
      } else if j in Pending(s) {
        StillPending(cfg, s, a, j);
      }
    }
  }

  /** A pending exchange ends only by its record, written or lost. */
  lemma PendingGoesOn(cfg: Settings, s: State, a: Action, p: nat)
    requires Enabled(cfg, s, a) && p in s.flights && Unrecorded(s.flights[p])
    ensures (p in FlightsAfter(cfg, s, a) && Unrecorded(FlightsAfter(cfg, s, a)[p]) && JtiOf(FlightsAfter(cfg, s, a)[p]) == JtiOf(s.flights[p]))
         || ((a.Record? || a.LoseRecord?) && a.p == p)
  {
  }

  lemma StillPending(cfg: Settings, s: State, a: Action, j: Text)
    requires PendingOpen(s) && Enabled(cfg, s, a) && j in Pending(s)
    ensures var s' := Apply(cfg, s, a); j in s'.records || j in s'.lost || j in Pending(s')
  {
    var p :| p in s.flights && Unrecorded(s.flights[p]) && JtiOf(s.flights[p]) == j;
    PendingGoesOn(cfg, s, a, p);
  }

  lemma {:induction false} RunsAreAccounted(cfg: Settings, s: State, acts: seq<Action>)
    requires Accounted(s) && Run(cfg, s, acts).Some?
    ensures Accounted(Run(cfg, s, acts).value)
    decreases |acts|
  {
    if acts != [] {
      PendingStep(cfg, s, acts[0]);
      DoneStep(cfg, s, acts[0]);
      ClosedStep(cfg, s, acts[0]);
      RunsAreAccounted(cfg, Apply(cfg, s, acts[0]), acts[1..]);
    }
  }

  /**
   Conservation of records: over every run each signing is recorded once, lost to one failed write, or still
   pending, and exactly one of these; an exchange that signed and returned has its record.
   */
  lemma SigningsAreRecorded(cfg: Settings, s: State, acts: seq<Action>)
    requires Initial(cfg, s) && Run(cfg, s, acts).Some?
    ensures var s' := Run(cfg, s, acts).value;
      && s'.signed == s'.records + s'.lost + Pending(s')
      && |s'.signed| == |s'.records| + |s'.lost| + |Pending(s')|
      && (s'.flights == map[] && s'.lost == {} ==> s'.records == s'.signed)
      && (forall r :: r in s'.returned && r.flight.cache != Hit ==> r.token.jti in s'.records)
  {
    RunsAreAccounted(cfg, s, acts);
    PartsAddUp(Run(cfg, s, acts).value);
  }

  lemma PartsAddUp(s: State)
    requires Accounted(s)
    ensures s.signed == s.records + s.lost + Pending(s)
    ensures |s.signed| == |s.records| + |s.lost| + |Pending(s)|
    ensures s.flights == map[] && s.lost == {} ==> s.records == s.signed
  {
    assert s.records + s.lost + Pending(s) == s.signed;
    assert |s.records + s.lost| == |s.records| + |s.lost|;
    assert (s.records + s.lost) !! Pending(s);
    assert s.flights == map[] ==> Pending(s) == {};
  }

  /** A warm cache answers an authorised exchange: nothing is signed or recorded, and it is done. */
  lemma HitSignsNothing(cfg: Settings, s: State, p: nat, health: Health)
    requires InPhase(s, p, GrantSeen) && health.read && Reusable(cfg.broker, s.cache, KeyOf(cfg, s.flights[p]), s.now).Some?
    ensures var s' := Apply(cfg, s, ReadCache(p, health));
      && s'.signed == s.signed && s'.records == s.records && s'.cache == s.cache && InPhase(s', p, Done)
      && s'.flights[p].token == Some(Reusable(cfg.broker, s.cache, KeyOf(cfg, s.flights[p]), s.now).value.accessToken)
  {
    assert Apply(cfg, s, ReadCache(p, health)).flights[p] == AfterCacheRead(cfg, s, s.flights[p], health);
  }
}
