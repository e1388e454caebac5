/**
 The broker of target tokens: a Redis cache of signed tokens, keyed by a digest of everything the token was
 authorised by, in front of the signer. SHA-256 in base64url is an injective function with no empty value, and
 encryption of the cached text is the identity.
 */
module Broker {
  import opened Wrappers
  import opened Text
  import opened Json
  import opened JsonCanonical
  import opened Redis

  const TARGET_ACCESS := "target_access"
  const BEARER := "Bearer"
  const ACCESS_TOKEN_TYPE := "urn:ietf:params:oauth:token-type:access_token"

  datatype Kind = AgentKind | ApplicationKind

  datatype Context = Context(kind: Kind, principalId: Text, audience: Text, connectionId: Text, credentialId: Option<Text>,
                             grantId: Text, runtimeId: Option<Text>, targetId: Text, targetResource: Text,
                             externalContextDigest: Option<Text>)

  datatype Claims = Claims(sub: Text, aud: Text, agentId: Option<Text>, appId: Option<Text>, targetResource: Text,
                           tokenUse: string, delegationType: Option<string>, externalContext: Option<Json>)

  datatype Token = Token(iss: Text, claims: Claims, iat: int, exp: int, jti: Text)

  datatype CachedTargetToken = CachedTargetToken(accessToken: Token, expiresAt: int, issuedTokenType: string, jti: Text,
                                                 tokenType: string, version: int)

  /** What a cache entry decrypts and parses to; anything without the six fields in their types is unreadable. */
  datatype CacheDoc = Readable(value: CachedTargetToken) | Unreadable

  datatype CacheOutcome = Hit | Miss | BackendError

  datatype BrokerResult = BrokerResult(accessToken: Token, cache: CacheOutcome, expiresAt: int, expiresIn: int,
                                       issuedTokenType: string, jti: Text, tokenType: string)

  /** The digest, the comparator of the canonical printer, and the settings. */
  datatype Config = Config(sha: Text -> Text, le: Order, tenantId: Text, issuer: Text, reuseThresholdSeconds: nat)

  ghost predicate Digests(sha: Text -> Text) {
    (forall a, b :: sha(a) == sha(b) ==> a == b) && forall a :: sha(a) != []
  }

  // ---------- the cache key ----------

  const CONTEXT_KEYS := ["audience", "connectionId", "credentialId", "externalContextDigest", "grantId", "principalId",
                         "principalType", "runtimeId", "targetId", "targetResource", "tenantId"]

  function KindText(kind: Kind): Text {
    match kind
    case AgentKind => Literal("agent")
    case ApplicationKind => Literal("application")
  }

  function OrEmpty(t: Option<Text>): Text { if t.Some? then t.value else [] }

  function ContextValues(tenantId: Text, ctx: Context): seq<Text> {
    [ctx.audience, ctx.connectionId, OrEmpty(ctx.credentialId), OrEmpty(ctx.externalContextDigest), ctx.grantId, ctx.principalId,
     KindText(ctx.kind), OrEmpty(ctx.runtimeId), ctx.targetId, ctx.targetResource, tenantId]
  }

  /** The object literal with these property names and string values. */
  function StringObject(names: seq<string>, values: seq<Text>): Json
    requires |names| == |values|
  {
    Obj(seq(|names|, i requires 0 <= i < |names| => Member(Literal(names[i]), Str(values[i]))))
  }

  function StableContext(tenantId: Text, ctx: Context): Json {
    StringObject(CONTEXT_KEYS, ContextValues(tenantId, ctx))
  }

  function CacheKey(cfg: Config, ctx: Context): Key {
    TargetTokenKey(cfg.tenantId, cfg.sha(Serialize(cfg.le, StableContext(cfg.tenantId, ctx))))
  }

  function DigestJson(cfg: Config, v: Json): Text {
    cfg.sha(Serialize(cfg.le, v))
  }

  // ---------- reading and signing ----------

  function ParseCachedToken(doc: CacheDoc): Option<CachedTargetToken> {
    if doc.Readable? && doc.value.version == 1 && doc.value.tokenType == BEARER then Some(doc.value) else None
  }

  /** The entry a request may be answered with: readable, and valid for longer than the threshold. */
  function Reusable(cfg: Config, store: Store<CacheDoc>, key: Key, now: int): Option<CachedTargetToken> {
    match Read(store, key, now)
    case Some(Document(doc)) =>
      var parsed := ParseCachedToken(doc);
      if parsed.Some? && parsed.value.expiresAt - now > cfg.reuseThresholdSeconds * 1000 then parsed else None
    case _ => None
  }

  function SecondsUntil(timestampMs: int, now: int): int { Max(0, (timestampMs - now) / 1000) }

  /** The signer takes the audience it is given over the one among the claims. */
  function Sign(cfg: Config, claims: Claims, audience: Text, ttlSeconds: int, now: int, jti: Text): Token {
    Token(cfg.issuer, claims.(aud := audience), now / 1000, now / 1000 + ttlSeconds, jti)
  }

  function CacheEntry(token: Token): CachedTargetToken {
    CachedTargetToken(token, 1000 * token.exp, ACCESS_TOKEN_TYPE, token.jti, BEARER, 1)
  }

  /** The store after the entry for a token is written. */
  function Written(store: Store<CacheDoc>, key: Key, token: Token, now: int): Store<CacheDoc> {
    SetEx(store, key, Document(Readable(CacheEntry(token))), Max(1, SecondsUntil(1000 * token.exp, now)), now)
  }

  // ---------- what the cache means ----------

  function AgentPrefix(): Text { Literal("agent:") }

  function AppPrefix(): Text { Literal("app:") }

  /** The claims both exchange paths sign for a context. */
  function ClaimsFor(ctx: Context, externalContext: Option<Json>): Claims {
    match ctx.kind
    case AgentKind =>
      Claims(AgentPrefix() + ctx.principalId, ctx.audience, Some(ctx.principalId), None, ctx.targetResource, TARGET_ACCESS,
             Some("agent_as_self"), externalContext)
    case ApplicationKind =>
      Claims(AppPrefix() + ctx.principalId, ctx.audience, None, Some(ctx.principalId), ctx.targetResource, TARGET_ACCESS,
             None, externalContext)
  }

  /** The context carries the digest of this external context. */
  ghost predicate DigestOf(cfg: Config, ctx: Context, externalContext: Option<Json>) {
    match externalContext
    case None => ctx.externalContextDigest.None?
    case Some(v) => WellFormed(v) && ctx.externalContextDigest == Some(DigestJson(cfg, v))
  }

  /** The claims handed to the broker are those of the context. */
  ghost predicate Consistent(cfg: Config, ctx: Context, claims: Claims) {
    DigestOf(cfg, ctx, claims.externalContext) && claims == ClaimsFor(ctx, claims.externalContext)
  }

  ghost predicate AlikeContext(a: Option<Json>, b: Option<Json>) {
    (a.None? && b.None?) || (a.Some? && b.Some? && Same(a.value, b.value))
  }

  /** Equal claims, the external context as a JSON value. */
  ghost predicate Alike(c: Claims, d: Claims) {
    c.(externalContext := None) == d.(externalContext := None) && AlikeContext(c.externalContext, d.externalContext)
  }

  /** A token a request with a context of this key was given, and so a cacheless issuer would have signed for it. */
  ghost predicate MadeFor(cfg: Config, key: Key, token: Token) {
    exists ctx :: CacheKey(cfg, ctx) == key && Consistent(cfg, ctx, token.claims)
  }

  ghost predicate EntrySound(cfg: Config, store: Store<CacheDoc>, key: Key) {
    key in store && store[key].value.Document? && ParseCachedToken(store[key].value.doc).Some? ==>
      var entry := store[key].value.doc.value;
      entry == CacheEntry(entry.accessToken) && entry.accessToken.iss == cfg.issuer && MadeFor(cfg, key, entry.accessToken)
  }

  ghost predicate CacheSound(cfg: Config, store: Store<CacheDoc>) {
    forall key :: key in store ==> EntrySound(cfg, store, key)
  }

  /** What a broker call made of the store. */
  function StoreAfter(cfg: Config, store: Store<CacheDoc>, key: Key, now: int, health: Health): Store<CacheDoc> {
    if health.read && Live(store, key, now) && Reusable(cfg, store, key, now).None? && health.delete then store - {key} else store
  }

  /** Which commands the Redis server answers during one exchange: limiter, replay guard, and the cache's three. */
  datatype Health = Health(limit: bool, guard: bool, read: bool, delete: bool, write: bool)

  class TargetTokenBrokerService {
    const cfg: Config
    const redis: RedisService<CacheDoc>

    constructor (cfg: Config, redis: RedisService<CacheDoc>)
      ensures this.cfg == cfg && this.redis == redis
    {
      this.cfg, this.redis := cfg, redis;
    }

    /** Answers a reusable entry; deletes an unreadable or nearly expired one. Err is an unreachable server. */
    method ReadReusable(key: Key, now: int, health: Health) returns (r: Result<Option<CachedTargetToken>, ()>)
      requires redis.connected
      modifies redis`store
      ensures r == if health.read then Ok(Reusable(cfg, old(redis.store), key, now)) else Err(())
      ensures redis.store == StoreAfter(cfg, old(redis.store), key, now, health)
    {
      var raw := redis.Get(key, now, health.read);
      if raw.Err? { return Err(()); }
      if raw.value.None? { return Ok(None); }
      var value := raw.value.value;
      if !value.Document? || ParseCachedToken(value.doc).None? || value.doc.value.expiresAt - now <= cfg.reuseThresholdSeconds * 1000 {
        var _ := redis.Delete(key, health.delete);
        return Ok(None);
      }
      return Ok(Some(value.doc.value));
    }

    /**
     A hit answers the stored token and signs nothing; otherwise a new token is signed and written. Err is a
     signer without an active key. Whatever the cache does, the token carries the claims asked for.
     */
    method GetOrIssue(context: Context, claims: Claims, ttlSeconds: nat, now: int, jti: Text, signerReady: bool, health: Health)
      returns (r: Result<BrokerResult, ()>)
      requires redis.connected
      modifies redis`store
      ensures var key := CacheKey(cfg, context);
        var reusable := if health.read then Reusable(cfg, old(redis.store), key, now) else None;
        var token := Sign(cfg, claims, context.audience, ttlSeconds, now, jti);
        if reusable.Some? then
          && redis.store == old(redis.store)
          && r == Ok(BrokerResult(reusable.value.accessToken, Hit, reusable.value.expiresAt, SecondsUntil(reusable.value.expiresAt, now),
                                  reusable.value.issuedTokenType, reusable.value.jti, reusable.value.tokenType))
        else if !signerReady then
          r == Err(()) && redis.store == StoreAfter(cfg, old(redis.store), key, now, health)
        else
          && r == Ok(BrokerResult(token, if health.read && health.write then Miss else BackendError, 1000 * token.exp, ttlSeconds,
                                  ACCESS_TOKEN_TYPE, jti, BEARER))
          && redis.store == var left := StoreAfter(cfg, old(redis.store), key, now, health);
                            if health.write then Written(left, key, token, now) else left
      ensures Digests(cfg.sha) && Consistent(cfg, context, claims) && CacheSound(cfg, old(redis.store)) ==>
        CacheSound(cfg, redis.store) && (r.Ok? ==> Alike(r.value.accessToken.claims, claims))
    {
      var key := CacheKey(cfg, context);
      ghost var before := redis.store;
      var cached := ReadReusable(key, now, health);
      CleaningKeepsSound(cfg, before, key, now, health);
      if cached.Ok? && cached.value.Some? {
        var entry := cached.value.value;
        if Digests(cfg.sha) && Consistent(cfg, context, claims) && CacheSound(cfg, before) {
          ReusedIsAlike(cfg, before, context, claims.externalContext, now);
        }
        return Ok(BrokerResult(entry.accessToken, Hit, entry.expiresAt, SecondsUntil(entry.expiresAt, now),
                               entry.issuedTokenType, entry.jti, entry.tokenType));
      }
      if !signerReady { return Err(()); }
      var token := Sign(cfg, claims, context.audience, ttlSeconds, now, jti);
      ghost var cleaned := redis.store;
      var written := redis.Set(key, Document(Readable(CacheEntry(token))), Some(Max(1, SecondsUntil(1000 * token.exp, now))), now, health.write);
      if Consistent(cfg, context, claims) && CacheSound(cfg, before) {
        WritingKeepsSound(cfg, cleaned, context, token, now);
        AlikeItself(cfg, context, claims.externalContext);
      }
      return Ok(BrokerResult(token, if cached.Err? || !written then BackendError else Miss, 1000 * token.exp, ttlSeconds,
                             ACCESS_TOKEN_TYPE, token.jti, BEARER));
    }
  }

  // ---------- the key determines the request ----------

  lemma LiteralLength(s: string, i: nat)
    requires i < |s| && s[i] as int < 128
    ensures |Literal(s)| == |s| && Literal(s)[i] == s[i] as int
  {
  }

  /** Length and second unit tell the property names apart. */
  lemma ContextKeysDiffer(i: nat, j: nat)
    requires i < j < |CONTEXT_KEYS|
    ensures Literal(CONTEXT_KEYS[i]) != Literal(CONTEXT_KEYS[j])
  {
    var s, t := CONTEXT_KEYS[i], CONTEXT_KEYS[j];
    LiteralLength(s, 1);
    LiteralLength(t, 1);
    assert |s| != |t| || s[1] != t[1];
  }

  ghost predicate DistinctNames(names: seq<string>) {
    forall i, j :: 0 <= i < j < |names| ==> Literal(names[i]) != Literal(names[j])
  }

  lemma ContextKeysDistinct()
    ensures DistinctNames(CONTEXT_KEYS)
  {
    forall i, j | 0 <= i < j < |CONTEXT_KEYS| ensures Literal(CONTEXT_KEYS[i]) != Literal(CONTEXT_KEYS[j]) {
      ContextKeysDiffer(i, j);
    }
  }

  lemma StringObjectWellFormed(names: seq<string>, values: seq<Text>)
    requires |names| == |values| && DistinctNames(names)
    ensures WellFormed(StringObject(names, values))
  {
  }

  lemma CounterpartOf(a: seq<Member>, b: seq<Member>, m: Member) returns (n: Member)
    requires Same(Obj(a), Obj(b)) && m in a && m.value != Undefined
    ensures n in b && Matches(m, n)
  {
    n :| n in b && Matches(m, n);
  }

  lemma MatchedStrings(m: Member, n: Member)
    requires Matches(m, n) && m.value.Str?
    ensures n == m
  {
  }

  /** Objects of strings under the same names are equal only value by value. */
  lemma SameValueAt(names: seq<string>, xs: seq<Text>, ys: seq<Text>, i: nat)
    requires |names| == |xs| == |ys| && DistinctNames(names) && i < |names|
    requires Same(StringObject(names, xs), StringObject(names, ys))
    ensures xs[i] == ys[i]
  {
    var a, b := StringObject(names, xs).members, StringObject(names, ys).members;
    var n := CounterpartOf(a, b, a[i]);
    MatchedStrings(a[i], n);
    var j :| 0 <= j < |b| && b[j] == n;
    assert a[i] == Member(Literal(names[i]), Str(xs[i])) && n == Member(Literal(names[j]), Str(ys[j]));
    assert i == j;
  }

  lemma SameValues(names: seq<string>, xs: seq<Text>, ys: seq<Text>)
    requires |names| == |xs| == |ys| && DistinctNames(names)
    requires Same(StringObject(names, xs), StringObject(names, ys))
    ensures xs == ys
  {
    forall i | 0 <= i < |xs| ensures xs[i] == ys[i] {
      SameValueAt(names, xs, ys, i);
    }
  }

  /** Contexts with one cache key agree on all they carry (an absent credential or runtime counting as the empty id). */
  lemma KeyDetermines(cfg: Config, a: Context, b: Context)
    requires Digests(cfg.sha) && CacheKey(cfg, a) == CacheKey(cfg, b)
    ensures ContextValues(cfg.tenantId, a) == ContextValues(cfg.tenantId, b)
  {
    var xs, ys := ContextValues(cfg.tenantId, a), ContextValues(cfg.tenantId, b);
    ContextKeysDistinct();
    StringObjectWellFormed(CONTEXT_KEYS, xs);
    StringObjectWellFormed(CONTEXT_KEYS, ys);
    SerializeDetermines(cfg.le, StringObject(CONTEXT_KEYS, xs), StringObject(CONTEXT_KEYS, ys));
    SameValues(CONTEXT_KEYS, xs, ys);
  }

  /** One digest, or none on both sides, is one external context. */
  lemma DigestDetermines(cfg: Config, a: Context, b: Context, v: Option<Json>, w: Option<Json>)
    requires Digests(cfg.sha) && DigestOf(cfg, a, v) && DigestOf(cfg, b, w)
    requires OrEmpty(a.externalContextDigest) == OrEmpty(b.externalContextDigest)
    ensures AlikeContext(v, w)
  {
    if v.Some? && w.Some? { SerializeDetermines(cfg.le, v.value, w.value); }
  }

  /**
   Cache transparency: a token made for one request and answered to another under the same key carries the
   claims that other request would have signed.
   */
  lemma KeyedTokensAlike(cfg: Config, ctx: Context, externalContext: Option<Json>, token: Token)
    requires Digests(cfg.sha) && DigestOf(cfg, ctx, externalContext) && MadeFor(cfg, CacheKey(cfg, ctx), token)
    ensures Alike(token.claims, ClaimsFor(ctx, externalContext))
  {
    var made :| CacheKey(cfg, made) == CacheKey(cfg, ctx) && Consistent(cfg, made, token.claims);
    KeyDetermines(cfg, made, ctx);
    var mine, theirs := ContextValues(cfg.tenantId, ctx), ContextValues(cfg.tenantId, made);
    assert mine[0] == theirs[0] && mine[3] == theirs[3] && mine[5] == theirs[5] && mine[6] == theirs[6] && mine[9] == theirs[9];
    assert |Literal("agent")| == 5 && |Literal("application")| == 11;
    DigestDetermines(cfg, made, ctx, token.claims.externalContext, externalContext);
  }

  lemma ReusedIsAlike(cfg: Config, store: Store<CacheDoc>, ctx: Context, externalContext: Option<Json>, now: int)
    requires Digests(cfg.sha) && DigestOf(cfg, ctx, externalContext) && CacheSound(cfg, store)
    requires Reusable(cfg, store, CacheKey(cfg, ctx), now).Some?
    ensures Alike(Reusable(cfg, store, CacheKey(cfg, ctx), now).value.accessToken.claims, ClaimsFor(ctx, externalContext))
  {
    assert EntrySound(cfg, store, CacheKey(cfg, ctx));
    KeyedTokensAlike(cfg, ctx, externalContext, Reusable(cfg, store, CacheKey(cfg, ctx), now).value.accessToken);
  }

  lemma AlikeItself(cfg: Config, ctx: Context, externalContext: Option<Json>)
    requires DigestOf(cfg, ctx, externalContext)
    ensures Alike(ClaimsFor(ctx, externalContext), ClaimsFor(ctx, externalContext))
  {
    if externalContext.Some? { SerializeDetermines(cfg.le, externalContext.value, externalContext.value); }
  }

  lemma CleaningKeepsSound(cfg: Config, store: Store<CacheDoc>, key: Key, now: int, health: Health)
    ensures CacheSound(cfg, store) ==> CacheSound(cfg, StoreAfter(cfg, store, key, now, health))
  {
  }

  lemma WritingKeepsSound(cfg: Config, store: Store<CacheDoc>, ctx: Context, token: Token, now: int)
    requires Consistent(cfg, ctx, token.claims) && token.iss == cfg.issuer && CacheSound(cfg, store)
    ensures CacheSound(cfg, Written(store, CacheKey(cfg, ctx), token, now))
  {
  }

  // ---------- lifetimes ----------

  /** A cache entry outlives its token exactly for a lifetime of 0, or of 1 begun inside a second. */
  lemma EntryOutlivesTokenIff(cfg: Config, store: Store<CacheDoc>, key: Key, claims: Claims, audience: Text, ttlSeconds: nat, now: int, jti: Text)
    ensures var token := Sign(cfg, claims, audience, ttlSeconds, now, jti);
            var cell := Written(store, key, token, now)[key];
            cell.expiresAt.Some?
            && (cell.expiresAt.value > 1000 * token.exp <==> ttlSeconds == 0 || (ttlSeconds == 1 && now % 1000 != 0))
  {
  }

  /** A hit reports a lifetime between the threshold and the signed one, however long ago the token was written. */
  lemma HitReportsWithin(cfg: Config, store: Store<CacheDoc>, key: Key, claims: Claims, audience: Text, ttlSeconds: nat, signedAt: int, jti: Text,
                         now: int)
    requires signedAt <= now
    requires Reusable(cfg, Written(store, key, Sign(cfg, claims, audience, ttlSeconds, signedAt, jti), signedAt), key, now).Some?
    ensures var entry := Reusable(cfg, Written(store, key, Sign(cfg, claims, audience, ttlSeconds, signedAt, jti), signedAt), key, now).value;
            && cfg.reuseThresholdSeconds <= SecondsUntil(entry.expiresAt, now) <= ttlSeconds
            && now / 1000 < entry.accessToken.exp
  {
  }

  /** A miss reports the signed lifetime, which exceeds what is left by less than a second. */
  lemma MissOverreports(cfg: Config, claims: Claims, audience: Text, ttlSeconds: nat, now: int, jti: Text)
    ensures var left := 1000 * Sign(cfg, claims, audience, ttlSeconds, now, jti).exp - now;
            left <= 1000 * ttlSeconds < left + 1000
  {
  }

  ghost predicate EverReused(cfg: Config, store: Store<CacheDoc>, key: Key, signedAt: int) {
    exists now :: signedAt <= now && Reusable(cfg, store, key, now).Some?
  }

  /** A written token is ever reused exactly when its lifetime exceeds the threshold. */
  lemma ReusedIffLifetimeExceedsThreshold(cfg: Config, store: Store<CacheDoc>, key: Key, claims: Claims, audience: Text, ttlSeconds: nat,
                                          signedAt: int, jti: Text)
    ensures EverReused(cfg, Written(store, key, Sign(cfg, claims, audience, ttlSeconds, signedAt, jti), signedAt), key, signedAt)
            <==> ttlSeconds > cfg.reuseThresholdSeconds
  {
    var token := Sign(cfg, claims, audience, ttlSeconds, signedAt, jti);
    var after := Written(store, key, token, signedAt);
    assert signedAt == 1000 * (signedAt / 1000) + signedAt % 1000;
    assert 1000 * token.exp - signedAt == 1000 * ttlSeconds - signedAt % 1000;
    if ttlSeconds > cfg.reuseThresholdSeconds {
      assert Live(after, key, signedAt);
      assert Reusable(cfg, after, key, signedAt).Some?;
    }
  }
}
