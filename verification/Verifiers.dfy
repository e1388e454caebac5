/**
 The two verifiers of a target token: the server's claim checks and the SDK's. Both look at a decoded payload
 whose properties may be of any JSON type. The SDK is the stricter one, and by exactly what is stated here.
 */
module Verifiers {
  import opened Wrappers
  import opened Text
  import opened Json
  import opened Directory
  import opened Broker
  import opened Requester
  import opened Exchange
  import opened ExchangeRuns

  /** A payload by property name; an absent property reads as undefined. */
  type Payload = map<string, Json>

  function Property(payload: Payload, name: string): Json {
    if name in payload then payload[name] else Undefined
  }

  function StringOrEmpty(v: Json): Text { if v.Str? then v.s else [] }

  function StringIfAny(v: Json): Option<Text> { if v.Str? then Some(v.s) else None }

  // ---------- the server ----------

  datatype VerifyError = InvalidTargetResource | InvalidJwt | InvalidToken

  datatype VerifiedTarget = VerifiedTarget(subject: Text, agentId: Option<Text>, appId: Option<Text>, audience: Text)

  /** `asText` is String(v) on a value that is neither a string, null nor undefined. */
  function Subject(asText: Json -> Text, v: Json): Text {
    if v.Str? then v.s else if v.Undefined? || v.Null? then [] else asText(v)
  }

  /** The claim checks after the signature, issuer, audience and expiry have been verified. */
  predicate ServerAccepts(asText: Json -> Text, payload: Payload, code: Text) {
    var subject := Subject(asText, Property(payload, "sub"));
    var agentId, appId := StringOrEmpty(Property(payload, "agent_id")), StringOrEmpty(Property(payload, "app_id"));
    && Property(payload, "token_use") == Str(Literal(TARGET_ACCESS))
    && subject != [] && (agentId != [] || appId != [])
    && Property(payload, "target_resource") == Str(code)
    && (StartsWith(subject, AgentPrefix()) ==> subject[|AgentPrefix()|..] == agentId)
    && (StartsWith(subject, AppPrefix()) ==> subject[|AppPrefix()|..] == appId)
  }

  function NonEmpty(t: Text): Option<Text> { if t == [] then None else Some(t) }

  /** `verified(audience)` is the payload if the token verifies for that audience. */
  function VerifyForTargetResource(rows: Rows, asText: Json -> Text, verified: Text -> Option<Payload>, code: Text): (r: Result<VerifiedTarget, VerifyError>)
    ensures r.Ok? <==>
            TargetActive(rows, code) && verified(rows.targets[code].audience).Some?
            && ServerAccepts(asText, verified(rows.targets[code].audience).value, code)
    ensures r == Err(VerifyError.InvalidTargetResource) <==> !TargetActive(rows, code)
    ensures r.Ok? ==> r.value.audience == rows.targets[code].audience && (r.value.agentId.Some? || r.value.appId.Some?)
  {
    if !TargetActive(rows, code) then Err(VerifyError.InvalidTargetResource)
    else
      var audience := rows.targets[code].audience;
      match verified(audience)
      case None => Err(InvalidJwt)
      case Some(payload) =>
        var subject := Subject(asText, Property(payload, "sub"));
        var agentId, appId := StringOrEmpty(Property(payload, "agent_id")), StringOrEmpty(Property(payload, "app_id"));
        if Property(payload, "token_use") != Str(Literal(TARGET_ACCESS)) then Err(InvalidToken)
        else if subject == [] || (agentId == [] && appId == []) then Err(InvalidToken)
        else if Property(payload, "target_resource") != Str(code) then Err(InvalidToken)
        else if StartsWith(subject, AgentPrefix()) && subject[|AgentPrefix()|..] != agentId then Err(InvalidToken)
        else if StartsWith(subject, AppPrefix()) && subject[|AppPrefix()|..] != appId then Err(InvalidToken)
        else Ok(VerifiedTarget(subject, NonEmpty(agentId), NonEmpty(appId), audience))
  }

  // ---------- the SDK ----------

  datatype SdkError = InvalidTokenUse | InvalidPrincipal | SubjectMismatch | TargetResourceMismatch | InvalidClaims

  const ZERO: Text := [0x30]

  /** A number that is not zero. */
  predicate Truthy(v: Json) { v.Num? && v.lexeme != ZERO }

  predicate SubjectMatchesPrincipal(subject: Text, agentId: Option<Text>, appId: Option<Text>) {
    if StartsWith(subject, AgentPrefix()) then agentId == Some(subject[|AgentPrefix()|..])
    else StartsWith(subject, AppPrefix()) && appId == Some(subject[|AppPrefix()|..])
  }

  /** A string that is not empty, or an array of strings, be it empty. */
  predicate AudienceReadable(v: Json) {
    (v.Str? && v.s != []) || (v.Arr? && forall i :: 0 <= i < |v.items| ==> v.items[i].Str?)
  }

  /** None accepts. An expected target that is the empty string is no expectation. */
  function AssertTargetAccessClaims(payload: Payload, expected: Option<Text>): (r: Option<SdkError>)
    ensures r.None? && expected.Some? && expected.value != [] ==> Property(payload, "target_resource") == Str(expected.value)
  {
    var subject, target := StringOrEmpty(Property(payload, "sub")), StringOrEmpty(Property(payload, "target_resource"));
    var agentId, appId := StringIfAny(Property(payload, "agent_id")), StringIfAny(Property(payload, "app_id"));
    if Property(payload, "token_use") != Str(Literal(TARGET_ACCESS)) then Some(InvalidTokenUse)
    else if subject == [] || (OrEmpty(agentId) == [] && OrEmpty(appId) == []) then Some(InvalidPrincipal)
    else if !SubjectMatchesPrincipal(subject, agentId, appId) then Some(SubjectMismatch)
    else if expected.Some? && expected.value != [] && target != expected.value then Some(TargetResourceMismatch)
    else if StringOrEmpty(Property(payload, "iss")) == [] || !Truthy(Property(payload, "iat")) || !Truthy(Property(payload, "exp"))
            || StringOrEmpty(Property(payload, "jti")) == [] || target == [] || !AudienceReadable(Property(payload, "aud")) then Some(InvalidClaims)
    else None
  }

  /** The subject is the prefix and the value of the principal's own property. */
  ghost predicate SubjectNames(payload: Payload, prefix: Text, name: string) {
    Property(payload, name).Str? && Property(payload, "sub") == Str(prefix + Property(payload, name).s)
  }

  predicate RegisteredClaims(payload: Payload) {
    StringOrEmpty(Property(payload, "iss")) != [] && Truthy(Property(payload, "iat")) && Truthy(Property(payload, "exp"))
    && StringOrEmpty(Property(payload, "jti")) != [] && AudienceReadable(Property(payload, "aud"))
  }

  /** A target access token: for some target, the expected one if one is expected, and for the principal its subject names. */
  ghost predicate IsTargetAccess(payload: Payload, expected: Option<Text>) {
    && Property(payload, "token_use") == Str(Literal(TARGET_ACCESS)) && RegisteredClaims(payload)
    && (SubjectNames(payload, AgentPrefix(), "agent_id") || SubjectNames(payload, AppPrefix(), "app_id"))
    && (StringOrEmpty(Property(payload, "agent_id")) != [] || StringOrEmpty(Property(payload, "app_id")) != [])
    && StringOrEmpty(Property(payload, "target_resource")) != []
    && (expected.Some? && expected.value != [] ==> Property(payload, "target_resource") == Str(expected.value))
  }

  lemma PrefixNames(payload: Payload, prefix: Text, name: string)
    ensures SubjectNames(payload, prefix, name) <==>
            Property(payload, "sub").Str? && StartsWith(Property(payload, "sub").s, prefix)
            && StringIfAny(Property(payload, name)) == Some(Property(payload, "sub").s[|prefix|..])
  {
    var sub := Property(payload, "sub");
    if sub.Str? && StartsWith(sub.s, prefix) { assert sub.s == prefix + sub.s[|prefix|..]; }
    if SubjectNames(payload, prefix, name) { assert sub.s[|prefix|..] == Property(payload, name).s && sub.s[..|prefix|] == prefix; }
  }

  /** The SDK's checks accept exactly the target access tokens. */
  lemma SdkAcceptsIff(payload: Payload, expected: Option<Text>)
    ensures AssertTargetAccessClaims(payload, expected).None? <==> IsTargetAccess(payload, expected)
  {
    PrefixNames(payload, AgentPrefix(), "agent_id");
    PrefixNames(payload, AppPrefix(), "app_id");
    if Property(payload, "sub").Str? { OnePrefix(Property(payload, "sub").s); }
  }

  // ---------- agreement ----------

  predicate PrefixedSubject(payload: Payload) {
    var sub := Property(payload, "sub");
    && sub.Str?
    && (if StartsWith(sub.s, AgentPrefix()) then Property(payload, "agent_id").Str?
        else StartsWith(sub.s, AppPrefix()) && Property(payload, "app_id").Str?)
  }

  /**
   What the SDK asks beyond the server: a subject that is a string with one of the two prefixes, the agent or
   application id present as a string (the empty id after a bare prefix included), and the registered claims.
   */
  predicate SdkExtra(payload: Payload) { PrefixedSubject(payload) && RegisteredClaims(payload) }

  /** For one target: the SDK accepts exactly what the server accepts and the extra asks for. */
  lemma SdkIsServerAndExtra(asText: Json -> Text, payload: Payload, code: Text)
    requires code != []
    ensures AssertTargetAccessClaims(payload, Some(code)).None? <==> ServerAccepts(asText, payload, code) && SdkExtra(payload)
  {
    var sub := Property(payload, "sub");
    if sub.Str? { OnePrefix(sub.s); }
  }

  /** A payload with every registered claim, for this subject and these principal properties. */
  function FullPayload(code: Text, sub: Json, agentId: Json, appId: Json): Payload {
    map["token_use" := Str(Literal(TARGET_ACCESS)), "sub" := sub, "agent_id" := agentId, "app_id" := appId, "target_resource" := Str(code),
        "iss" := Str([0x69]), "aud" := Str([0x61]), "iat" := Num([0x31]), "exp" := Num([0x32]), "jti" := Str([0x6A])]
  }

  /**
   Not all of the extra is missing registered claims: with all of them, the server alone accepts an array as subject
   (whose text has the prefix), and a bare prefix beside the other principal's id.
   */
  lemma ServerAloneAccepts(asText: Json -> Text, code: Text, id: Text)
    requires code != [] && id != [] && asText(Arr([Str(AgentPrefix() + id)])) == AgentPrefix() + id
    ensures OnlyServerAccepts(asText, FullPayload(code, Arr([Str(AgentPrefix() + id)]), Str(id), Undefined), code)
    ensures OnlyServerAccepts(asText, FullPayload(code, Str(AgentPrefix()), Undefined, Str(id)), code)
  {
    ArraySubject(asText, code, id);
    BarePrefix(asText, code, id);
  }

  ghost predicate OnlyServerAccepts(asText: Json -> Text, payload: Payload, code: Text) {
    RegisteredClaims(payload) && ServerAccepts(asText, payload, code) && AssertTargetAccessClaims(payload, Some(code)).Some?
  }

  lemma ArraySubject(asText: Json -> Text, code: Text, id: Text)
    requires code != [] && id != [] && asText(Arr([Str(AgentPrefix() + id)])) == AgentPrefix() + id
    ensures OnlyServerAccepts(asText, FullPayload(code, Arr([Str(AgentPrefix() + id)]), Str(id), Undefined), code)
  {
    PrefixSplits(AgentPrefix(), id);
    OnePrefix(AgentPrefix() + id);
  }

  lemma BarePrefix(asText: Json -> Text, code: Text, id: Text)
    requires code != [] && id != []
    ensures OnlyServerAccepts(asText, FullPayload(code, Str(AgentPrefix()), Undefined, Str(id)), code)
  {
    PrefixSplits(AgentPrefix(), []);
    assert AgentPrefix() + [] == AgentPrefix();
    OnePrefix(AgentPrefix());
  }

  /** Without an expected target, or with an empty one, the SDK does not look at which target the token is for. */
  lemma EmptyExpectationIsNone(payload: Payload)
    ensures AssertTargetAccessClaims(payload, Some([])) == AssertTargetAccessClaims(payload, None)
  {
  }

  // ---------- tokens of the exchange ----------

  function OptionalText(t: Option<Text>): Json { if t.Some? then Str(t.value) else Undefined }

  /** The payload of a signed token; `show` prints its numbers. */
  function PayloadOf(token: Token, show: int -> Text): Payload {
    map["sub" := Str(token.claims.sub), "aud" := Str(token.claims.aud), "agent_id" := OptionalText(token.claims.agentId),
        "app_id" := OptionalText(token.claims.appId), "target_resource" := Str(token.claims.targetResource),
        "token_use" := Str(Literal(token.claims.tokenUse)),
        "delegation_type" := if token.claims.delegationType.Some? then Str(Literal(token.claims.delegationType.value)) else Undefined,
        "external_context" := if token.claims.externalContext.Some? then token.claims.externalContext.value else Undefined,
        "iss" := Str(token.iss), "iat" := Num(show(token.iat)), "exp" := Num(show(token.exp)), "jti" := Str(token.jti)]
  }

  lemma PrefixSplits(prefix: Text, id: Text)
    ensures StartsWith(prefix + id, prefix) && (prefix + id)[|prefix|..] == id
  {
  }

  /** The properties the checks read, for a token with the claims of an exchange. */
  lemma PayloadReads(token: Token, show: int -> Text, ctx: Context, context: Option<Json>)
    requires Alike(token.claims, ClaimsFor(ctx, context))
    ensures var payload := PayloadOf(token, show);
      && Property(payload, "token_use") == Str(Literal(TARGET_ACCESS)) && Property(payload, "target_resource") == Str(ctx.targetResource)
      && (if ctx.kind == AgentKind then
            Property(payload, "sub") == Str(AgentPrefix() + ctx.principalId) && Property(payload, "agent_id") == Str(ctx.principalId)
            && Property(payload, "app_id") == Undefined
          else
            Property(payload, "sub") == Str(AppPrefix() + ctx.principalId) && Property(payload, "app_id") == Str(ctx.principalId)
            && Property(payload, "agent_id") == Undefined)
  {
  }

  /** Every token of the exchange, fresh or cached, passes the server's checks for its own target exactly when its principal has an id. */
  lemma TokenPassesServer(asText: Json -> Text, token: Token, show: int -> Text, ctx: Context, context: Option<Json>)
    requires Alike(token.claims, ClaimsFor(ctx, context))
    ensures ServerAccepts(asText, PayloadOf(token, show), ctx.targetResource) <==> ctx.principalId != []
  {
    PayloadReads(token, show, ctx, context);
    var prefix := if ctx.kind == AgentKind then AgentPrefix() else AppPrefix();
    PrefixSplits(prefix, ctx.principalId);
    OtherPrefix(ctx.kind, ctx.principalId);
  }

  lemma OtherPrefix(kind: Kind, id: Text)
    ensures if kind == AgentKind then !StartsWith(AgentPrefix() + id, AppPrefix()) else !StartsWith(AppPrefix() + id, AgentPrefix())
  {
    if kind == AgentKind {
      PrefixSplits(AgentPrefix(), id);
      OnePrefix(AgentPrefix() + id);
    } else if StartsWith(AppPrefix() + id, AgentPrefix()) {
      OnePrefix(AppPrefix() + id);
      PrefixSplits(AppPrefix(), id);
    }
  }

  /** And the SDK's, exactly when no registered claim is empty or zero as well. */
  lemma TokenPassesSdk(token: Token, show: int -> Text, ctx: Context, context: Option<Json>)
    requires Alike(token.claims, ClaimsFor(ctx, context)) && ctx.targetResource != []
    requires forall n :: show(n) == ZERO <==> n == 0
    ensures AssertTargetAccessClaims(PayloadOf(token, show), Some(ctx.targetResource)).None?
            <==> ctx.principalId != [] && token.iss != [] && token.jti != [] && ctx.audience != [] && token.iat != 0 && token.exp != 0
  {
    PayloadReads(token, show, ctx, context);
    PrefixSplits(if ctx.kind == AgentKind then AgentPrefix() else AppPrefix(), ctx.principalId);
    OtherPrefix(ctx.kind, ctx.principalId);
    RegisteredReads(token, show);
  }

  lemma RegisteredReads(token: Token, show: int -> Text)
    ensures var payload := PayloadOf(token, show);
      && Property(payload, "iss") == Str(token.iss) && Property(payload, "iat") == Num(show(token.iat))
      && Property(payload, "exp") == Num(show(token.exp)) && Property(payload, "jti") == Str(token.jti)
      && Property(payload, "aud") == Str(token.claims.aud)
  {
  }

  /** Over all runs: what an exchange returns is accepted by the server for the target it was asked for. */
  lemma ReturnsPassServer(cfg: Settings, s: State, acts: seq<Action>, r: Returned, asText: Json -> Text, show: int -> Text)
    requires Digests(cfg.broker.sha) && Initial(cfg, s) && Run(cfg, s, acts).Some? && r in Run(cfg, s, acts).value.returned
    ensures ServerAccepts(asText, PayloadOf(r.token, show), r.flight.code) <==> r.flight.who.id != []
  {
    ReturnsAreTransparent(cfg, s, acts, r);
    TokenPassesServer(asText, r.token, show, ContextOf(cfg, r.flight), r.flight.claims.externalContext);
  }

  lemma ReturnsPassSdk(cfg: Settings, s: State, acts: seq<Action>, r: Returned, show: int -> Text)
    requires Digests(cfg.broker.sha) && Initial(cfg, s) && Run(cfg, s, acts).Some? && r in Run(cfg, s, acts).value.returned
    requires r.flight.code != [] && forall n :: show(n) == ZERO <==> n == 0
    ensures AssertTargetAccessClaims(PayloadOf(r.token, show), Some(r.flight.code)).None?
            <==> r.flight.who.id != [] && r.token.iss != [] && r.token.jti != [] && r.flight.seen.target.audience != []
                 && r.token.iat != 0 && r.token.exp != 0
  {
    ReturnsAreTransparent(cfg, s, acts, r);
    TokenPassesSdk(r.token, show, ContextOf(cfg, r.flight), r.flight.claims.externalContext);
  }
}
