/**
 The OAuth token endpoints over the tables they write. Each database statement of an exchange is a function on
 the tables, shared by the service here and by the interleaved runs; the service methods are their composition
 when nothing interferes. Opaque tokens are named by their hash (SHA-256 taken as injective), so a row's key is
 the token itself.
 */
module Oidc {
  import opened Wrappers
  import opened Text
  import opened Scopes
  import opened Clients

  const ADMIN_SCOPE := "authany.admin"
  const ADMIN_ROLE := "platform_admin"

  datatype CodeStatus = CodeActive | CodeConsumed

  datatype CodeRow = CodeRow(clientId: Text, operatorId: string, redirectUri: Text, scope: string,
                             codeChallenge: string, codeChallengeMethod: string, status: CodeStatus, expiresAt: int)

  datatype RefreshStatus = RefreshActive | RefreshRotated | RefreshRevoked

  datatype RefreshRow = RefreshRow(jti: string, clientId: Text, operatorId: string, status: RefreshStatus, scope: string, expiresAt: int)

  datatype AccessRecord = AccessRecord(tokenType: string, subjectId: string, clientId: Option<Text>, scope: string,
                                       roles: seq<string>, expiresAt: int)

  /** Authorization codes, refresh tokens, access-token records by jti, and revoked (jti, token type) pairs. */
  datatype Tables = Tables(codes: map<string, CodeRow>, refreshTokens: map<string, RefreshRow>,
                           accessRecords: map<string, AccessRecord>, revocations: set<(string, string)>)

  datatype OidcError = InvalidClient | UnauthorizedClient | InvalidGrant | InsufficientScope | NoSigningKey
                     | LoginRequired | UnsupportedResponseType | InvalidRequest | InvalidRedirectUri | InvalidScope

  datatype OidcConfig = OidcConfig(authCodeTtlSeconds: nat, accessTokenTtlSeconds: nat, refreshTokenTtlSeconds: nat)

  datatype AuthorizeInput = AuthorizeInput(responseType: string, clientId: Text, redirectUri: Text, scope: string,
                                           codeChallenge: string, codeChallengeMethod: string)

  /** Whether the signer finds a key when the access token, and later the id token, is signed. */
  datatype Signer = Signer(access: bool, id: bool)

  /** The identifiers one issue draws at random. */
  datatype Draw = Draw(accessJti: string, refreshToken: string, refreshJti: string)

  datatype TokenResponse = TokenResponse(accessJti: string, refreshToken: string, expiresIn: nat, scope: string)

  // ---------- the statements ----------

  /** updateMany where id and status active: sets consumed. */
  function ConsumeCode(db: Tables, code: string): Tables {
    if code in db.codes && db.codes[code].status == CodeActive
    then db.(codes := db.codes[code := db.codes[code].(status := CodeConsumed)])
    else db
  }

  /** updateMany where id and status active: sets rotated. */
  function RotateRefresh(db: Tables, token: string): Tables {
    if token in db.refreshTokens && db.refreshTokens[token].status == RefreshActive
    then db.(refreshTokens := db.refreshTokens[token := db.refreshTokens[token].(status := RefreshRotated)])
    else db
  }

  /** updateMany where operator and status active: sets revoked. */
  function RevokeFamily(db: Tables, operatorId: string): Tables {
    db.(refreshTokens := map t | t in db.refreshTokens ::
      if db.refreshTokens[t].operatorId == operatorId && db.refreshTokens[t].status == RefreshActive
      then db.refreshTokens[t].(status := RefreshRevoked) else db.refreshTokens[t])
  }

  /** update by id, whatever the status. */
  function RevokeRefresh(db: Tables, token: string): Tables
    requires token in db.refreshTokens
  {
    db.(refreshTokens := db.refreshTokens[token := db.refreshTokens[token].(status := RefreshRevoked)])
  }

  /** upsert on (jti, token type) */
  function AddRevocation(db: Tables, jti: string, tokenType: string): Tables {
    db.(revocations := db.revocations + {(jti, tokenType)})
  }

  function AddRecord(db: Tables, cfg: OidcConfig, clientId: Text, operatorId: string, scope: string, roles: seq<string>, now: int, jti: string): Tables {
    db.(accessRecords := db.accessRecords[jti :=
      AccessRecord("access_token", operatorId, Some(clientId), scope, roles, (now / 1000 + cfg.accessTokenTtlSeconds) * 1000)])
  }

  function AddRefresh(db: Tables, cfg: OidcConfig, clientId: Text, operatorId: string, scope: string, now: int, token: string, jti: string): Tables {
    db.(refreshTokens := db.refreshTokens[token :=
      RefreshRow(jti, clientId, operatorId, RefreshActive, scope, now + cfg.refreshTokenTtlSeconds * 1000)])
  }

  /** The access-token record and the refresh row of one issue. */
  function AddTokens(db: Tables, cfg: OidcConfig, clientId: Text, operatorId: string, scope: string, roles: seq<string>, now: int, draw: Draw): Tables {
    AddRefresh(AddRecord(db, cfg, clientId, operatorId, scope, roles, now, draw.accessJti),
               cfg, clientId, operatorId, scope, now, draw.refreshToken, draw.refreshJti)
  }

  // ---------- the checks ----------

  predicate IsVerifierChar(c: char) {
    'A' <= c <= 'Z' || 'a' <= c <= 'z' || '0' <= c <= '9' || c == '-' || c == '.' || c == '_' || c == '~'
  }

  /** Section 4.6 of RFC 7636 for S256; `sha256` is the base64url digest. */
  predicate PkceVerifies(sha256: string -> string, verifier: string, challenge: string, challengeMethod: string) {
    && challengeMethod == "S256"
    && 43 <= |verifier| <= 128 && (forall i :: 0 <= i < |verifier| ==> IsVerifierChar(verifier[i]))
    && sha256(verifier) == challenge
  }

  predicate CodeAccepted(db: Tables, sha256: string -> string, code: string, clientId: Text, redirectUri: Text, verifier: string, now: int) {
    && code in db.codes
    && var row := db.codes[code];
       && row.status == CodeActive && row.expiresAt >= now
       && row.clientId == clientId && row.redirectUri == redirectUri
       && PkceVerifies(sha256, verifier, row.codeChallenge, row.codeChallengeMethod)
  }

  predicate RefreshAccepted(db: Tables, token: string, clientId: Text, now: int) {
    && token in db.refreshTokens
    && var row := db.refreshTokens[token];
       row.status == RefreshActive && row.clientId == clientId && row.expiresAt >= now
  }

  predicate RequestsAdmin(scope: string, allowedScopes: seq<string>) {
    ADMIN_SCOPE in Keep(Words(scope), allowedScopes)
  }

  /** The roles put into the token: those the operator holds, and only when the admin scope is asked for. */
  function RolesFor(roles: map<string, seq<string>>, operatorId: string, scope: string, allowedScopes: seq<string>): seq<string> {
    if RequestsAdmin(scope, allowedScopes) && operatorId in roles then roles[operatorId] else []
  }

  predicate MayIssue(roles: map<string, seq<string>>, operatorId: string, scope: string, allowedScopes: seq<string>) {
    RequestsAdmin(scope, allowedScopes) ==> ADMIN_ROLE in RolesFor(roles, operatorId, scope, allowedScopes)
  }

  // ---------- authorization requests ----------

  predicate AllAllowed(ws: seq<string>, allowed: seq<string>) {
    forall w :: w in ws ==> w in allowed
  }

  /** Section 4.1.1 of RFC 6749 with section 4.3 of RFC 7636: a code request of an active client, within its allow-lists. */
  function ValidateAuthorizationRequest(clients: Clients, query: AuthorizeInput): (r: Result<Client, OidcError>)
    ensures r.Ok? <==>
            && query.responseType == "code" && query.codeChallengeMethod == "S256" && UsableClient(clients, query.clientId)
            && query.redirectUri in clients[query.clientId].redirectUris
            && "authorization_code" in clients[query.clientId].allowedGrantTypes
            && AllAllowed(Words(query.scope), clients[query.clientId].allowedScopes)
    ensures r.Ok? ==> r.value == clients[query.clientId]
    ensures r == Err(InvalidScope) ==> query.clientId in clients && exists w :: w in Words(query.scope) && w !in clients[query.clientId].allowedScopes
  {
    if query.responseType != "code" then Err(UnsupportedResponseType)
    else if query.codeChallengeMethod != "S256" then Err(InvalidRequest)
    else if !UsableClient(clients, query.clientId) then Err(InvalidClient)
    else
      var client := clients[query.clientId];
      if query.redirectUri !in client.redirectUris then Err(InvalidRedirectUri)
      else if "authorization_code" !in client.allowedGrantTypes then Err(UnauthorizedClient)
      else if !AllAllowed(Words(query.scope), client.allowedScopes) then Err(InvalidScope)
      else Ok(client)
  }

  lemma {:induction false} KeepAll(ws: seq<string>, allowed: seq<string>)
    requires AllAllowed(ws, allowed)
    ensures Keep(ws, allowed) == ws
  {
    if ws != [] {
      KeepAll(ws[1..], allowed);
      assert ws == [ws[0]] + ws[1..];
    }
  }

  /** An accepted request gets, at an exchange under the same allow-list, exactly the words it asked for. */
  lemma AcceptedScopeIsGranted(clients: Clients, query: AuthorizeInput)
    requires ValidateAuthorizationRequest(clients, query).Ok?
    ensures Words(EffectiveScope(query.scope, clients[query.clientId].allowedScopes)) == Words(query.scope)
  {
    EffectiveScopeWords(query.scope, clients[query.clientId].allowedScopes);
    KeepAll(Words(query.scope), clients[query.clientId].allowedScopes);
  }

  // ---------- token status ----------

  predicate IsActiveAccessToken(db: Tables, jti: string, tokenType: Option<string>, now: int) {
    && jti != "" && jti in db.accessRecords && db.accessRecords[jti].expiresAt > now
    && (jti, if tokenType.Some? then tokenType.value else db.accessRecords[jti].tokenType) !in db.revocations
  }

  /** The `active` member of an introspection response to a token that verifies with this jti. */
  ghost predicate IntrospectsActive(db: Tables, jti: string, now: int) {
    && jti != "" && jti in db.accessRecords && db.accessRecords[jti].expiresAt > now
    && forall tokenType :: (jti, tokenType) !in db.revocations
  }

  // ---------- the service ----------

  class OidcService {
    const cfg: OidcConfig
    const sha256: string -> string
    var db: Tables
    var clients: Clients
    /** Active role codes by operator. */
    var roles: map<string, seq<string>>

    constructor (cfg: OidcConfig, sha256: string -> string, db: Tables, clients: Clients, roles: map<string, seq<string>>)
      ensures this.cfg == cfg && this.sha256 == sha256 && this.db == db && this.clients == clients && this.roles == roles
    {
      this.cfg, this.sha256, this.db, this.clients, this.roles := cfg, sha256, db, clients, roles;
    }

    /** `operatorId` is who is logged in, if anyone; `code` is the drawn code. */
    method CreateAuthorizationCode(operatorId: Option<string>, query: AuthorizeInput, code: string, now: int) returns (r: Result<string, OidcError>)
      requires code !in db.codes
      modifies this`db
      ensures r.Ok? <==> operatorId.Some? && ValidateAuthorizationRequest(clients, query).Ok?
      ensures r == Err(LoginRequired) <==> operatorId.None?
      ensures r.Err? ==> db == old(db)
      ensures r.Ok? ==>
        && r.value == code && AllAllowed(Words(query.scope), clients[query.clientId].allowedScopes)
        && db == old(db).(codes := old(db).codes[code :=
             CodeRow(query.clientId, operatorId.value, query.redirectUri, query.scope, query.codeChallenge, "S256", CodeActive,
                     now + cfg.authCodeTtlSeconds * 1000)])
    {
      if operatorId.None? { return Err(LoginRequired); }
      var client := ValidateAuthorizationRequest(clients, query);
      if client.Err? { return Err(client.error); }
      var row := CodeRow(query.clientId, operatorId.value, query.redirectUri, query.scope, query.codeChallenge, query.codeChallengeMethod,
                         CodeActive, now + cfg.authCodeTtlSeconds * 1000);
      db := db.(codes := db.codes[code := row]);
      return Ok(code);
    }

    /** Authentication and every check before the compare-and-set; nothing is written. */
    method CheckCode(clientId: Text, secret: Option<string>, code: string, redirectUri: Text, verifier: string, now: int)
      returns (r: Result<CodeRow, OidcError>)
      ensures var client := ValidateClientSecret(clients, clientId, secret, now);
        && (r == Err(InvalidClient) <==> client.None?)
        && (r == Err(UnauthorizedClient) <==> client.Some? && "authorization_code" !in client.value.allowedGrantTypes)
        && (r.Ok? <==> client.Some? && "authorization_code" in client.value.allowedGrantTypes
                       && CodeAccepted(db, sha256, code, clientId, redirectUri, verifier, now))
      ensures r.Ok? ==> r.value == db.codes[code]
      ensures r.Err? ==> r.error in {InvalidClient, UnauthorizedClient, InvalidGrant}
    {
      var client := ValidateClientSecret(clients, clientId, secret, now);
      if client.None? { return Err(InvalidClient); }
      if "authorization_code" !in client.value.allowedGrantTypes { return Err(UnauthorizedClient); }
      if code !in db.codes || db.codes[code].status != CodeActive || db.codes[code].expiresAt < now { return Err(InvalidGrant); }
      var row := db.codes[code];
      if row.clientId != clientId || row.redirectUri != redirectUri { return Err(InvalidGrant); }
      if !PkceVerifies(sha256, verifier, row.codeChallenge, row.codeChallengeMethod) { return Err(InvalidGrant); }
      return Ok(row);
    }

    /** The compare-and-set and what follows it, for a row read earlier; other exchanges may have run in between. */
    method RedeemCode(clientId: Text, client: Client, code: string, row: CodeRow, now: int, draw: Draw, signer: Signer)
      returns (r: Result<TokenResponse, OidcError>)
      requires code in db.codes
      modifies this`db
      ensures old(db).codes[code].status != CodeActive ==> r == Err(InvalidGrant) && db == old(db)
      ensures old(db).codes[code].status == CodeActive ==>
        var consumed := ConsumeCode(old(db), code);
        Issued(consumed, clientId, client, row.operatorId, row.scope, now, draw, signer, r, db)
    {
      var lost := db.codes[code].status != CodeActive;
      db := ConsumeCode(db, code);
      if lost { return Err(InvalidGrant); }
      r := IssueStandardTokens(clientId, client, row.operatorId, row.scope, now, draw, signer);
    }

    /**
     What one issue answers and writes: tokens under the effective scope, or a refusal that writes nothing. Only the
     id token is signed after the rows are written: without a key then, they stay and nobody is given the tokens.
     */
    predicate Issued(before: Tables, clientId: Text, client: Client, operatorId: string, scope: string, now: int, draw: Draw,
                     signer: Signer, r: Result<TokenResponse, OidcError>, after: Tables)
      reads this
    {
      var effective := EffectiveScope(scope, client.allowedScopes);
      if !MayIssue(roles, operatorId, scope, client.allowedScopes) then r == Err(InsufficientScope) && after == before
      else if !signer.access then r == Err(NoSigningKey) && after == before
      else
        && r == (if signer.id then Ok(TokenResponse(draw.accessJti, draw.refreshToken, cfg.accessTokenTtlSeconds, effective)) else Err(NoSigningKey))
        && after == AddTokens(before, cfg, clientId, operatorId, effective,
                              RolesFor(roles, operatorId, scope, client.allowedScopes), now, draw)
    }

    method IssueStandardTokens(clientId: Text, client: Client, operatorId: string, scope: string, now: int, draw: Draw, signer: Signer)
      returns (r: Result<TokenResponse, OidcError>)
      modifies this`db
      ensures Issued(old(db), clientId, client, operatorId, scope, now, draw, signer, r, db)
    {
      var effectiveScopes := Keep(Words(scope), client.allowedScopes);
      var requestingAdminScope := ADMIN_SCOPE in effectiveScopes;
      var roleCodes: seq<string> := if requestingAdminScope && operatorId in roles then roles[operatorId] else [];
      if requestingAdminScope && ADMIN_ROLE !in roleCodes { return Err(InsufficientScope); }
      if !signer.access { return Err(NoSigningKey); }
      var effective := Join(effectiveScopes);
      db := AddTokens(db, cfg, clientId, operatorId, effective, roleCodes, now, draw);
      if !signer.id { return Err(NoSigningKey); }
      return Ok(TokenResponse(draw.accessJti, draw.refreshToken, cfg.accessTokenTtlSeconds, effective));
    }

    /** Undisturbed: an accepted code is consumed and answered once, and an unaccepted one changes nothing. */
    method ExchangeAuthorizationCode(clientId: Text, secret: Option<string>, code: string, redirectUri: Text, verifier: string,
                                     now: int, draw: Draw, signer: Signer)
      returns (r: Result<TokenResponse, OidcError>)
      modifies this`db
      ensures var client := ValidateClientSecret(clients, clientId, secret, now);
        if client.Some? && "authorization_code" in client.value.allowedGrantTypes
           && CodeAccepted(old(db), sha256, code, clientId, redirectUri, verifier, now)
        then
          var row := old(db).codes[code];
          Issued(ConsumeCode(old(db), code), clientId, client.value, row.operatorId, row.scope, now, draw, signer, r, db)
        else r.Err? && db == old(db)
      ensures r.Ok? ==> !CodeAccepted(db, sha256, code, clientId, redirectUri, verifier, now)
    {
      var row := CheckCode(clientId, secret, code, redirectUri, verifier, now);
      if row.Err? { return Err(row.error); }
      var client := ValidateClientSecret(clients, clientId, secret, now);
      r := RedeemCode(clientId, client.value, code, row.value, now, draw, signer);
    }

    method CheckRefresh(clientId: Text, secret: Option<string>, token: string, now: int) returns (r: Result<RefreshRow, OidcError>)
      ensures var client := ValidateClientSecret(clients, clientId, secret, now);
        && (r == Err(InvalidClient) <==> client.None?)
        && (r == Err(UnauthorizedClient) <==> client.Some? && "refresh_token" !in client.value.allowedGrantTypes)
        && (r.Ok? <==> client.Some? && "refresh_token" in client.value.allowedGrantTypes && RefreshAccepted(db, token, clientId, now))
      ensures r.Ok? ==> r.value == db.refreshTokens[token]
      ensures r.Err? ==> r.error in {InvalidClient, UnauthorizedClient, InvalidGrant}
    {
      var client := ValidateClientSecret(clients, clientId, secret, now);
      if client.None? { return Err(InvalidClient); }
      if "refresh_token" !in client.value.allowedGrantTypes { return Err(UnauthorizedClient); }
      if token !in db.refreshTokens || db.refreshTokens[token].status != RefreshActive
         || db.refreshTokens[token].clientId != clientId || db.refreshTokens[token].expiresAt < now {
        return Err(InvalidGrant);
      }
      return Ok(db.refreshTokens[token]);
    }

    /** Losing the compare-and-set revokes every active refresh token of the operator. */
    method RedeemRefresh(clientId: Text, client: Client, token: string, row: RefreshRow, now: int, draw: Draw, signer: Signer)
      returns (r: Result<TokenResponse, OidcError>)
      requires token in db.refreshTokens
      modifies this`db
      ensures old(db).refreshTokens[token].status != RefreshActive ==>
        r == Err(InvalidGrant) && db == RevokeFamily(old(db), row.operatorId)
      ensures old(db).refreshTokens[token].status == RefreshActive ==>
        Issued(RotateRefresh(old(db), token), clientId, client, row.operatorId, row.scope, now, draw, signer, r, db)
    {
      var lost := db.refreshTokens[token].status != RefreshActive;
      db := RotateRefresh(db, token);
      if lost {
        db := RevokeFamily(db, row.operatorId);
        return Err(InvalidGrant);
      }
      r := IssueStandardTokens(clientId, client, row.operatorId, row.scope, now, draw, signer);
    }

    /**
     Undisturbed: an accepted token is rotated and answered once. Presenting a token that is already rotated or
     revoked is refused and changes nothing: the family is left alone.
     */
    method ExchangeRefreshToken(clientId: Text, secret: Option<string>, token: string, now: int, draw: Draw, signer: Signer)
      returns (r: Result<TokenResponse, OidcError>)
      requires draw.refreshToken !in db.refreshTokens
      modifies this`db
      ensures var client := ValidateClientSecret(clients, clientId, secret, now);
        if client.Some? && "refresh_token" in client.value.allowedGrantTypes && RefreshAccepted(old(db), token, clientId, now)
        then
          var row := old(db).refreshTokens[token];
          Issued(RotateRefresh(old(db), token), clientId, client.value, row.operatorId, row.scope, now, draw, signer, r, db)
        else r.Err? && db == old(db)
      ensures r.Ok? ==> !RefreshAccepted(db, token, clientId, now) && RefreshAccepted(db, draw.refreshToken, clientId, now)
    {
      var row := CheckRefresh(clientId, secret, token, now);
      if row.Err? { return Err(row.error); }
      var client := ValidateClientSecret(clients, clientId, secret, now);
      r := RedeemRefresh(clientId, client.value, token, row.value, now, draw, signer);
    }

    /** `verified`: the jti of the token when it verifies as a JWT for this server, as the signer answers. */
    method RevokeToken(clientId: Text, secret: Option<string>, token: string, tokenTypeHint: Option<string>, verified: Option<string>, now: int)
      returns (r: Result<(), OidcError>)
      modifies this`db
      ensures r.Err? ==> r == Err(InvalidClient) && db == old(db)
      ensures r.Ok? <==>
        && ValidateClientSecret(clients, clientId, secret, now).Some?
        && (token in old(db).refreshTokens ==> old(db).refreshTokens[token].clientId == clientId)
        && (token !in old(db).refreshTokens && Revocable(old(db), verified) ==>
              old(db).accessRecords[verified.value].clientId in {None, Some(clientId)})
      ensures r.Ok? ==>
        if token in old(db).refreshTokens then
          db == RevokeRefresh(AddRevocation(old(db), old(db).refreshTokens[token].jti,
                                               if tokenTypeHint.Some? then tokenTypeHint.value else "refresh_token"), token)
        else if Revocable(old(db), verified) then
          db == AddRevocation(old(db), verified.value, if tokenTypeHint.Some? then tokenTypeHint.value else "access_token")
        else db == old(db)
    {
      if ValidateClientSecret(clients, clientId, secret, now).None? { return Err(InvalidClient); }
      if token in db.refreshTokens {
        if db.refreshTokens[token].clientId != clientId { return Err(InvalidClient); }
        db := AddRevocation(db, db.refreshTokens[token].jti, if tokenTypeHint.Some? then tokenTypeHint.value else "refresh_token");
        db := RevokeRefresh(db, token);
        return Ok(());
      }
      if Revocable(db, verified) {
        var owner := db.accessRecords[verified.value].clientId;
        if owner.Some? && owner.value != clientId { return Err(InvalidClient); }
        db := AddRevocation(db, verified.value, if tokenTypeHint.Some? then tokenTypeHint.value else "access_token");
      }
      return Ok(());
    }
  }

  /** A record that revocation by access token finds: of a verified jti, and of type access_token. */
  predicate Revocable(db: Tables, verified: Option<string>) {
    && verified.Some? && verified.value != "" && verified.value in db.accessRecords
    && db.accessRecords[verified.value].tokenType == "access_token"
  }
}
