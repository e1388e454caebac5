# A verified model of AuthAny's token state machines

AuthAny issues, rotates, exchanges and revokes tokens over two stores: SQL rows and Redis keys with a time to live. This
project models those state machines in Dafny, over one explicit millisecond clock, and proves what they guarantee over
every run. Where a guarantee holds only under a condition, the exact condition is proved, with a run that breaks the
guarantee once the condition fails.

Services that change state are classes whose methods are proved against functions on rows and cells. Where requests
interleave, the same functions are the steps of a state machine: `OidcRuns`, `KeyRotation`, `Replay` and `ExchangeRuns`
let any number of requests run at once, one database statement or Redis command at a time, with the clock running between
any two steps; `GuardedRuns` and `SignedRuns` put two of these machines together. Files, by subject:

- Canonical JSON: `Json` (values and both printers), `JsonDecoder` (the inverse), `JsonCanonical` (injective, and canonical
  exactly for comparators without ties), `ContextPolicy` (shape walk and limits).
- The store and its counters: `Redis`, `RateLimit`, `Login`, `Replay`.
- Signing keys: `Keys` (records, admin operations, lookups), `KeyRotation` (rotation against signing, interleaved).
- OAuth: `Scopes`, `Clients`, `Oidc` (the endpoints), `OidcRuns` (lineages of codes and refresh tokens, interleaved),
  `OidcGrants` (one holder per lineage, and what each token was issued for), `OidcRevocation` (access tokens and families).
- Delegation: `Directory` (rows, lookups, agent and credential administration), `Requester` (assertions), `Broker` (the
  cache of signed tokens), `Exchange` (one uninterrupted exchange), `ExchangeRuns` (any number of them), `ExchangeAnswers`
  (what is authorised is answered), `GuardedRuns` (exchanges behind the replay guard), `SignedRuns` (exchanges while keys
  rotate), `Verifiers` (server and SDK checks), `Repair` (the tightening script).
- `Text` (UTF-16 strings) and `Wrappers` are shared.

Assumptions, each visible in the code. SHA-256 in base64url is an injective function with no empty value. Stored hashes
are identified with the secrets they were made from, and opaque tokens with their hashes. Signatures cannot be forged, so
a token is its claims. Random identifiers are parameters that are fresh where the real ones are. `localeCompare` is a
comparator parameter, constrained only where a theorem says so. A key written with a TTL of n seconds at time t exists on
`[t, t + 1000n)`, and a JWT is accepted while `floor(now / 1000) < exp`. Where `findFirst` has several rows to choose from,
any of them may be returned.

Where the repository's own README and its code differ, the model follows the code. `README.md:34` promises that a replayed
refresh token revokes its family; the code does so only for the loser of a race for the same row. Over every run such a
revocation ends a lineage if and only if none of its exchanges is in flight past its compare-and-set
(`OidcRevocation.FamilyRevocationEndsIff`, `OidcRevocation.GoesOnIffWinner`), and races that end with the family revoked and
the lineage going on exist (`OidcRevocation.RaceCanOutliveRevocation`). `README.md:53` calls the rate limiting
sliding-window; the windows are fixed. At most `limit` in every interval holds if and only if the limit is 0 or 1
(`RateLimit.SlidingWindowIff`), and the exact bound is `2 * limit - 1` (`RateLimit.SlidingBound`,
`RateLimit.SlidingBoundReached`).

## Model

| member | source | states |
|---|---|---|
| JsonCanonical.SerializeRoundTrip | server/src/shared/utils/stable-json.ts:1-17 | decoding the canonical text of any well-formed value gives the value with its keys sorted at every depth, and uses up the text |
| JsonCanonical.SerializeDetermines | server/src/shared/utils/stable-json.ts:5-17 | whatever the comparator, two values with one canonical text are equal up to key order at every depth |
| JsonCanonical.SerializeIsCanonical | server/src/shared/utils/stable-json.ts:5-17 | for a comparator without ties on the keys present, texts are equal if and only if the values are equal up to key order |
| JsonCanonical.CanonicalIffStrict | server/src/shared/utils/stable-json.ts:15 | over a set of keys the printer is canonical exactly when the comparator has no tie among them |
| JsonCanonical.TieShowsOrder | server/src/shared/utils/stable-json.ts:13-16 | two keys that tie make the text depend on property order: equal values, different texts |
| JsonCanonical.SortSorts | server/src/shared/utils/stable-json.ts:15 | sorting the entries orders them by the comparator |
| JsonDecoder.StringifyRoundTrip | server/src/shared/utils/stable-json.ts:6-8 | a printed value decodes to itself and leaves exactly the text that followed it (RFC 8259 sections 2 and 7) |
| JsonDecoder.StringRoundTrip | server/src/shared/utils/stable-json.ts:16 | string escaping, lone surrogates included, is undone by the decoder, so it is injective |
| ContextPolicy.SummarizeJsonShape | server/src/modules/delegation/delegation-policy.service.ts:132-151 | the accumulator walk returns the starting depth plus the tree's height, and its number of nodes |
| ContextPolicy.AssertExternalContextPolicy | server/src/modules/delegation/delegation-policy.service.ts:94-121 | a context passes exactly when mode and provider allow it and depth, nodes and canonical text are within 4, 64 and 4096; which refusals come from mode and provider |
| ContextPolicy.CanonicalLength | server/src/modules/delegation/delegation-policy.service.ts:118-120 | the canonical text has the length of JSON.stringify, so the limit on one bounds the other |
| ContextPolicy.NodesWithinLength | server/src/modules/delegation/delegation-policy.service.ts:114-120 | a value without undefined, as every parsed one is, has at least one unit of text per node |
| ContextPolicy.UndefinedNodesHaveNoText | server/src/modules/delegation/delegation-policy.service.ts:137-148 | a value built in code, with undefined properties no parsed body has, can have more nodes than text: the bound above is one on parsed values |
| Redis.RedisService.Set | server/src/shared/redis/redis.service.ts:26-33 | a written cell expires after its TTL, and a zero or missing TTL leaves it without expiry; a failed write changes nothing |
| Redis.RedisService.SetIfAbsent | server/src/shared/redis/redis.service.ts:43-46 | true exactly when no live cell was there, and only then is the cell written |
| Redis.RedisService.Increment | server/src/shared/redis/redis.service.ts:48-55 | the count of a live cell grows and keeps its expiry; a dead one restarts at 1 with a new TTL |
| RateLimit.RateLimitService.AssertAllowed | server/src/shared/rate-limit/rate-limit.service.ts:13-41 | a call is allowed exactly while the counter it incremented is within the limit; a denial raises one alert |
| RateLimit.SlidingBound | server/src/shared/rate-limit/rate-limit.service.ts:33-41 | any sequence of calls admits at most 2 * limit - 1 on one key in any half-open interval as long as the window |
| RateLimit.SlidingBoundReached | server/src/shared/rate-limit/rate-limit.service.ts:33-41 | for every limit and window an orderly run reaches 2 * limit - 1, so the bound is exact |
| RateLimit.SlidingWindowIff | server/src/shared/rate-limit/rate-limit.service.ts:33-41 | at most `limit` calls in every interval as long as the window, over all orderly runs, if and only if the limit is 0 or 1 |
| RateLimit.WindowAdmitsFirst | server/src/shared/redis/redis.service.ts:48-55 | one counter window admits exactly its first calls up to the limit, and denied calls do not move its end |
| RateLimit.LimitZero | server/src/shared/rate-limit/rate-limit.service.ts:40 | with limit 0 nothing is admitted |
| Login.AuthService.Login | server/src/modules/auth/auth.service.ts:28-95 | the answer and the whole new store: limited, locked, failed or logged in, a success clearing the failures and a failure counting |
| Login.AuthService.RecordFailedLogin | server/src/modules/auth/auth.service.ts:101-109 | the failure that reaches the threshold sets the lock and deletes the counter |
| Login.LockHolds | server/src/modules/auth/auth.service.ts:37-46 | while a lock is live every attempt on the username is refused, and the lock cell stays as it is |
| Login.LockoutBound | server/src/modules/auth/auth.service.ts:37-113 | from any store whose counter is below the threshold, fifteen minutes without a success see at most eight failed password checks of a username key |
| Login.StaysBelowThreshold | server/src/modules/auth/auth.service.ts:101-109 | any attempts keep the counter below the threshold, so every store reached from one without counters is such a store |
| Login.LockoutBoundReached | server/src/modules/auth/auth.service.ts:101-109 | a run with eight such failures exists, so the bound is exact |
| Replay.ReplayProtectionService.AssertNotReplayed | server/src/modules/delegation/replay-protection.service.ts:15-28 | a request id passes exactly when the store answers and holds no live key for it; passing takes the key |
| Replay.AtMostOnceIffCovered | server/src/modules/delegation/replay-protection.service.ts:15-28 | in every run each request id passes at most once if and only if the guard's TTL covers 300 s plus the longest delay from verification to guard |
| Replay.SecondUsePasses | server/src/modules/delegation/target-token-exchange.service.ts:42-66 | with a shorter TTL there is a run in which one assertion passes twice |
| Keys.KeysService.Create | server/src/modules/admin/keys/keys.service.ts:30-44 | only RS256; a new record is pending and disturbs no other |
| Keys.KeysService.Activate | server/src/modules/admin/keys/keys.service.ts:46-68 | uninterrupted, an activation leaves exactly one active key, the one asked for, and the former one verifying |
| Keys.KeysService.Retire | server/src/modules/admin/keys/keys.service.ts:70-79 | one record is retired and stamped; at most one key stays active |
| Keys.OneActiveKey | server/src/modules/admin/keys/keys.service.ts:46-79 | over any run of whole operations at most one key is active, and the signer's choice is exactly it |
| Keys.NeverPendingAgain | server/src/modules/admin/keys/keys.service.ts:30-79 | no key returns to pending and none is deleted |
| Keys.PublishedIsAcceptedIffAgreed | server/src/shared/security/token-signer.service.ts:73-157 | at every instant and for every key table, publication of a kid and its acceptance by verification agree if and only if the kid's records past pending are all usable or all not |
| Keys.PublishedIsAccepted | server/src/shared/security/token-signer.service.ts:73-157 | so with distinct kids the JWKS document lists exactly the kids that verification accepts |
| Keys.SharedKidMayBeRefused | server/src/shared/security/token-signer.service.ts:116-127 | a kid shared with a long retired record is published and may yet be refused |
| KeyRotation.NeverStrandedIffSlack | server/src/shared/security/token-signer.service.ts:31-54 | over every interleaving no unexpired token loses its key if and only if the two lags add up to at most 60001 ms |
| KeyRotation.SlackSuffices | server/src/shared/security/token-signer.service.ts:144-157 | the grace period of the longest lifetime plus 60 s outlasts every token of a key retired within the lags |
| KeyRotation.SlackIsNeeded | server/src/shared/security/token-signer.service.ts:151-156 | with one millisecond more of lag there is a run that strands a token in its last millisecond |
| KeyRotation.VerifiesIffKidUnshared | server/src/shared/security/token-signer.service.ts:111-130 | within the slack an unexpired token verifies whatever record the lookup picks if and only if no other record past pending has its kid |
| KeyRotation.TokensVerifyUntilExpiry | server/src/shared/security/token-signer.service.ts:111-157 | with fresh kids and lags within the slack every token verifies until it expires |
| KeyRotation.OneActiveIffEnded | server/src/modules/admin/keys/keys.service.ts:46-79 | over every interleaving no prefix of a run leaves two active keys if and only if, between the promotions of any two different keys, some activation demotes or the first key is retired |
| KeyRotation.OneAtATimeKeepsOneActive | server/src/modules/admin/keys/keys.service.ts:46-68 | activations that do not overlap keep one active key, whatever else interleaves with them |
| KeyRotation.InterleavedActivationsLeaveTwoActive | server/src/modules/admin/keys/keys.service.ts:46-68 | runs that leave two active keys exist: two activations, both demoting before either promotes |
| Scopes.JoinRoundTrip | server/src/modules/oidc/oidc.service.ts:387-405 | scope words joined and split again are the same words in the same order |
| Scopes.EffectiveScopeWords | server/src/modules/oidc/oidc.service.ts:387-405 | the issued scope's words are exactly the requested ones the client may have, in order |
| Scopes.EffectiveScopeTwice | server/src/modules/oidc/oidc.service.ts:387-405 | refreshing under the same allow-list narrows nothing further |
| Clients.ValidateRedirectUris | server/src/modules/admin/applications/applications.service.ts:259-265 | accepts exactly a list that is not empty and holds only allowed, non-blank URIs; the result is the trimmed ones, each once |
| Clients.ApplicationsService.Create | server/src/modules/admin/applications/applications.service.ts:53-94 | created exactly with a name and valid redirect URIs: active, with the default grants and scopes and one active secret |
| Clients.ApplicationsService.Update | server/src/modules/admin/applications/applications.service.ts:96-129 | the fields given are replaced, if name and redirect URIs are valid; the admin client keeps its status and redirect URIs; which refusal when |
| Clients.ApplicationsService.RotateSecret | server/src/modules/admin/applications/applications.service.ts:158-183 | every earlier secret is revoked and one new one added; never for the admin client |
| Clients.ApplicationsService.Delete | server/src/modules/admin/applications/applications.service.ts:185-211 | deletion needs the name confirmed, revokes every secret, and is refused for the admin client |
| Clients.LastSecretAuthenticates | server/src/modules/oidc/oauth-client-validation.ts:75-108 | after any run of admin calls exactly the last secret issued authenticates, while the client is usable, at any time |
| Clients.DeletedForGood | server/src/modules/admin/applications/applications.service.ts:185-226 | a deleted client never authenticates again |
| Clients.AdminClientProtected | server/src/modules/admin/applications/applications.service.ts:267-283 | over any run the protected admin client stays usable and keeps its secrets |
| Oidc.ValidateAuthorizationRequest | server/src/modules/oidc/oauth-client-validation.ts:18-73 | a code request is accepted exactly for an active client with this redirect URI, the code grant, S256, and only allowed scope words |
| Oidc.AcceptedScopeIsGranted | server/src/modules/oidc/oidc.service.ts:387-405 | an accepted request is granted exactly the words it asked for, under an unchanged allow-list |
| Oidc.OidcService.CreateAuthorizationCode | server/src/modules/oidc/oidc.service.ts:73-103 | a code is created exactly for a logged-in operator and an accepted request, and carries only allowed scope words |
| Oidc.OidcService.CheckCode | server/src/modules/oidc/oidc.service.ts:118-135 | the checks before the compare-and-set pass exactly for an accepted code of an authenticated client with the grant |
| Oidc.OidcService.RedeemCode | server/src/modules/oidc/oidc.service.ts:137-165 | a lost compare-and-set issues nothing and changes nothing; a won one consumes the code |
| Oidc.OidcService.ExchangeAuthorizationCode | server/src/modules/oidc/oidc.service.ts:105-165 | an accepted code is consumed and answered once, and no longer accepted afterwards; any other changes nothing |
| Oidc.OidcService.RedeemRefresh | server/src/modules/oidc/oidc.service.ts:195-222 | only a lost compare-and-set revokes the operator's active refresh tokens |
| Oidc.OidcService.ExchangeRefreshToken | server/src/modules/oidc/oidc.service.ts:167-222 | an accepted token is replaced by its successor; presenting a used one is refused and leaves the family alone |
| Oidc.OidcService.IssueStandardTokens | server/src/modules/oidc/oidc.service.ts:381-463 | the admin scope takes an active platform_admin role; otherwise one record and one refresh token with the effective scope, which stay when only the id token cannot be signed |
| Oidc.OidcService.RevokeToken | server/src/modules/oidc/oidc.service.ts:282-323 | revocation succeeds exactly for the client's own or unknown tokens; what is filed, and under which type |
| Oidc.OidcService.CheckRefresh | server/src/modules/oidc/oidc.service.ts:180-193 | the checks before the rotation pass exactly for an active, unexpired token of the authenticated client with the grant |
| OidcRuns.HoldersHandOn | server/src/modules/oidc/oidc.service.ts:121-149 | a step hands a lineage from one holder to one holder: each holder after it stems from one before it, and no two from the same |
| OidcRuns.HoldersNeverIncrease | server/src/modules/oidc/oidc.service.ts:121-149 | under any interleaving, active code plus winners in flight plus active refresh tokens of a code never increase |
| OidcRuns.SpentForGood | server/src/modules/oidc/oidc.service.ts:195-208 | a used code or refresh token never becomes active again |
| OidcRuns.CodeIsIssued | server/src/modules/oidc/oidc.service.ts:73-103 | an accepted authorization request can always be carried to its code |
| OidcRuns.CodeIsTaken | server/src/modules/oidc/oidc.service.ts:105-149 | the holder of an active, unexpired code with the right client can always win its compare-and-set |
| OidcRuns.WinnerIsAnswered | server/src/modules/oidc/oidc.service.ts:381-442 | a winner whose issue is allowed can always be carried to an active refresh token of its lineage |
| OidcGrants.LineageHasOneHolder | server/src/modules/oidc/oidc.service.ts:182-208 | in every reachable state of any interleaving that sum is at most 1 (RFC 6749 section 4.1.2, RFC 9700 section 4.14) |
| OidcGrants.OneSuccessor | server/src/modules/oidc/oidc.service.ts:137-149 | a code, and each refresh token, yields at most one refresh token |
| OidcGrants.RefreshTokensNarrow | server/src/modules/oidc/oidc.service.ts:387-442 | in every reachable state each refresh token descends from a used parent with its client and operator; its scope is within the parent's, the code's and the client's allow-list at the step that read the client; with the admin scope the operator held the admin role at the step that checked it |
| OidcGrants.AccessTokensNarrow | server/src/modules/oidc/oidc.service.ts:394-433 | the same for every access-token record, whose roles were all held at the role check |
| OidcGrants.CodesWithinAllowList | server/src/modules/oidc/oidc.service.ts:73-103 | each code's scope was within its client's allow-list at the step that accepted its request |
| OidcGrants.HistoryIsTrue | server/src/modules/oidc/oidc.service.ts:105-222 | the recorded moments are the clients, the roles and the clock that the run's steps found |
| OidcRevocation.RevokedIntrospectsInactive | server/src/modules/oidc/oidc.service.ts:325-348 | once an access token is revoked every later introspection says inactive, whatever runs in between |
| OidcRevocation.RevokedStaysInactive | server/src/shared/security/token-status.service.ts:8-25 | with no hint or the right one every later status check is negative too |
| OidcRevocation.HintDecides | server/src/modules/oidc/oidc.service.ts:312 | the status check sees the revocation if and only if the hint is absent or "access_token" |
| OidcRevocation.ActiveOnlyByIssue | server/src/modules/oidc/oidc.service.ts:434-442 | over any run, a refresh token active at the end was active at the start or was issued on the way by an exchange |
| OidcRevocation.GoesOnIffWinner | server/src/modules/oidc/oidc.service.ts:195-208 | a lineage with its code used and no active refresh token can have one again if and only if one of its exchanges has won and is still in flight |
| OidcRevocation.FamilyRevocationEndsIff | server/src/modules/oidc/oidc.service.ts:205-208 | at any point of any interleaving a family revocation ends a lineage of the operator, for every later run, if and only if no exchange of that lineage is in flight past its compare-and-set |
| OidcRevocation.RaceCanOutliveRevocation | server/src/modules/oidc/oidc.service.ts:501-512 | from every state with an acceptable token two refreshes can race so that the loser revokes the family and the lineage goes on |
| Directory.AgentsService.Update | server/src/modules/admin/agents/agents.service.ts:69-87 | only undeleted agents change, to the fields given; nothing deleted or revoked returns |
| Directory.AgentsService.Delete | server/src/modules/admin/agents/agents.service.ts:89-118 | deletion needs the name confirmed, ends the agent for good, and leaves it no fitting credential |
| Directory.CallerCredentialsService.CreateForAgent | server/src/modules/admin/caller-credentials/caller-credentials.service.ts:30-71 | a credential is added for an active agent only, bound to the active runtime named or to none |
| Directory.CallerCredentialsService.Revoke | server/src/modules/admin/caller-credentials/caller-credentials.service.ts:73-97 | the credential is unusable for good, and no other row changes |
| Directory.ClientCallsEvolve | server/src/modules/admin/applications/applications.service.ts:158-211 | no admin call on applications brings back a deleted client or a revoked secret |
| Directory.RotationEndsSecrets | server/src/modules/admin/applications/applications.service.ts:158-171 | a rotation makes every earlier secret of the client unusable for good |
| Requester.AgentRoundTrip | server/src/modules/delegation/target-token-exchange.service.ts:107-124 | an agent's assertion reads back as that agent if and only if the id does not end in white space |
| Requester.ApplicationRoundTrip | server/src/modules/delegation/target-token-exchange.service.ts:107-124 | the same for an application's assertion |
| Requester.CallerCredentialService.RequireActiveForAgent | server/src/modules/delegation/caller-credential.service.ts:16-46 | a fitting credential, the named one if one is named; none only if none fits |
| Requester.CallerCredentialService.AuthenticateAgentSecret | server/src/modules/delegation/caller-credential.service.ts:48-88 | success names an active agent, its runtime and a fitting credential with this secret; with at most ten fitting, refusal means none has it |
| Requester.RequesterTokenService.IssueAgent | server/src/modules/delegation/requester-token.service.ts:49-97 | an issued assertion names what was authenticated, lives 300 s, and reads back as that agent |
| Requester.RequesterTokenService.IssueApplication | server/src/modules/delegation/requester-token.service.ts:99-161 | the same for an application and the live secret presented |
| Broker.KeyDetermines | server/src/modules/delegation/delegation-token-broker.service.ts:129-147 | contexts with one cache key agree in all eleven values |
| Broker.KeyedTokensAlike | server/src/modules/delegation/delegation-token-broker.service.ts:56-73 | a token made for one request carries the claims of any other request with the same key, the external context as a JSON value |
| Broker.TargetTokenBrokerService.ReadReusable | server/src/modules/delegation/delegation-token-broker.service.ts:100-122 | answers a reusable entry and deletes one that is unreadable or within the threshold |
| Broker.TargetTokenBrokerService.GetOrIssue | server/src/modules/delegation/delegation-token-broker.service.ts:56-98 | hit, miss or backend error with the whole new store; on a sound cache the token carries the claims asked for and the cache stays sound |
| Broker.EntryOutlivesTokenIff | server/src/modules/delegation/delegation-token-broker.service.ts:124-127 | a cache entry outlives its token exactly for a lifetime of 0, or of 1 begun inside a second |
| Broker.HitReportsWithin | server/src/modules/delegation/delegation-token-broker.service.ts:115-121 | a hit reports between the threshold and the signed lifetime, and its token is unexpired |
| Broker.MissOverreports | server/src/modules/delegation/delegation-token-broker.service.ts:75-97 | a miss over-reports what is left by less than a second |
| Broker.ReusedIffLifetimeExceedsThreshold | server/src/modules/delegation/delegation-token-broker.service.ts:115-119 | a written token is ever reused if and only if its lifetime exceeds the threshold |
| Exchange.IssuedToAgentIsAdmitted | server/src/modules/delegation/requester-token.service.ts:72-84 | an assertion just issued to an agent passes the exchange's reading and its principal, runtime and credential checks on the same rows |
| Exchange.IssuedToApplicationIsAdmitted | server/src/modules/delegation/requester-token.service.ts:137-148 | the same for an application and the secret it presented |
| Exchange.ResolveTokenTtl | server/src/modules/delegation/delegation-policy.service.ts:123-125 | the lifetime is the smaller of the configured and the connection's |
| Exchange.RequestIsConsistent | server/src/modules/delegation/target-token-exchange.service.ts:190-213 | on both paths the cache context names everything the claims say |
| Exchange.DelegationPolicyService.FindConnection | server/src/modules/delegation/delegation-policy.service.ts:30-80 | an eligible connection, and none only if none is eligible |
| Exchange.DelegationPolicyService.FindActiveGrant | server/src/modules/delegation/delegation-policy.service.ts:82-92 | an unexpired active allow-grant of the connection, and none only if there is none |
| Exchange.FindSecret | server/src/modules/delegation/target-token-exchange.service.ts:250-258 | a live secret, the named one if one is named; none only if none fits |
| Exchange.TargetTokenExchangeService.FindRoute | server/src/modules/delegation/target-token-exchange.service.ts:175-188 | a connection that is eligible and accepts the context, with a live grant; what each refusal means |
| Exchange.TargetTokenExchangeService.AuthoriseAgent | server/src/modules/delegation/target-token-exchange.service.ts:138-188 | success means every check holds of the rows as they are; which row is missing for each refusal |
| Exchange.TargetTokenExchangeService.AuthoriseApplication | server/src/modules/delegation/target-token-exchange.service.ts:231-270 | the same on the application path |
| Exchange.TargetTokenExchangeService.Admit | server/src/modules/delegation/target-token-exchange.service.ts:48-66 | each of the four refusals exactly when its own call fails or refuses, limiter before guard; passes exactly within the rate limit and for a request id without a live replay key, and takes both |
| Exchange.TargetTokenExchangeService.Exchange | server/src/modules/delegation/target-token-exchange.service.ts:31-87 | a success was authorised in full, carries the claims asked for whether cached or new, used its request id up, and added a record exactly when it signed; a refusal adds none |
| ExchangeRuns.ReturnsAreAuthorised | server/src/modules/delegation/target-token-exchange.service.ts:68-86 | over every interleaving each check of a returned token held at a step between its exchange's start and its return, hit or miss |
| ExchangeRuns.ReturnsAreTransparent | server/src/modules/delegation/target-token-exchange.service.ts:189-213 | over every interleaving a returned token carries the claims its own exchange would have signed |
| ExchangeRuns.ReturnsLiveLongEnough | server/src/modules/delegation/delegation-token-broker.service.ts:115-121 | a signed token has the lifetime its connection allows; a cached one had more than the threshold left when read |
| ExchangeRuns.GoneNeverReturns | server/src/modules/admin/agents/agents.service.ts:89-133 | once an agent or application is deleted, or the credential or secret an assertion names is revoked or rotated away, no exchange started later returns a token, warm cache included |
| ExchangeRuns.SigningsAreRecorded | server/src/modules/delegation/target-token-exchange.service.ts:338-361 | every signing is recorded, lost to a failed write or still pending, exactly one of these; without failures records are the signings |
| ExchangeRuns.HitSignsNothing | server/src/modules/delegation/delegation-token-broker.service.ts:63-73 | a hit returns the stored token and leaves signings and records as they are |
| ExchangeAnswers.AuthorisedIsAnswered | server/src/modules/delegation/target-token-exchange.service.ts:68-87 | from every state whose rows authorise a request some run answers it: with the cached token if the cache has a reusable one, and otherwise with a newly signed one |
| ExchangeAnswers.SecondIsCachedIff | server/src/modules/delegation/delegation-token-broker.service.ts:56-97 | with nothing cached, one run answers two assertions of a principal: the first with a new token, the second with the same one if and only if its lifetime exceeds the reuse threshold |
| ExchangeAnswers.SomeRunReturnsHit | server/src/modules/delegation/delegation-token-broker.service.ts:63-73 | an injective digest, rows and a run that returns a cached token exist, so the results on runs are about something |
| GuardedRuns.OneTokenEachIffCovered | server/src/modules/delegation/replay-protection.service.ts:15-28 | over every run of guard and exchanges together one assertion yields at most one token, if and only if the guard's TTL covers 300 s plus the longest delay from verification to guard |
| GuardedRuns.ExchangesRun | server/src/modules/delegation/target-token-exchange.service.ts:42-87 | the exchanges of a guarded run are a run of exchanges, so the results on those hold behind the guard |
| SignedRuns.ReturnsVerifyIffKidUnshared | server/src/shared/security/token-signer.service.ts:31-157 | over every run of exchanges beside rotations and retirements with lags within the slack, an unexpired token that an exchange returned, cached or new, verifies if and only if no other record past pending has its kid |
| SignedRuns.ReturnsVerifyUntilExpiry | server/src/shared/security/token-signer.service.ts:111-157 | so with distinct kids a returned token verifies until it expires |
| Verifiers.VerifyForTargetResource | server/src/modules/target-verification/target-token-verifier.service.ts:15-58 | answers exactly for an active target, a token that verifies for its audience, and claims that pass |
| Verifiers.SdkAcceptsIff | packages/sdk/src/verifier.ts:117-181 | the SDK's checks accept exactly payloads with the token use, all registered claims, a subject made of prefix and principal id, a target, and the expected one if one is expected |
| Verifiers.SdkIsServerAndExtra | packages/sdk/src/verifier.ts:117-171 | for one target the SDK accepts exactly what the server accepts and a stated extra asks for, over all payloads |
| Verifiers.ServerAloneAccepts | server/src/modules/target-verification/target-token-verifier.service.ts:29-46 | payloads with every registered claim that the server accepts and the SDK refuses: an array as subject, and a bare prefix beside the other principal's id |
| Verifiers.EmptyExpectationIsNone | packages/sdk/src/verifier.ts:140 | an empty expected target is no expectation |
| Verifiers.TokenPassesServer | server/src/modules/delegation/target-token-exchange.service.ts:203-211 | an exchange's token passes the server's checks for its target exactly when its principal's id is not empty |
| Verifiers.TokenPassesSdk | server/src/modules/delegation/target-token-exchange.service.ts:284-291 | and the SDK's, exactly when no registered claim is empty or zero either |
| Verifiers.ReturnsPassServer | server/src/modules/target-verification/target-token-verifier.service.ts:27-46 | the same for every token returned in any run, cached or fresh |
| Verifiers.ReturnsPassSdk | packages/sdk/src/verifier.ts:117-161 | likewise for the SDK |
| Repair.SecurityTightenData.FindActiveOldestFirst | server/scripts/security-tighten-data.ts:23-30 | lists exactly the active targets of an audience, oldest first |
| Repair.SecurityTightenData.KeepOldest | server/scripts/security-tighten-data.ts:31-36 | of one audience's active targets exactly one of the oldest stays active, and no other audience changes |
| Repair.SecurityTightenData.Tighten | server/scripts/security-tighten-data.ts:9-80 | what the whole pass leaves of targets, grants and connections, and its three counts |
| Repair.NothingLeft | server/scripts/security-tighten-data.ts:9-73 | after a pass no two active targets share an audience, every active grant expires, and no active connection is weak |
| Repair.OldestSurvives | server/scripts/security-tighten-data.ts:22-37 | every audience that had an active target keeps exactly one, one of its oldest |
| Repair.SecondPassIsIdle | server/scripts/security-tighten-data.ts:9-73 | a second pass, whenever it comes, changes nothing |

## Left out

- Controllers, DTO validation, cookies, pages, headers, metrics, audit text, environment parsing, the admin and demo web
  applications, the CLI and the SDK's HTTP client.
- Cryptography and random generation: symbolic, as described above. The signer is a flag that says whether a key is active.
- `exchangeClientCredentials`, `getUserInfo`, the claims of id tokens and nonces: they add members of the kinds already here.
- The rate-limit calls of the OAuth endpoints: the limiter is modelled, and its verdict precedes what is modelled there.
- Which eligible row `findFirst` prefers, and where the database puts a null: any eligible row may come back.
- Crashes between `INCR` and `EXPIRE`, and outages of Redis or Postgres other than the explicit error outcomes.
- `undefined` inside arrays and the number -0; numbers are their printed forms.
- Claims of a requester assertion that are not strings: the issuer signs none.
- Provider allow-lists of connections that hold anything but strings.
- In interleaved exchanges the clock a query compares with is read at the query's own step. The replay guard's part is in
  `GuardedRuns`; the rate limit is passed before the first step.
- Creation of agents, runtimes, targets, connections and grants as services: in `ExchangeRuns` administration may change
  those rows in any way that brings back nothing deleted or revoked.
- Invariants the code does not keep: unique audiences across reactivation, and a lifetime cap on tokens cached before their
  connection's cap was lowered.
- Clients.ApplicationsService.Update: descriptions are not modelled.
- Directory.AgentsService.Update: the status comes trimmed; descriptions are not modelled.
- Keys.KeysService.Activate: the database keeps the row between the read and the write.
