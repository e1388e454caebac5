/**
 Any number of authorization requests, code exchanges, refreshes and revocations at once: each database statement
 is a step, and steps of different requests interleave freely with changes to clients and roles. Every
 authorization code starts a lineage; of its code, its exchanges in flight and its refresh tokens at most one can
 ever produce a successor.
 */
module OidcRuns {
  import opened Wrappers
  import opened Text
  import opened Scopes
  import opened Clients
  import opened Oidc

  /** What an issue was made from. */
  datatype Parent = FromCode(code: string) | FromRefresh(token: string)

  /** The authenticated client of a request, as read at step `readAt`. */
  datatype Caller = Caller(clientId: Text, client: Client, readAt: nat)

  /** What an exchange that won its compare-and-set will issue. `root` is the code its lineage started from. */
  datatype Issue = Issue(parent: Parent, root: string, operatorId: string, scope: string, caller: Caller)

  /** A request between two of its statements. */
  datatype Flight =
    | Requested(requesterId: string, query: AuthorizeInput, requestedAt: nat)
    | Authenticated(caller: Caller)
    | CodeRead(code: string, codeRow: CodeRow, caller: Caller)
    | RefreshRead(token: string, refreshRow: RefreshRow, caller: Caller)
    | RaceLost(loserId: string)
    | Won(issue: Issue)
    | Cleared(issue: Issue, roles: seq<string>, rolesAt: nat)
    | Recorded(issue: Issue, rolesAt: nat)
    | RevocationNoted(token: string)

  /** Where an issued token comes from, and the steps at which its issue read the client and the roles. */
  datatype Grounds = Grounds(parent: Parent, root: string, readAt: nat, rolesAt: nat)

  /** Clients, active role codes by operator, and the clock as one step saw them. */
  datatype Moment = Moment(clients: Clients, roles: map<string, seq<string>>, now: int)

  /** Grounds are kept beside refresh tokens, by token, and access records, by jti; beside codes, the step of their request. */
  datatype State = State(now: int, clients: Clients, roles: map<string, seq<string>>, db: Tables, flights: map<nat, Flight>,
                         origins: map<string, Grounds>, grounds: map<string, Grounds>, requests: map<string, nat>, history: seq<Moment>)

  datatype Action =
    | Advance(ms: nat)
    | SetClients(newClients: Clients)
    | SetRoles(operatorId: string, codes: seq<string>)
    | RequestCode(p: nat, requesterId: string, query: AuthorizeInput)
    | InsertCode(p: nat, code: string)
    | Authenticate(p: nat, clientId: Text, secret: Option<string>)
    | ReadCode(p: nat, code: string)
    | TakeCode(p: nat)
    | ReadRefresh(p: nat, token: string)
    | TakeRefresh(p: nat)
    | RevokeLosersFamily(p: nat)
    | CheckRoles(p: nat)
    | RecordAccess(p: nat, jti: string)
    | RecordRefresh(p: nat, token: string, jti: string)
    | Abort(p: nat)
    | NoteRevocation(p: nat, token: string, hint: Option<string>)
    | FinishRevocation(p: nat)
    | RevokeAccess(p: nat, jti: string, hint: Option<string>)

  const START: State := State(0, map[], map[], Tables(map[], map[], map[], {}), map[], map[], map[], map[], [])

  function Present(s: State): Moment { Moment(s.clients, s.roles, s.now) }

  predicate FreeSlot(s: State, p: nat) { p !in s.flights }

  /** `ReadCode` goes on with whatever redirect URI and verifier the request's checks accept; `Abort` is any failure. */
  predicate Enabled(s: State, a: Action) {
    match a
    case Advance(_) => true
    case SetClients(_) => true
    case SetRoles(_, _) => true
    case RequestCode(p, _, query) => FreeSlot(s, p) && ValidateAuthorizationRequest(s.clients, query).Ok?
    case InsertCode(p, code) => p in s.flights && s.flights[p].Requested? && code !in s.db.codes && code !in s.requests
    case Authenticate(p, clientId, secret) => FreeSlot(s, p) && ValidateClientSecret(s.clients, clientId, secret, s.now).Some?
    case ReadCode(p, code) =>
      p in s.flights && s.flights[p].Authenticated? && "authorization_code" in s.flights[p].caller.client.allowedGrantTypes
      && code in s.db.codes && s.db.codes[code].status == CodeActive && s.db.codes[code].expiresAt >= s.now
      && s.db.codes[code].clientId == s.flights[p].caller.clientId
    case TakeCode(p) => p in s.flights && s.flights[p].CodeRead? && s.flights[p].code in s.db.codes
    case ReadRefresh(p, token) =>
      p in s.flights && s.flights[p].Authenticated? && "refresh_token" in s.flights[p].caller.client.allowedGrantTypes
      && RefreshAccepted(s.db, token, s.flights[p].caller.clientId, s.now)
    case TakeRefresh(p) =>
      p in s.flights && s.flights[p].RefreshRead? && s.flights[p].token in s.db.refreshTokens && s.flights[p].token in s.origins
    case RevokeLosersFamily(p) => p in s.flights && s.flights[p].RaceLost?
    case CheckRoles(p) => p in s.flights && s.flights[p].Won?
    case RecordAccess(p, jti) => p in s.flights && s.flights[p].Cleared? && jti !in s.db.accessRecords && jti !in s.grounds
    case RecordRefresh(p, token, _) => p in s.flights && s.flights[p].Recorded? && token !in s.db.refreshTokens && token !in s.origins
    case Abort(p) => p in s.flights
    case NoteRevocation(p, token, _) =>
      p in s.flights && s.flights[p].Authenticated? && token in s.db.refreshTokens
      && s.db.refreshTokens[token].clientId == s.flights[p].caller.clientId
    case FinishRevocation(p) => p in s.flights && s.flights[p].RevocationNoted? && s.flights[p].token in s.db.refreshTokens
    case RevokeAccess(p, jti, _) =>
      p in s.flights && s.flights[p].Authenticated? && Revocable(s.db, Some(jti))
      && s.db.accessRecords[jti].clientId in {None, Some(s.flights[p].caller.clientId)}
  }

  function Or(hint: Option<string>, default: string): string {
    if hint.Some? then hint.value else default
  }

  /** The clock and the changes to clients and roles belong to no request. */
  predicate OfRequest(a: Action) { !a.Advance? && !a.SetClients? && !a.SetRoles? }

  function Clear(s: State, f: Flight): Option<Flight>
    requires f.Won?
  {
    var i := f.issue;
    if MayIssue(s.roles, i.operatorId, i.scope, i.caller.client.allowedScopes) then
      Some(Cleared(i.(scope := EffectiveScope(i.scope, i.caller.client.allowedScopes)),
                   RolesFor(s.roles, i.operatorId, i.scope, i.caller.client.allowedScopes), |s.history|))
    else None
  }

  function Take(s: State, f: Flight): Option<Flight>
    requires f.CodeRead? && f.code in s.db.codes
  {
    if s.db.codes[f.code].status == CodeActive
    then Some(Won(Issue(FromCode(f.code), f.code, f.codeRow.operatorId, f.codeRow.scope, f.caller)))
    else None
  }

  function Rotate(s: State, f: Flight): Flight
    requires f.RefreshRead? && f.token in s.db.refreshTokens && f.token in s.origins
  {
    if s.db.refreshTokens[f.token].status == RefreshActive
    then Won(Issue(FromRefresh(f.token), s.origins[f.token].root, f.refreshRow.operatorId, f.refreshRow.scope, f.caller))
    else RaceLost(f.refreshRow.operatorId)
  }

  /** What a step makes of its request; None when the request ends. */
  function Moved(s: State, a: Action): Option<Flight>
    requires Enabled(s, a) && OfRequest(a)
  {
    match a
    case RequestCode(_, requesterId, query) => Some(Requested(requesterId, query, |s.history|))
    case Authenticate(_, clientId, _) => Some(Authenticated(Caller(clientId, s.clients[clientId], |s.history|)))
    case ReadCode(p, code) => Some(CodeRead(code, s.db.codes[code], s.flights[p].caller))
    case TakeCode(p) => Take(s, s.flights[p])
    case ReadRefresh(p, token) => Some(RefreshRead(token, s.db.refreshTokens[token], s.flights[p].caller))
    case TakeRefresh(p) => Some(Rotate(s, s.flights[p]))
    case CheckRoles(p) => Clear(s, s.flights[p])
    case RecordAccess(p, _) => Some(Recorded(s.flights[p].issue, s.flights[p].rolesAt))
    case NoteRevocation(_, token, _) => Some(RevocationNoted(token))
    case _ => None
  }

  function FlightsAfter(s: State, a: Action): map<nat, Flight>
    requires Enabled(s, a)
  {
    if !OfRequest(a) then s.flights
    else
      match Moved(s, a)
      case None => s.flights - {a.p}
      case Some(g) => s.flights[a.p := g]
  }

  function NewCode(cfg: OidcConfig, s: State, f: Flight): CodeRow
    requires f.Requested?
  {
    CodeRow(f.query.clientId, f.requesterId, f.query.redirectUri, f.query.scope, f.query.codeChallenge, f.query.codeChallengeMethod,
            CodeActive, s.now + cfg.authCodeTtlSeconds * 1000)
  }

  function DbAfter(cfg: OidcConfig, s: State, a: Action): Tables
    requires Enabled(s, a)
  {
    match a
    case InsertCode(p, code) => s.db.(codes := s.db.codes[code := NewCode(cfg, s, s.flights[p])])
    case TakeCode(p) => ConsumeCode(s.db, s.flights[p].code)
    case TakeRefresh(p) => RotateRefresh(s.db, s.flights[p].token)
    case RevokeLosersFamily(p) => RevokeFamily(s.db, s.flights[p].loserId)
    case RecordAccess(p, jti) =>
      var i := s.flights[p].issue;
      AddRecord(s.db, cfg, i.caller.clientId, i.operatorId, i.scope, s.flights[p].roles, s.now, jti)
    case RecordRefresh(p, token, jti) =>
      var i := s.flights[p].issue;
      AddRefresh(s.db, cfg, i.caller.clientId, i.operatorId, i.scope, s.now, token, jti)
    case NoteRevocation(_, token, hint) => AddRevocation(s.db, s.db.refreshTokens[token].jti, Or(hint, "refresh_token"))
    case FinishRevocation(p) => RevokeRefresh(s.db, s.flights[p].token)
    case RevokeAccess(_, jti, hint) => AddRevocation(s.db, jti, Or(hint, "access_token"))
    case _ => s.db
  }

  function GroundsOf(f: Flight): Grounds
    requires f.Cleared? || f.Recorded?
  {
    Grounds(f.issue.parent, f.issue.root, f.issue.caller.readAt, f.rolesAt)
  }

  /** Every step leaves the moment it was made at in the history. */
  function Apply(cfg: OidcConfig, s: State, a: Action): State
    requires Enabled(s, a)
  {
    State(if a.Advance? then s.now + a.ms else s.now,
          if a.SetClients? then a.newClients else s.clients,
          if a.SetRoles? then s.roles[a.operatorId := a.codes] else s.roles,
          DbAfter(cfg, s, a),
          FlightsAfter(s, a),
          if a.RecordRefresh? then s.origins[a.token := GroundsOf(s.flights[a.p])] else s.origins,
          if a.RecordAccess? then s.grounds[a.jti := GroundsOf(s.flights[a.p])] else s.grounds,
          if a.InsertCode? then s.requests[a.code := s.flights[a.p].requestedAt] else s.requests,
          s.history + [Present(s)])
  }

  /** The state reached from `s` by a list of actions, if each is possible in its turn. */
  function Run(cfg: OidcConfig, s: State, acts: seq<Action>): Option<State>
    decreases |acts|
  {
    if acts == [] then Some(s)
    else if Enabled(s, acts[0]) then Run(cfg, Apply(cfg, s, acts[0]), acts[1..])
    else None
  }

  // ---------- what a step keeps ----------

  predicate Exists(db: Tables, parent: Parent) {
    match parent
    case FromCode(code) => code in db.codes
    case FromRefresh(token) => token in db.refreshTokens
  }

  /** The parent has been used: its status is no longer active. */
  predicate Spent(db: Tables, parent: Parent) {
    match parent
    case FromCode(code) => code in db.codes && db.codes[code].status != CodeActive
    case FromRefresh(token) => token in db.refreshTokens && db.refreshTokens[token].status != RefreshActive
  }

  /** What never changes in a row and passes from parent to child: client, operator, scope. */
  datatype Terms = Terms(clientId: Text, operatorId: string, scope: string)

  function TermsOf(db: Tables, parent: Parent): Terms
    requires Exists(db, parent)
  {
    match parent
    case FromCode(code) => Terms(db.codes[code].clientId, db.codes[code].operatorId, db.codes[code].scope)
    case FromRefresh(token) => Terms(db.refreshTokens[token].clientId, db.refreshTokens[token].operatorId, db.refreshTokens[token].scope)
  }

  ghost predicate CodesKept(before: Tables, after: Tables) {
    forall code :: code in before.codes ==>
      code in after.codes && after.codes[code].(status := CodeConsumed) == before.codes[code].(status := CodeConsumed)
      && (before.codes[code].status != CodeActive ==> after.codes[code].status != CodeActive)
  }

  ghost predicate RefreshKept(before: Tables, after: Tables) {
    forall token :: token in before.refreshTokens ==>
      token in after.refreshTokens
      && after.refreshTokens[token].(status := RefreshRevoked) == before.refreshTokens[token].(status := RefreshRevoked)
      && (before.refreshTokens[token].status != RefreshActive ==> after.refreshTokens[token].status != RefreshActive)
  }

  ghost predicate RowsKept(before: Tables, after: Tables) {
    && CodesKept(before, after) && RefreshKept(before, after)
    && Kept(before.accessRecords, after.accessRecords) && before.revocations <= after.revocations
  }

  ghost predicate Kept<K(!new), V>(before: map<K, V>, after: map<K, V>) {
    forall k :: k in before ==> k in after && after[k] == before[k]
  }

  /** Rows keep their terms, used ones stay used, and nothing recorded is forgotten. */
  ghost predicate Follows(s: State, s': State) {
    && RowsKept(s.db, s'.db) && Kept(s.origins, s'.origins) && Kept(s.grounds, s'.grounds) && Kept(s.requests, s'.requests)
    && s.history <= s'.history
  }

  lemma StepKeepsCodes(cfg: OidcConfig, s: State, a: Action)
    requires Enabled(s, a)
    ensures CodesKept(s.db, DbAfter(cfg, s, a))
  {
  }

  lemma StepKeepsRefresh(cfg: OidcConfig, s: State, a: Action)
    requires Enabled(s, a)
    ensures RefreshKept(s.db, DbAfter(cfg, s, a))
  {
  }

  lemma StepKeepsRows(cfg: OidcConfig, s: State, a: Action)
    requires Enabled(s, a)
    ensures RowsKept(s.db, DbAfter(cfg, s, a))
  {
    StepKeepsCodes(cfg, s, a);
    StepKeepsRefresh(cfg, s, a);
  }

  lemma StepFollows(cfg: OidcConfig, s: State, a: Action)
    requires Enabled(s, a)
    ensures Follows(s, Apply(cfg, s, a))
  {
    StepKeepsRows(cfg, s, a);
  }

  lemma {:induction false} RunFollows(cfg: OidcConfig, s: State, acts: seq<Action>)
    requires Run(cfg, s, acts).Some?
    ensures Follows(s, Run(cfg, s, acts).value)
    decreases |acts|
  {
    if acts != [] {
      StepFollows(cfg, s, acts[0]);
      RunFollows(cfg, Apply(cfg, s, acts[0]), acts[1..]);
      FollowsOn(s, Apply(cfg, s, acts[0]), Run(cfg, s, acts).value);
    }
  }

  lemma FollowsOn(s: State, mid: State, s': State)
    requires Follows(s, mid) && Follows(mid, s')
    ensures Follows(s, s')
  {
  }

  /** A used code or refresh token never becomes active again. */
  lemma SpentForGood(cfg: OidcConfig, s: State, acts: seq<Action>, parent: Parent)
    requires Spent(s.db, parent) && Run(cfg, s, acts).Some?
    ensures Spent(Run(cfg, s, acts).value.db, parent)
  {
    RunFollows(cfg, s, acts);
  }

  // ---------- who can still produce a successor ----------

  datatype Holder = HeldByCode(code: string) | HeldInFlight(p: nat) | HeldByRefresh(token: string)

  predicate InIssue(f: Flight) { f.Won? || f.Cleared? || f.Recorded? }

  predicate Holds(s: State, root: string, h: Holder) {
    match h
    case HeldByCode(code) => code == root && code in s.db.codes && s.db.codes[code].status == CodeActive
    case HeldInFlight(p) => p in s.flights && InIssue(s.flights[p]) && s.flights[p].issue.root == root
    case HeldByRefresh(token) =>
      token in s.db.refreshTokens && s.db.refreshTokens[token].status == RefreshActive && token in s.origins && s.origins[token].root == root
  }

  function Holders(s: State, root: string): (r: set<Holder>)
    ensures forall h :: h in r <==> Holds(s, root, h)
  {
    (set code | code in s.db.codes && Holds(s, root, HeldByCode(code)) :: HeldByCode(code))
    + (set p | p in s.flights && Holds(s, root, HeldInFlight(p)) :: HeldInFlight(p))
    + (set token | token in s.db.refreshTokens && Holds(s, root, HeldByRefresh(token)) :: HeldByRefresh(token))
  }

  /** The holder before a step that a holder after it stems from. */
  function Source(s: State, a: Action, h: Holder): Holder
    requires Enabled(s, a)
  {
    match a
    case TakeCode(p) => if h == HeldInFlight(p) then HeldByCode(s.flights[p].code) else h
    case TakeRefresh(p) => if h == HeldInFlight(p) then HeldByRefresh(s.flights[p].token) else h
    case RecordRefresh(p, token, _) => if h == HeldByRefresh(token) then HeldInFlight(p) else h
    case _ => h
  }

  lemma CodeHandOn(cfg: OidcConfig, s: State, a: Action, root: string)
    requires Enabled(s, a) && root in s.db.codes && Holds(Apply(cfg, s, a), root, HeldByCode(root))
    ensures Holds(s, root, HeldByCode(root))
  {
    StepKeepsCodes(cfg, s, a);
  }

  lemma FlightHandOn(cfg: OidcConfig, s: State, a: Action, root: string, p: nat)
    requires Enabled(s, a) && Holds(Apply(cfg, s, a), root, HeldInFlight(p))
    ensures Holds(s, root, Source(s, a, HeldInFlight(p)))
  {
  }

  lemma RefreshHandOn(cfg: OidcConfig, s: State, a: Action, root: string, token: string)
    requires Enabled(s, a) && Holds(Apply(cfg, s, a), root, HeldByRefresh(token))
    ensures Holds(s, root, Source(s, a, HeldByRefresh(token)))
  {
    StepKeepsRefresh(cfg, s, a);
  }

  /** The winner takes the holding from what it used, and the new token takes it from its exchange. */
  lemma HoldingLeavesSource(cfg: OidcConfig, s: State, a: Action, root: string, h: Holder)
    requires Enabled(s, a) && Source(s, a, h) != h && Holds(Apply(cfg, s, a), root, h)
    ensures !Holds(Apply(cfg, s, a), root, Source(s, a, h))
  {
  }

  /** A step hands a lineage on from one holder to one holder, or drops it; it never makes a second. */
  lemma HoldersHandOn(cfg: OidcConfig, s: State, a: Action, root: string, h: Holder, k: Holder)
    requires Enabled(s, a) && root in s.db.codes
    requires Holds(Apply(cfg, s, a), root, h) && Holds(Apply(cfg, s, a), root, k)
    ensures Holds(s, root, Source(s, a, h))
    ensures Source(s, a, h) == Source(s, a, k) ==> h == k
  {
    match h
    case HeldByCode(_) => CodeHandOn(cfg, s, a, root);
    case HeldInFlight(p) => FlightHandOn(cfg, s, a, root, p);
    case HeldByRefresh(token) => RefreshHandOn(cfg, s, a, root, token);
    if Source(s, a, h) != h { HoldingLeavesSource(cfg, s, a, root, h); }
    if Source(s, a, k) != k { HoldingLeavesSource(cfg, s, a, root, k); }
  }

  lemma {:induction false} InjectionBounds(s: State, a: Action, after: set<Holder>, before: set<Holder>)
    requires Enabled(s, a)
    requires forall h :: h in after ==> Source(s, a, h) in before
    requires forall h, k :: h in after && k in after && Source(s, a, h) == Source(s, a, k) ==> h == k
    ensures |after| <= |before|
    decreases |after|
  {
    if after != {} {
      var h :| h in after;
      InjectionBounds(s, a, after - {h}, before - {Source(s, a, h)});
    }
  }

  lemma HoldersStep(cfg: OidcConfig, s: State, a: Action, root: string)
    requires Enabled(s, a) && root in s.db.codes
    ensures |Holders(Apply(cfg, s, a), root)| <= |Holders(s, root)|
  {
    var after, before := Holders(Apply(cfg, s, a), root), Holders(s, root);
    forall h, k | h in after && k in after ensures Source(s, a, h) in before && (Source(s, a, h) == Source(s, a, k) ==> h == k) {
      HoldersHandOn(cfg, s, a, root, h, k);
    }
    InjectionBounds(s, a, after, before);
  }

  /**
   Conservation, the falling half: from any state on, over any interleaving, the number of ways a lineage can go
   on never increases.
   */
  lemma {:induction false} HoldersNeverIncrease(cfg: OidcConfig, s: State, acts: seq<Action>, root: string)
    requires root in s.db.codes && Run(cfg, s, acts).Some?
    ensures root in Run(cfg, s, acts).value.db.codes
    ensures |Holders(Run(cfg, s, acts).value, root)| <= |Holders(s, root)|
    decreases |acts|
  {
    if acts != [] {
      HoldersStep(cfg, s, acts[0], root);
      StepKeepsCodes(cfg, s, acts[0]);
      HoldersNeverIncrease(cfg, Apply(cfg, s, acts[0]), acts[1..], root);
    }
  }

  // ---------- longer runs ----------

  lemma Extend(cfg: OidcConfig, s0: State, acts: seq<Action>, s: State, a: Action) returns (acts': seq<Action>, s': State)
    requires Run(cfg, s0, acts) == Some(s) && Enabled(s, a)
    ensures acts' == acts + [a] && s' == Apply(cfg, s, a) && Run(cfg, s0, acts') == Some(s')
  {
    acts', s' := acts + [a], Apply(cfg, s, a);
    RunAppend(cfg, s0, acts, a);
  }

  lemma {:induction false} RunAppend(cfg: OidcConfig, s0: State, acts: seq<Action>, a: Action)
    requires Run(cfg, s0, acts).Some? && Enabled(Run(cfg, s0, acts).value, a)
    ensures Run(cfg, s0, acts + [a]) == Some(Apply(cfg, Run(cfg, s0, acts).value, a))
    decreases |acts|
  {
    if acts == [] {
      assert [] + [a] == [a];
      assert [a][1..] == [];
    } else {
      assert (acts + [a])[1..] == acts[1..] + [a];
      RunAppend(cfg, Apply(cfg, s0, acts[0]), acts[1..], a);
    }
  }

  lemma {:induction false} LongestExists(strings: set<string>) returns (x: string)
    requires strings != {}
    ensures x in strings && forall y :: y in strings ==> |y| <= |x|
    decreases |strings|
  {
    x :| x in strings;
    var rest := strings - {x};
    assert forall y :: y in strings ==> y == x || y in rest;
    if rest != {} {
      var y := LongestExists(rest);
      if |x| <= |y| { x := y; }
    }
  }

  lemma FreshString(strings: set<string>) returns (x: string)
    ensures x !in strings
  {
    if strings == {} {
      x := "";
    } else {
      var y := LongestExists(strings);
      x := y + "x";
    }
  }

  /** An accepted authorization request gets its code. */
  lemma CodeIsIssued(cfg: OidcConfig, s: State, p: nat, requesterId: string, query: AuthorizeInput)
    returns (acts: seq<Action>, s': State, code: string)
    requires FreeSlot(s, p) && ValidateAuthorizationRequest(s.clients, query).Ok?
    ensures Run(cfg, s, acts) == Some(s') && code !in s.db.codes && code in s'.db.codes
    ensures s'.db.codes[code] == CodeRow(query.clientId, requesterId, query.redirectUri, query.scope, query.codeChallenge, "S256",
                                         CodeActive, s.now + cfg.authCodeTtlSeconds * 1000)
    ensures FreeSlot(s', p) && s'.clients == s.clients && s'.roles == s.roles && s'.now == s.now
  {
    acts, s' := Extend(cfg, s, [], s, RequestCode(p, requesterId, query));
    code := FreshString(s.db.codes.Keys + s.requests.Keys);
    acts, s' := Extend(cfg, s, acts, s', InsertCode(p, code));
  }

  /** Up to the compare-and-set that an undisturbed exchange wins. */
  lemma CodeIsTaken(cfg: OidcConfig, s: State, p: nat, code: string, secret: Option<string>) returns (acts: seq<Action>, s': State)
    requires FreeSlot(s, p) && code in s.db.codes && s.db.codes[code].status == CodeActive && s.db.codes[code].expiresAt >= s.now
    requires var clientId := s.db.codes[code].clientId;
      ValidateClientSecret(s.clients, clientId, secret, s.now).Some? && "authorization_code" in s.clients[clientId].allowedGrantTypes
    ensures Run(cfg, s, acts) == Some(s') && p in s'.flights && s'.flights[p].Won? && s'.roles == s.roles
    ensures var row, i := s.db.codes[code], s'.flights[p].issue;
      i.parent == FromCode(code) && i.root == code && i.operatorId == row.operatorId && i.scope == row.scope
      && i.caller.client == s.clients[row.clientId]
  {
    acts, s' := Extend(cfg, s, [], s, Authenticate(p, s.db.codes[code].clientId, secret));
    acts, s' := Extend(cfg, s, acts, s', ReadCode(p, code));
    acts, s' := Extend(cfg, s, acts, s', TakeCode(p));
  }

  /** From there, with the role if one is needed, to an active refresh token of the lineage. */
  lemma WinnerIsAnswered(cfg: OidcConfig, s: State, p: nat) returns (acts: seq<Action>, s': State, token: string)
    requires p in s.flights && s.flights[p].Won?
    requires var i := s.flights[p].issue; MayIssue(s.roles, i.operatorId, i.scope, i.caller.client.allowedScopes)
    ensures Run(cfg, s, acts) == Some(s') && Holds(s', s.flights[p].issue.root, HeldByRefresh(token))
    ensures s'.origins[token].parent == s.flights[p].issue.parent
  {
    acts, s' := Extend(cfg, s, [], s, CheckRoles(p));
    var jti := FreshString(s'.db.accessRecords.Keys + s'.grounds.Keys);
    acts, s' := Extend(cfg, s, acts, s', RecordAccess(p, jti));
    token := FreshString(s'.db.refreshTokens.Keys + s'.origins.Keys);
    acts, s' := Extend(cfg, s, acts, s', RecordRefresh(p, token, ""));
  }
}
