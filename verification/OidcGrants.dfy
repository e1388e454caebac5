/**
 What every reachable state of the interleaved OAuth endpoints satisfies: each issued token, refresh or access, was
 allowed by its client's row and its operator's roles at the steps that read them, and narrows what it came from;
 each code and refresh token has at most one successor.
 */
module OidcGrants {
  import opened Wrappers
  import opened Text
  import opened Scopes
  import opened Clients
  import opened Oidc
  import opened OidcRuns

  // ---------- what an issue went by ----------

  predicate HoldsRole(roles: map<string, seq<string>>, operatorId: string, role: string) {
    operatorId in roles && role in roles[operatorId]
  }

  /** The client's row as a step read it, if it had one. */
  predicate ClientSeen(h: seq<Moment>, k: nat, clientId: Text) { k < |h| && clientId in h[k].clients }

  /**
   Allowed when issued: the scope within the client's allow-list at the step that read the client, the roles held at
   the step that checked them, and among these the admin role if the admin scope is there.
   */
  ghost predicate Granted(h: seq<Moment>, g: Grounds, clientId: Text, operatorId: string, scope: string, roles: seq<string>) {
    && g.readAt < g.rolesAt < |h| && ClientSeen(h, g.readAt, clientId)
    && AllAllowed(Words(scope), h[g.readAt].clients[clientId].allowedScopes)
    && (forall role :: role in roles ==> HoldsRole(h[g.rolesAt].roles, operatorId, role))
    && (ADMIN_SCOPE in Words(scope) ==> HoldsRole(h[g.rolesAt].roles, operatorId, ADMIN_ROLE))
  }

  /** `parent` is the code `root` or descends from it. */
  predicate OfLineage(s: State, parent: Parent, root: string) {
    root in s.db.codes &&
    match parent
    case FromCode(code) => code == root
    case FromRefresh(token) => token in s.origins && s.origins[token].root == root
  }

  /** From a used parent of the lineage, with client and operator those of parent and code, and a scope within both theirs. */
  ghost predicate Descends(s: State, parent: Parent, root: string, clientId: Text, operatorId: string, scope: string) {
    && Spent(s.db, parent) && OfLineage(s, parent, root)
    && TermsOf(s.db, parent).clientId == s.db.codes[root].clientId == clientId
    && TermsOf(s.db, parent).operatorId == s.db.codes[root].operatorId == operatorId
    && Narrows(scope, TermsOf(s.db, parent).scope) && Narrows(scope, s.db.codes[root].scope)
  }

  ghost predicate Issued(s: State, g: Grounds, clientId: Text, operatorId: string, scope: string, roles: seq<string>) {
    Granted(s.history, g, clientId, operatorId, scope, roles) && Descends(s, g.parent, g.root, clientId, operatorId, scope)
  }

  // ---------- the invariant ----------

  predicate CallerSound(h: seq<Moment>, c: Caller) { ClientSeen(h, c.readAt, c.clientId) && h[c.readAt].clients[c.clientId] == c.client }

  ghost predicate FlightSound(s: State, f: Flight) {
    match f
    case Requested(_, query, k) =>
      ClientSeen(s.history, k, query.clientId) && AllAllowed(Words(query.scope), s.history[k].clients[query.clientId].allowedScopes)
    case Authenticated(caller) => CallerSound(s.history, caller)
    case CodeRead(code, row, caller) =>
      CallerSound(s.history, caller) && row.clientId == caller.clientId
      && code in s.db.codes && row.(status := CodeConsumed) == s.db.codes[code].(status := CodeConsumed)
    case RefreshRead(token, row, caller) =>
      CallerSound(s.history, caller) && row.clientId == caller.clientId
      && token in s.db.refreshTokens && row.(status := RefreshRevoked) == s.db.refreshTokens[token].(status := RefreshRevoked)
    case RaceLost(_) => true
    case Won(i) => CallerSound(s.history, i.caller) && Descends(s, i.parent, i.root, i.caller.clientId, i.operatorId, i.scope)
    case Cleared(i, roles, _) => Issued(s, GroundsOf(f), i.caller.clientId, i.operatorId, i.scope, roles)
    case Recorded(i, _) => Issued(s, GroundsOf(f), i.caller.clientId, i.operatorId, i.scope, [])
    case RevocationNoted(token) => token in s.db.refreshTokens
  }

  ghost predicate RefreshSound(s: State, token: string) {
    && token in s.db.refreshTokens && token in s.origins
    && var row := s.db.refreshTokens[token]; Issued(s, s.origins[token], row.clientId, row.operatorId, row.scope, [])
  }

  ghost predicate RecordSound(s: State, jti: string) {
    && jti in s.db.accessRecords && jti in s.grounds && s.db.accessRecords[jti].clientId.Some?
    && var row := s.db.accessRecords[jti]; Issued(s, s.grounds[jti], row.clientId.value, row.subjectId, row.scope, row.roles)
  }

  /** A code's scope was within its client's allow-list when the request for it was accepted. */
  ghost predicate CodeSound(s: State, code: string) {
    && code in s.db.codes && code in s.requests
    && var row := s.db.codes[code];
       ClientSeen(s.history, s.requests[code], row.clientId)
       && AllAllowed(Words(row.scope), s.history[s.requests[code]].clients[row.clientId].allowedScopes)
  }

  ghost predicate FlightsSound(s: State) { forall p :: p in s.flights ==> FlightSound(s, s.flights[p]) }

  ghost predicate RowsSound(s: State) {
    && s.origins.Keys == s.db.refreshTokens.Keys && s.grounds.Keys == s.db.accessRecords.Keys && s.requests.Keys == s.db.codes.Keys
    && (forall token :: token in s.origins ==> RefreshSound(s, token))
    && (forall jti :: jti in s.grounds ==> RecordSound(s, jti))
    && (forall code :: code in s.requests ==> CodeSound(s, code))
  }

  ghost predicate Sound(s: State) { FlightsSound(s) && RowsSound(s) }

  // ---------- kept by every step ----------

  lemma CallerLater(s: State, s': State, c: Caller)
    requires Follows(s, s') && CallerSound(s.history, c)
    ensures CallerSound(s'.history, c)
  {
    assert s'.history[c.readAt] == s.history[c.readAt];
  }

  lemma GrantedLater(s: State, s': State, g: Grounds, clientId: Text, operatorId: string, scope: string, roles: seq<string>)
    requires Follows(s, s') && Granted(s.history, g, clientId, operatorId, scope, roles)
    ensures Granted(s'.history, g, clientId, operatorId, scope, roles)
  {
    assert s'.history[g.readAt] == s.history[g.readAt] && s'.history[g.rolesAt] == s.history[g.rolesAt];
  }

  lemma ParentLater(s: State, s': State, parent: Parent)
    requires Follows(s, s') && Exists(s.db, parent)
    ensures Exists(s'.db, parent) && TermsOf(s'.db, parent) == TermsOf(s.db, parent)
    ensures Spent(s.db, parent) ==> Spent(s'.db, parent)
  {
  }

  lemma DescendsLater(s: State, s': State, parent: Parent, root: string, clientId: Text, operatorId: string, scope: string)
    requires Follows(s, s') && Descends(s, parent, root, clientId, operatorId, scope)
    ensures Descends(s', parent, root, clientId, operatorId, scope)
  {
    ParentLater(s, s', parent);
    ParentLater(s, s', FromCode(root));
  }

  lemma IssuedLater(s: State, s': State, g: Grounds, clientId: Text, operatorId: string, scope: string, roles: seq<string>)
    requires Follows(s, s') && Issued(s, g, clientId, operatorId, scope, roles)
    ensures Issued(s', g, clientId, operatorId, scope, roles)
  {
    GrantedLater(s, s', g, clientId, operatorId, scope, roles);
    DescendsLater(s, s', g.parent, g.root, clientId, operatorId, scope);
  }

  lemma FlightLater(s: State, s': State, f: Flight)
    requires Follows(s, s') && FlightSound(s, f)
    ensures FlightSound(s', f)
  {
    match f
    case Requested(_, _, k) => assert s'.history[k] == s.history[k];
    case Authenticated(caller) => CallerLater(s, s', caller);
    case CodeRead(_, _, caller) => CallerLater(s, s', caller);
    case RefreshRead(_, _, caller) => CallerLater(s, s', caller);
    case Won(i) =>
      CallerLater(s, s', i.caller);
      DescendsLater(s, s', i.parent, i.root, i.caller.clientId, i.operatorId, i.scope);
    case Cleared(i, roles, _) => IssuedLater(s, s', GroundsOf(f), i.caller.clientId, i.operatorId, i.scope, roles);
    case Recorded(i, _) => IssuedLater(s, s', GroundsOf(f), i.caller.clientId, i.operatorId, i.scope, []);
    case _ =>
  }

  lemma RefreshLater(s: State, s': State, token: string)
    requires Follows(s, s') && RefreshSound(s, token)
    ensures RefreshSound(s', token)
  {
    var row := s.db.refreshTokens[token];
    IssuedLater(s, s', s.origins[token], row.clientId, row.operatorId, row.scope, []);
  }

  lemma RecordLater(s: State, s': State, jti: string)
    requires Follows(s, s') && RecordSound(s, jti)
    ensures RecordSound(s', jti)
  {
    var row := s.db.accessRecords[jti];
    IssuedLater(s, s', s.grounds[jti], row.clientId.value, row.subjectId, row.scope, row.roles);
  }

  lemma CodeLater(s: State, s': State, code: string)
    requires Follows(s, s') && CodeSound(s, code)
    ensures CodeSound(s', code)
  {
    assert s'.history[s.requests[code]] == s.history[s.requests[code]];
  }

  // ---------- each request's own steps ----------

  lemma NarrowsOn(a: string, b: string, c: string)
    requires Narrows(a, b) && Narrows(b, c)
    ensures Narrows(a, c)
  {
  }

  /** A request's first step: the moment it reads is the one the step leaves. */
  lemma FirstStepSound(cfg: OidcConfig, s: State, a: Action)
    requires Enabled(s, a) && (a.RequestCode? || a.Authenticate?)
    ensures Moved(s, a).Some? && FlightSound(Apply(cfg, s, a), Moved(s, a).value)
  {
    assert (s.history + [Present(s)])[|s.history|] == Present(s);
  }

  lemma ReadStepSound(s: State, s': State, a: Action)
    requires Follows(s, s') && s'.db == s.db && Enabled(s, a) && (a.ReadCode? || a.ReadRefresh?) && FlightSound(s, s.flights[a.p])
    ensures Moved(s, a).Some? && FlightSound(s', Moved(s, a).value)
  {
    CallerLater(s, s', s.flights[a.p].caller);
  }

  /** The winner of a code: the code is its own parent and root. */
  lemma CodeTaken(s: State, s': State, f: Flight)
    requires Follows(s, s') && f.CodeRead? && FlightSound(s, f) && Take(s, f).Some? && s'.db == ConsumeCode(s.db, f.code)
    ensures FlightSound(s', Take(s, f).value)
  {
    CallerLater(s, s', f.caller);
  }

  /** The winner of a refresh token descends from it, and so from its code. */
  lemma RefreshTaken(s: State, s': State, f: Flight)
    requires Follows(s, s') && f.RefreshRead? && FlightSound(s, f) && RefreshSound(s, f.token) && s'.db == RotateRefresh(s.db, f.token)
    ensures FlightSound(s', Rotate(s, f))
  {
    CallerLater(s, s', f.caller);
    RefreshLater(s, s', f.token);
  }

  /** The role check keeps what the client may have, and the admin scope only with the role. */
  lemma RolesChecked(s: State, s': State, f: Flight)
    requires Follows(s, s') && f.Won? && FlightSound(s, f) && Clear(s, f).Some? && s'.db == s.db && s'.history == s.history + [Present(s)]
    ensures FlightSound(s', Clear(s, f).value)
  {
    var g := Clear(s, f).value;
    var i := f.issue;
    EffectiveScopeWords(i.scope, i.caller.client.allowedScopes);
    CallerLater(s, s', i.caller);
    DescendsLater(s, s', i.parent, i.root, i.caller.clientId, i.operatorId, i.scope);
    NarrowsOn(g.issue.scope, i.scope, TermsOf(s'.db, i.parent).scope);
    NarrowsOn(g.issue.scope, i.scope, s'.db.codes[i.root].scope);
    assert s'.history[|s.history|] == Present(s);
    assert Granted(s'.history, GroundsOf(g), i.caller.clientId, i.operatorId, g.issue.scope, g.roles);
  }

  lemma RecordStepSound(s: State, s': State, f: Flight)
    requires Follows(s, s') && f.Cleared? && FlightSound(s, f)
    ensures FlightSound(s', Recorded(f.issue, f.rolesAt))
  {
    IssuedLater(s, s', GroundsOf(f), f.issue.caller.clientId, f.issue.operatorId, f.issue.scope, f.roles);
  }

  lemma CodeTakenMoves(cfg: OidcConfig, s: State, a: Action)
    requires Enabled(s, a) && a.TakeCode? && Sound(s) && Moved(s, a).Some?
    ensures FlightSound(Apply(cfg, s, a), Moved(s, a).value)
  {
    StepFollows(cfg, s, a);
    assert FlightSound(s, s.flights[a.p]);
    CodeTaken(s, Apply(cfg, s, a), s.flights[a.p]);
  }

  lemma RefreshTakenMoves(cfg: OidcConfig, s: State, a: Action)
    requires Enabled(s, a) && a.TakeRefresh? && Sound(s) && Moved(s, a).Some?
    ensures FlightSound(Apply(cfg, s, a), Moved(s, a).value)
  {
    StepFollows(cfg, s, a);
    assert FlightSound(s, s.flights[a.p]) && RefreshSound(s, s.flights[a.p].token);
    RefreshTaken(s, Apply(cfg, s, a), s.flights[a.p]);
  }

  lemma RolesCheckedMoves(cfg: OidcConfig, s: State, a: Action)
    requires Enabled(s, a) && a.CheckRoles? && Sound(s) && Moved(s, a).Some?
    ensures FlightSound(Apply(cfg, s, a), Moved(s, a).value)
  {
    StepFollows(cfg, s, a);
    assert FlightSound(s, s.flights[a.p]);
    RolesChecked(s, Apply(cfg, s, a), s.flights[a.p]);
  }

  lemma RecordedMoves(cfg: OidcConfig, s: State, a: Action)
    requires Enabled(s, a) && a.RecordAccess? && Sound(s) && Moved(s, a).Some?
    ensures FlightSound(Apply(cfg, s, a), Moved(s, a).value)
  {
    StepFollows(cfg, s, a);
    assert FlightSound(s, s.flights[a.p]);
    RecordStepSound(s, Apply(cfg, s, a), s.flights[a.p]);
  }

  lemma ReadMoves(cfg: OidcConfig, s: State, a: Action)
    requires Enabled(s, a) && (a.ReadCode? || a.ReadRefresh?) && Sound(s) && Moved(s, a).Some?
    ensures FlightSound(Apply(cfg, s, a), Moved(s, a).value)
  {
    StepFollows(cfg, s, a);
    assert FlightSound(s, s.flights[a.p]);
    ReadStepSound(s, Apply(cfg, s, a), a);
  }

  lemma MovedSound(cfg: OidcConfig, s: State, a: Action)
    requires Sound(s) && Enabled(s, a) && OfRequest(a) && Moved(s, a).Some?
    ensures FlightSound(Apply(cfg, s, a), Moved(s, a).value)
  {
    if a.RequestCode? || a.Authenticate? { FirstStepSound(cfg, s, a); }
    else if a.TakeCode? { CodeTakenMoves(cfg, s, a); }
    else if a.TakeRefresh? { RefreshTakenMoves(cfg, s, a); }
    else if a.CheckRoles? { RolesCheckedMoves(cfg, s, a); }
    else if a.RecordAccess? { RecordedMoves(cfg, s, a); }
    else if a.ReadCode? || a.ReadRefresh? { ReadMoves(cfg, s, a); }
  }

  lemma FlightsStep(cfg: OidcConfig, s: State, a: Action)
    requires Sound(s) && Enabled(s, a)
    ensures FlightsSound(Apply(cfg, s, a))
  {
    var s' := Apply(cfg, s, a);
    forall p | p in s'.flights ensures FlightSound(s', s'.flights[p]) {
      if OfRequest(a) && a.p == p {
        MovedSound(cfg, s, a);
      } else {
        StepFollows(cfg, s, a);
        FlightLater(s, s', s.flights[p]);
      }
    }
  }

  lemma NewRefreshSound(cfg: OidcConfig, s: State, p: nat, token: string, jti: string)
    requires Enabled(s, RecordRefresh(p, token, jti)) && FlightSound(s, s.flights[p])
    ensures RefreshSound(Apply(cfg, s, RecordRefresh(p, token, jti)), token)
  {
    var f, s' := s.flights[p], Apply(cfg, s, RecordRefresh(p, token, jti));
    StepFollows(cfg, s, RecordRefresh(p, token, jti));
    IssuedLater(s, s', GroundsOf(f), f.issue.caller.clientId, f.issue.operatorId, f.issue.scope, []);
  }

  lemma NewRecordSound(cfg: OidcConfig, s: State, p: nat, jti: string)
    requires Enabled(s, RecordAccess(p, jti)) && FlightSound(s, s.flights[p])
    ensures RecordSound(Apply(cfg, s, RecordAccess(p, jti)), jti)
  {
    var f, s' := s.flights[p], Apply(cfg, s, RecordAccess(p, jti));
    StepFollows(cfg, s, RecordAccess(p, jti));
    IssuedLater(s, s', GroundsOf(f), f.issue.caller.clientId, f.issue.operatorId, f.issue.scope, f.roles);
  }

  lemma NewCodeSound(cfg: OidcConfig, s: State, p: nat, code: string)
    requires Enabled(s, InsertCode(p, code)) && FlightSound(s, s.flights[p])
    ensures CodeSound(Apply(cfg, s, InsertCode(p, code)), code)
  {
    assert (s.history + [Present(s)])[s.flights[p].requestedAt] == s.history[s.flights[p].requestedAt];
  }

  /** Rows and what is kept beside them appear together, one at a time. */
  lemma KeysAppear(cfg: OidcConfig, s: State, a: Action)
    requires Enabled(s, a) && s.origins.Keys == s.db.refreshTokens.Keys && s.grounds.Keys == s.db.accessRecords.Keys
    requires s.requests.Keys == s.db.codes.Keys
    ensures var s' := Apply(cfg, s, a);
      && s'.origins.Keys == s'.db.refreshTokens.Keys && s'.grounds.Keys == s'.db.accessRecords.Keys && s'.requests.Keys == s'.db.codes.Keys
  {
  }

  lemma RefreshStep(cfg: OidcConfig, s: State, a: Action, token: string)
    requires Sound(s) && Enabled(s, a) && token in Apply(cfg, s, a).origins
    ensures RefreshSound(Apply(cfg, s, a), token)
  {
    if token in s.origins {
      StepFollows(cfg, s, a);
      RefreshLater(s, Apply(cfg, s, a), token);
    } else {
      NewRefreshSound(cfg, s, a.p, token, a.jti);
    }
  }

  lemma RecordStep(cfg: OidcConfig, s: State, a: Action, jti: string)
    requires Sound(s) && Enabled(s, a) && jti in Apply(cfg, s, a).grounds
    ensures RecordSound(Apply(cfg, s, a), jti)
  {
    if jti in s.grounds {
      StepFollows(cfg, s, a);
      RecordLater(s, Apply(cfg, s, a), jti);
    } else {
      NewRecordSound(cfg, s, a.p, jti);
    }
  }

  lemma CodeStep(cfg: OidcConfig, s: State, a: Action, code: string)
    requires Sound(s) && Enabled(s, a) && code in Apply(cfg, s, a).requests
    ensures CodeSound(Apply(cfg, s, a), code)
  {
    if code in s.requests {
      StepFollows(cfg, s, a);
      CodeLater(s, Apply(cfg, s, a), code);
    } else {
      NewCodeSound(cfg, s, a.p, code);
    }
  }

  lemma RowsStep(cfg: OidcConfig, s: State, a: Action)
    requires Sound(s) && Enabled(s, a)
    ensures RowsSound(Apply(cfg, s, a))
  {
    var s' := Apply(cfg, s, a);
    KeysAppear(cfg, s, a);
    forall token | token in s'.origins ensures RefreshSound(s', token) { RefreshStep(cfg, s, a, token); }
    forall jti | jti in s'.grounds ensures RecordSound(s', jti) { RecordStep(cfg, s, a, jti); }
    forall code | code in s'.requests ensures CodeSound(s', code) { CodeStep(cfg, s, a, code); }
  }

  // ---------- one successor per parent ----------

  /** `h` is an issue from `parent`, in flight or completed. */
  predicate Claims(s: State, h: Holder, parent: Parent) {
    match h
    case HeldByCode(_) => false
    case HeldInFlight(p) => p in s.flights && InIssue(s.flights[p]) && s.flights[p].issue.parent == parent
    case HeldByRefresh(token) => token in s.origins && s.origins[token].parent == parent
  }

  ghost predicate OneClaim(s: State) {
    forall h, k, parent :: Claims(s, h, parent) && Claims(s, k, parent) ==> h == k
  }

  lemma ClaimedIsSpent(s: State, h: Holder, parent: Parent)
    requires Sound(s) && Claims(s, h, parent)
    ensures Spent(s.db, parent)
  {
    match h
    case HeldInFlight(p) => assert FlightSound(s, s.flights[p]);
    case HeldByRefresh(token) => assert RefreshSound(s, token);
  }

  /** The step by which an exchange wins its compare-and-set. */
  predicate Wins(s: State, a: Action, p: nat) {
    p in s.flights && ((a == TakeCode(p) && s.flights[p].CodeRead?) || (a == TakeRefresh(p) && s.flights[p].RefreshRead?))
  }

  /** A claim after a step was a claim before it, or is the win of an unspent parent. */
  lemma ClaimStems(cfg: OidcConfig, s: State, a: Action, h: Holder, parent: Parent)
    requires Enabled(s, a) && Claims(Apply(cfg, s, a), h, parent)
    ensures Claims(s, Source(s, a, h), parent) || (h.HeldInFlight? && Wins(s, a, h.p) && !Spent(s.db, parent))
    ensures !Claims(s, Source(s, a, h), parent) ==> !Spent(s.db, parent)
  {
  }

  lemma ClaimSourcesDiffer(cfg: OidcConfig, s: State, a: Action, h: Holder, k: Holder, parent: Parent)
    requires Enabled(s, a) && Claims(Apply(cfg, s, a), h, parent) && Claims(Apply(cfg, s, a), k, parent)
    requires Claims(s, Source(s, a, h), parent) && Claims(s, Source(s, a, k), parent) && Source(s, a, h) == Source(s, a, k)
    requires Spent(s.db, parent)
    ensures h == k
  {
  }

  /** One step wins at most once. */
  lemma OneWin(s: State, a: Action, h: Holder, k: Holder)
    requires h.HeldInFlight? && k.HeldInFlight? && Wins(s, a, h.p) && Wins(s, a, k.p)
    ensures h == k
  {
  }

  ghost predicate NoClaim(s: State, parent: Parent) { forall h :: !Claims(s, h, parent) }

  lemma UnspentUnclaimed(s: State, parent: Parent)
    requires Sound(s) && !Spent(s.db, parent)
    ensures NoClaim(s, parent)
  {
    forall h ensures !Claims(s, h, parent) {
      if Claims(s, h, parent) { ClaimedIsSpent(s, h, parent); }
    }
  }

  lemma OneClaimKept(cfg: OidcConfig, s: State, a: Action, h: Holder, k: Holder, parent: Parent)
    requires Sound(s) && OneClaim(s) && Enabled(s, a)
    requires Claims(Apply(cfg, s, a), h, parent) && Claims(Apply(cfg, s, a), k, parent)
    ensures h == k
  {
    ClaimStems(cfg, s, a, h, parent);
    ClaimStems(cfg, s, a, k, parent);
    if Spent(s.db, parent) {
      ClaimSourcesDiffer(cfg, s, a, h, k, parent);
    } else {
      UnspentUnclaimed(s, parent);
      OneWin(s, a, h, k);
    }
  }

  lemma OneClaimStep(cfg: OidcConfig, s: State, a: Action)
    requires Sound(s) && OneClaim(s) && Enabled(s, a)
    ensures OneClaim(Apply(cfg, s, a))
  {
    var s' := Apply(cfg, s, a);
    forall h, k, parent | Claims(s', h, parent) && Claims(s', k, parent) ensures h == k {
      OneClaimKept(cfg, s, a, h, k, parent);
    }
  }

  // ---------- one holder per lineage ----------

  ghost predicate OneHolder(s: State) {
    forall root :: root in s.db.codes ==> |Holders(s, root)| <= 1
  }

  ghost predicate Reached(s: State) { Sound(s) && OneClaim(s) && OneHolder(s) }

  /** A lineage has holders only if its code exists. */
  lemma HeldLineageExists(s: State, root: string, h: Holder)
    requires Sound(s) && Holds(s, root, h)
    ensures root in s.db.codes
  {
    match h
    case HeldByCode(_) =>
    case HeldInFlight(p) => assert FlightSound(s, s.flights[p]);
    case HeldByRefresh(token) => assert RefreshSound(s, token);
  }

  /** A new code is the only holder of its lineage. */
  lemma NewLineage(cfg: OidcConfig, s: State, p: nat, code: string)
    requires Sound(s) && Enabled(s, InsertCode(p, code))
    ensures |Holders(Apply(cfg, s, InsertCode(p, code)), code)| <= 1
  {
    var s' := Apply(cfg, s, InsertCode(p, code));
    forall h | h in Holders(s', code) ensures h == HeldByCode(code) {
      if Holds(s, code, h) { HeldLineageExists(s, code, h); }
    }
    SubsetOfOne(Holders(s', code), HeldByCode(code));
  }

  lemma SubsetOfOne(hs: set<Holder>, h: Holder)
    requires hs <= {h}
    ensures |hs| <= 1
  {
    if h in hs { assert hs == {h}; } else { assert hs == {}; }
  }

  /** Codes appear one at a time. */
  lemma CodesAppear(cfg: OidcConfig, s: State, a: Action, root: string)
    requires Enabled(s, a) && root in DbAfter(cfg, s, a).codes
    ensures root in s.db.codes || (a.InsertCode? && a.code == root)
  {
  }

  lemma OneHolderStep(cfg: OidcConfig, s: State, a: Action)
    requires Sound(s) && OneHolder(s) && Enabled(s, a)
    ensures OneHolder(Apply(cfg, s, a))
  {
    var s' := Apply(cfg, s, a);
    forall root | root in s'.db.codes ensures |Holders(s', root)| <= 1 {
      CodesAppear(cfg, s, a, root);
      if root in s.db.codes { HoldersStep(cfg, s, a, root); } else { NewLineage(cfg, s, a.p, root); }
    }
  }

  // ---------- over runs ----------

  lemma ReachedStep(cfg: OidcConfig, s: State, a: Action)
    requires Reached(s) && Enabled(s, a)
    ensures Reached(Apply(cfg, s, a))
  {
    RowsStep(cfg, s, a);
    FlightsStep(cfg, s, a);
    OneClaimStep(cfg, s, a);
    OneHolderStep(cfg, s, a);
  }

  lemma {:induction false} RunsAreReached(cfg: OidcConfig, s: State, acts: seq<Action>)
    requires Reached(s) && Run(cfg, s, acts).Some?
    ensures Reached(Run(cfg, s, acts).value)
    decreases |acts|
  {
    if acts != [] {
      ReachedStep(cfg, s, acts[0]);
      RunsAreReached(cfg, Apply(cfg, s, acts[0]), acts[1..]);
    }
  }

  lemma StartIsReached()
    ensures Reached(START)
  {
  }

  lemma ReachedFromStart(cfg: OidcConfig, acts: seq<Action>)
    requires Run(cfg, START, acts).Some?
    ensures Reached(Run(cfg, START, acts).value)
  {
    StartIsReached();
    RunsAreReached(cfg, START, acts);
  }

  /**
   Lineage conservation: under any interleaving, of the code still active, the exchanges that won their
   compare-and-set and the active refresh tokens of one lineage there is at most one.
   */
  lemma LineageHasOneHolder(cfg: OidcConfig, acts: seq<Action>, root: string)
    requires Run(cfg, START, acts).Some? && root in Run(cfg, START, acts).value.db.codes
    ensures |Holders(Run(cfg, START, acts).value, root)| <= 1
  {
    ReachedFromStart(cfg, acts);
  }

  lemma SameParentSameToken(s: State, t: string, u: string)
    requires OneClaim(s) && t in s.origins && u in s.origins && s.origins[t].parent == s.origins[u].parent
    ensures t == u
  {
    assert Claims(s, HeldByRefresh(t), s.origins[t].parent) && Claims(s, HeldByRefresh(u), s.origins[t].parent);
  }

  /** A code, and each refresh token, yields at most one refresh token. */
  lemma OneSuccessor(cfg: OidcConfig, acts: seq<Action>, t: string, u: string)
    requires Run(cfg, START, acts).Some?
    requires t in Run(cfg, START, acts).value.origins && u in Run(cfg, START, acts).value.origins
    requires Run(cfg, START, acts).value.origins[t].parent == Run(cfg, START, acts).value.origins[u].parent
    ensures t == u
  {
    ReachedFromStart(cfg, acts);
    SameParentSameToken(Run(cfg, START, acts).value, t, u);
  }

  /**
   Scope narrowing for refresh tokens: along any chain client and operator stay those of the code; the scope is within
   the parent's, the code's, and the client's allow-list at the step that read the client; and the admin scope is there
   only if the operator held the admin role at the step that checked it.
   */
  lemma RefreshTokensNarrow(cfg: OidcConfig, acts: seq<Action>, token: string)
    requires Run(cfg, START, acts).Some? && token in Run(cfg, START, acts).value.db.refreshTokens
    ensures var s := Run(cfg, START, acts).value;
      var row := s.db.refreshTokens[token];
      token in s.origins && Issued(s, s.origins[token], row.clientId, row.operatorId, row.scope, [])
  {
    ReachedFromStart(cfg, acts);
    assert RefreshSound(Run(cfg, START, acts).value, token);
  }

  /** The same for access tokens, by their records, whose roles were all held at the role check. */
  lemma AccessTokensNarrow(cfg: OidcConfig, acts: seq<Action>, jti: string)
    requires Run(cfg, START, acts).Some? && jti in Run(cfg, START, acts).value.db.accessRecords
    ensures var s := Run(cfg, START, acts).value;
      var row := s.db.accessRecords[jti];
      jti in s.grounds && row.clientId.Some? && Issued(s, s.grounds[jti], row.clientId.value, row.subjectId, row.scope, row.roles)
  {
    ReachedFromStart(cfg, acts);
    assert RecordSound(Run(cfg, START, acts).value, jti);
  }

  /** A code's scope was within its client's allow-list at the step that accepted its request. */
  lemma CodesWithinAllowList(cfg: OidcConfig, acts: seq<Action>, code: string)
    requires Run(cfg, START, acts).Some? && code in Run(cfg, START, acts).value.db.codes
    ensures var s := Run(cfg, START, acts).value;
      var row := s.db.codes[code];
      && code in s.requests && ClientSeen(s.history, s.requests[code], row.clientId)
      && AllAllowed(Words(row.scope), s.history[s.requests[code]].clients[row.clientId].allowedScopes)
  {
    ReachedFromStart(cfg, acts);
    assert CodeSound(Run(cfg, START, acts).value, code);
  }

  // ---------- the history is the run's own ----------

  /** The moment at index k is the clients, the roles and the clock that step k of the run found. */
  lemma {:induction false} HistoryIsTrue(cfg: OidcConfig, s: State, acts: seq<Action>, k: nat)
    requires Run(cfg, s, acts).Some? && k < |acts|
    ensures Run(cfg, s, acts[..k]).Some?
    ensures |s.history| + k < |Run(cfg, s, acts).value.history|
    ensures Run(cfg, s, acts).value.history[|s.history| + k] == Present(Run(cfg, s, acts[..k]).value)
    decreases |acts|
  {
    var mid := Apply(cfg, s, acts[0]);
    if k == 0 {
      RunFollows(cfg, mid, acts[1..]);
      assert mid.history[|s.history|] == Present(s);
      assert acts[..0] == [];
    } else {
      HistoryIsTrue(cfg, mid, acts[1..], k - 1);
      assert acts[..k][1..] == acts[1..][..k - 1];
    }
  }
}
