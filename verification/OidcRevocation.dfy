/**
 Revocation over runs of the interleaved OAuth endpoints: a revoked access token stays revoked, and a family
 revocation ends a lineage exactly when none of its exchanges has already won.
 */
module OidcRevocation {
  import opened Wrappers
  import opened Text
  import opened Scopes
  import opened Clients
  import opened Oidc
  import opened OidcRuns
  import opened OidcGrants

  // ---------- access tokens ----------

  /** Revoking a token by its jti is seen by every later introspection, whatever happens in between. */
  lemma RevokedIntrospectsInactive(cfg: OidcConfig, s: State, p: nat, jti: string, hint: Option<string>, acts: seq<Action>, now: int)
    requires Enabled(s, RevokeAccess(p, jti, hint)) && Run(cfg, Apply(cfg, s, RevokeAccess(p, jti, hint)), acts).Some?
    ensures !IntrospectsActive(Run(cfg, Apply(cfg, s, RevokeAccess(p, jti, hint)), acts).value.db, jti, now)
  {
    var s' := Apply(cfg, s, RevokeAccess(p, jti, hint));
    RunFollows(cfg, s', acts);
    assert (jti, Or(hint, "access_token")) in s'.db.revocations;
  }

  /** With no hint, or the right one, no later status check finds the token active either. */
  lemma RevokedStaysInactive(cfg: OidcConfig, s: State, p: nat, jti: string, hint: Option<string>, acts: seq<Action>, now: int)
    requires Enabled(s, RevokeAccess(p, jti, hint)) && Run(cfg, Apply(cfg, s, RevokeAccess(p, jti, hint)), acts).Some?
    requires hint.None? || hint.value == "access_token"
    ensures !IsActiveAccessToken(Run(cfg, Apply(cfg, s, RevokeAccess(p, jti, hint)), acts).value.db, jti, Some("access_token"), now)
  {
    RunFollows(cfg, Apply(cfg, s, RevokeAccess(p, jti, hint)), acts);
  }

  /**
   The hint decides: a revocation is filed under the hinted type, and the status check looks under "access_token".
   An active token is inactive for it after the revocation exactly when the hint is absent or "access_token".
   */
  lemma HintDecides(cfg: OidcConfig, s: State, p: nat, jti: string, hint: Option<string>)
    requires Enabled(s, RevokeAccess(p, jti, hint)) && IsActiveAccessToken(s.db, jti, Some("access_token"), s.now)
    ensures !IsActiveAccessToken(Apply(cfg, s, RevokeAccess(p, jti, hint)).db, jti, Some("access_token"), s.now)
            <==> hint.None? || hint.value == "access_token"
  {
  }

  // ---------- refresh tokens ----------

  /** Over any run, a refresh token that is active at its end was so at its start, or an exchange issued it on the way. */
  lemma {:induction false} ActiveOnlyByIssue(cfg: OidcConfig, s: State, acts: seq<Action>, token: string)
    requires Run(cfg, s, acts).Some? && token in Run(cfg, s, acts).value.db.refreshTokens
    requires Run(cfg, s, acts).value.db.refreshTokens[token].status == RefreshActive
    ensures (token in s.db.refreshTokens && s.db.refreshTokens[token].status == RefreshActive)
            || (token !in s.db.refreshTokens && exists a :: a in acts && a.RecordRefresh? && a.token == token)
    decreases |acts|
  {
    if acts != [] {
      assert Run(cfg, s, acts) == Run(cfg, Apply(cfg, s, acts[0]), acts[1..]);
      ActiveOnlyByIssue(cfg, Apply(cfg, s, acts[0]), acts[1..], token);
      StepKeepsRefresh(cfg, s, acts[0]);
      if token in Apply(cfg, s, acts[0]).db.refreshTokens { TokenAppears(cfg, s, acts[0], token); }
    }
  }

  lemma TokenAppears(cfg: OidcConfig, s: State, a: Action, token: string)
    requires Enabled(s, a) && token in DbAfter(cfg, s, a).refreshTokens
    ensures token in s.db.refreshTokens || (a.RecordRefresh? && a.token == token)
  {
  }

  // ---------- when a family revocation ends a lineage ----------

  ghost predicate HasActiveToken(s: State, root: string) { exists token :: Holds(s, root, HeldByRefresh(token)) }

  ghost predicate HasWinner(s: State, root: string) { exists p :: Holds(s, root, HeldInFlight(p)) }

  /** Some run from here leaves the lineage with an active refresh token. */
  ghost predicate CanGoOn(cfg: OidcConfig, s: State, root: string) {
    exists acts :: Run(cfg, s, acts).Some? && HasActiveToken(Run(cfg, s, acts).value, root)
  }

  /** A winner past its role check and its record issues its refresh token. */
  lemma RecordedGoesOn(cfg: OidcConfig, s: State, p: nat)
    requires p in s.flights && s.flights[p].Recorded?
    ensures CanGoOn(cfg, s, s.flights[p].issue.root)
  {
    var token := FreshString(s.db.refreshTokens.Keys + s.origins.Keys);
    var acts, s' := Extend(cfg, s, [], s, RecordRefresh(p, token, ""));
    assert Holds(s', s.flights[p].issue.root, HeldByRefresh(token));
  }

  lemma ClearedGoesOn(cfg: OidcConfig, s: State, p: nat)
    requires p in s.flights && s.flights[p].Cleared?
    ensures CanGoOn(cfg, s, s.flights[p].issue.root)
  {
    var jti := FreshString(s.db.accessRecords.Keys + s.grounds.Keys);
    RecordedGoesOn(cfg, Apply(cfg, s, RecordAccess(p, jti)), p);
    StepGoesOn(cfg, s, RecordAccess(p, jti), s.flights[p].issue.root);
  }

  /** A winner before its role check passes it once the operator has the admin role. */
  lemma WonGoesOn(cfg: OidcConfig, s: State, p: nat)
    requires p in s.flights && s.flights[p].Won?
    ensures CanGoOn(cfg, s, s.flights[p].issue.root)
  {
    var i := s.flights[p].issue;
    var grant := SetRoles(i.operatorId, [ADMIN_ROLE]);
    var granted := Apply(cfg, s, grant);
    assert MayIssue(granted.roles, i.operatorId, i.scope, i.caller.client.allowedScopes);
    ClearedGoesOn(cfg, Apply(cfg, granted, CheckRoles(p)), p);
    StepGoesOn(cfg, granted, CheckRoles(p), i.root);
    StepGoesOn(cfg, s, grant, i.root);
  }

  lemma StepGoesOn(cfg: OidcConfig, s: State, a: Action, root: string)
    requires Enabled(s, a) && CanGoOn(cfg, Apply(cfg, s, a), root)
    ensures CanGoOn(cfg, s, root)
  {
    var acts :| Run(cfg, Apply(cfg, s, a), acts).Some? && HasActiveToken(Run(cfg, Apply(cfg, s, a), acts).value, root);
    assert ([a] + acts)[1..] == acts;
    assert Run(cfg, s, [a] + acts) == Run(cfg, Apply(cfg, s, a), acts);
  }

  lemma WinnerGoesOn(cfg: OidcConfig, s: State, root: string, p: nat)
    requires Holds(s, root, HeldInFlight(p))
    ensures CanGoOn(cfg, s, root)
  {
    match s.flights[p]
    case Won(_) => WonGoesOn(cfg, s, p);
    case Cleared(_, _, _) => ClearedGoesOn(cfg, s, p);
    case Recorded(_, _) => RecordedGoesOn(cfg, s, p);
  }

  lemma NoHolderEnds(cfg: OidcConfig, s: State, root: string)
    requires root in s.db.codes && Holders(s, root) == {}
    ensures !CanGoOn(cfg, s, root)
  {
    forall acts | Run(cfg, s, acts).Some? ensures !HasActiveToken(Run(cfg, s, acts).value, root) {
      HoldersNeverIncrease(cfg, s, acts, root);
      NoneHeld(Run(cfg, s, acts).value, root);
    }
  }

  lemma NoneHeld(s: State, root: string)
    requires |Holders(s, root)| == 0
    ensures !HasActiveToken(s, root)
  {
    assert forall h :: h !in Holders(s, root);
  }

  /**
   A lineage whose code is used and that has no active refresh token, as a family revocation leaves it, can have one
   again if and only if one of its exchanges has already won and is still in flight.
   */
  lemma GoesOnIffWinner(cfg: OidcConfig, s: State, root: string)
    requires root in s.db.codes && s.db.codes[root].status != CodeActive && !HasActiveToken(s, root)
    ensures CanGoOn(cfg, s, root) <==> HasWinner(s, root)
  {
    if HasWinner(s, root) {
      var p :| Holds(s, root, HeldInFlight(p));
      WinnerGoesOn(cfg, s, root, p);
    } else {
      assert forall h :: h !in Holders(s, root);
      NoHolderEnds(cfg, s, root);
    }
  }

  /** Every token of a lineage is its code's operator's. */
  lemma LineageOperator(s: State, token: string, root: string)
    requires RowsSound(s) && token in s.origins && s.origins[token].root == root
    ensures token in s.db.refreshTokens && root in s.db.codes && s.db.refreshTokens[token].operatorId == s.db.codes[root].operatorId
  {
    assert RefreshSound(s, token);
  }

  /** What the family revocation of one loser changes: refresh tokens and that flight. */
  lemma FamilyStep(cfg: OidcConfig, s: State, q: nat)
    requires Enabled(s, RevokeLosersFamily(q))
    ensures var s' := Apply(cfg, s, RevokeLosersFamily(q));
      s'.db == RevokeFamily(s.db, s.flights[q].loserId) && s'.flights == s.flights - {q} && s'.origins == s.origins
  {
  }

  ghost predicate OwnedBy(s: State, root: string, operatorId: string) {
    forall token :: token in s.origins && s.origins[token].root == root ==>
      token in s.db.refreshTokens && s.db.refreshTokens[token].operatorId == operatorId
  }

  lemma LineageOwned(s: State, root: string)
    requires RowsSound(s) && root in s.db.codes
    ensures OwnedBy(s, root, s.db.codes[root].operatorId)
  {
    forall token | token in s.origins && s.origins[token].root == root
      ensures token in s.db.refreshTokens && s.db.refreshTokens[token].operatorId == s.db.codes[root].operatorId
    {
      LineageOperator(s, token, root);
    }
  }

  lemma NoneActiveOf(s: State, s': State, operatorId: string, root: string)
    requires OwnedBy(s, root, operatorId) && s'.origins == s.origins && s'.db == RevokeFamily(s.db, operatorId)
    ensures !HasActiveToken(s', root)
  {
  }

  /** Right after the loser's family revocation no lineage of the operator has an active refresh token. */
  lemma FamilyRevoked(cfg: OidcConfig, s: State, q: nat, root: string)
    requires RowsSound(s) && Enabled(s, RevokeLosersFamily(q))
    requires root in s.db.codes && s.db.codes[root].operatorId == s.flights[q].loserId
    ensures !HasActiveToken(Apply(cfg, s, RevokeLosersFamily(q)), root)
  {
    FamilyStep(cfg, s, q);
    LineageOwned(s, root);
    NoneActiveOf(s, Apply(cfg, s, RevokeLosersFamily(q)), s.flights[q].loserId, root);
  }

  lemma WinnersStay(s: State, s': State, q: nat, root: string)
    requires q in s.flights && s.flights[q].RaceLost? && s'.flights == s.flights - {q}
    ensures HasWinner(s', root) <==> HasWinner(s, root)
  {
    if HasWinner(s, root) {
      var p :| Holds(s, root, HeldInFlight(p));
      assert Holds(s', root, HeldInFlight(p));
    }
    if HasWinner(s', root) {
      var p :| Holds(s', root, HeldInFlight(p));
      assert Holds(s, root, HeldInFlight(p));
    }
  }

  /**
   A family revocation, at any point of any interleaving, ends a lineage of the operator with a used code if and only if
   no exchange of that lineage is in flight past its compare-and-set.
   */
  lemma FamilyRevocationEndsIff(cfg: OidcConfig, acts: seq<Action>, s: State, q: nat, root: string)
    requires Run(cfg, START, acts) == Some(s) && Enabled(s, RevokeLosersFamily(q))
    requires root in s.db.codes && s.db.codes[root].operatorId == s.flights[q].loserId && s.db.codes[root].status != CodeActive
    ensures !CanGoOn(cfg, Apply(cfg, s, RevokeLosersFamily(q)), root) <==> !HasWinner(s, root)
  {
    ReachedFromStart(cfg, acts);
    FamilyRevoked(cfg, s, q, root);
    FamilyStep(cfg, s, q);
    WinnersStay(s, Apply(cfg, s, RevokeLosersFamily(q)), q, root);
    GoesOnIffWinner(cfg, Apply(cfg, s, RevokeLosersFamily(q)), root);
  }

  // ---------- a race that ends so ----------

  /** Two authenticated refreshes of one token by its client. */
  lemma BothRefreshesRead(cfg: OidcConfig, s: State, token: string, secret: Option<string>, p: nat, q: nat) returns (acts: seq<Action>, s': State)
    requires p != q && FreeSlot(s, p) && FreeSlot(s, q) && token in s.db.refreshTokens
    requires var clientId := s.db.refreshTokens[token].clientId;
      RefreshAccepted(s.db, token, clientId, s.now) && ValidateClientSecret(s.clients, clientId, secret, s.now).Some?
      && "refresh_token" in s.clients[clientId].allowedGrantTypes
    ensures Run(cfg, s, acts) == Some(s')
    ensures s'.db == s.db && s'.roles == s.roles && s'.origins == s.origins && s'.grounds == s.grounds && p in s'.flights && q in s'.flights
    ensures s'.flights[p].RefreshRead? && s'.flights[q].RefreshRead? && s'.flights[p].token == s'.flights[q].token == token
    ensures s'.flights[p].refreshRow == s'.flights[q].refreshRow == s.db.refreshTokens[token]
    ensures s'.flights[p].caller.client == s.clients[s.db.refreshTokens[token].clientId]
  {
    var clientId := s.db.refreshTokens[token].clientId;
    acts, s' := Extend(cfg, s, [], s, Authenticate(p, clientId, secret));
    acts, s' := Extend(cfg, s, acts, s', ReadRefresh(p, token));
    acts, s' := Extend(cfg, s, acts, s', Authenticate(q, clientId, secret));
    acts, s' := Extend(cfg, s, acts, s', ReadRefresh(q, token));
  }

  /** The first wins and is recorded, the second has lost. */
  lemma FirstWins(cfg: OidcConfig, s: State, token: string, p: nat, q: nat) returns (acts: seq<Action>, s': State)
    requires p != q && p in s.flights && q in s.flights && s.flights[p].RefreshRead? && s.flights[q].RefreshRead?
    requires s.flights[p].token == s.flights[q].token == token && token in s.db.refreshTokens && token in s.origins
    requires s.db.refreshTokens[token].status == RefreshActive
    requires var row := s.flights[p].refreshRow;
      MayIssue(s.roles, row.operatorId, row.scope, s.flights[p].caller.client.allowedScopes) && s.flights[q].refreshRow == row
    ensures Run(cfg, s, acts) == Some(s')
    ensures p in s'.flights && q in s'.flights && s'.flights[p].Recorded? && s'.flights[q].RaceLost?
    ensures s'.flights[p].issue.root == s.origins[token].root && s'.flights[q].loserId == s.flights[p].refreshRow.operatorId
  {
    acts, s' := Extend(cfg, s, [], s, TakeRefresh(p));
    acts, s' := Extend(cfg, s, acts, s', TakeRefresh(q));
    acts, s' := Extend(cfg, s, acts, s', CheckRoles(p));
    var jti := FreshString(s'.db.accessRecords.Keys + s'.grounds.Keys);
    acts, s' := Extend(cfg, s, acts, s', RecordAccess(p, jti));
  }

  /**
   Such a winner can always be there: from every state with a token its client can refresh, two refreshes can race so
   that the loser revokes the family and the lineage still goes on.
   */
  lemma RaceCanOutliveRevocation(cfg: OidcConfig, s: State, token: string, secret: Option<string>, p: nat, q: nat)
    returns (first: seq<Action>, mid: State, second: seq<Action>, lost: State)
    requires p != q && FreeSlot(s, p) && FreeSlot(s, q) && token in s.db.refreshTokens && token in s.origins
    requires var row := s.db.refreshTokens[token];
      RefreshAccepted(s.db, token, row.clientId, s.now) && ValidateClientSecret(s.clients, row.clientId, secret, s.now).Some?
      && "refresh_token" in s.clients[row.clientId].allowedGrantTypes
      && MayIssue(s.roles, row.operatorId, row.scope, s.clients[row.clientId].allowedScopes)
    ensures Run(cfg, s, first) == Some(mid) && Run(cfg, mid, second) == Some(lost)
    ensures Enabled(lost, RevokeLosersFamily(q)) && lost.flights[q].loserId == s.db.refreshTokens[token].operatorId
    ensures CanGoOn(cfg, Apply(cfg, lost, RevokeLosersFamily(q)), s.origins[token].root)
  {
    first, mid := BothRefreshesRead(cfg, s, token, secret, p, q);
    second, lost := FirstWins(cfg, mid, token, p, q);
    RecordedGoesOn(cfg, Apply(cfg, lost, RevokeLosersFamily(q)), p);
  }
}
