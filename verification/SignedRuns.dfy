/**
 Exchanges while keys rotate: signing a target token is the stamp of a key read earlier, and rotations, retirements and other
 signings interleave with any number of exchanges. Whatever an exchange returns, cached or new, verifies until it expires,
 unless another record shares its key's kid.
 */
module SignedRuns {
  import opened Wrappers
  import opened Text
  import opened Keys
  import opened Redis
  import B = Broker
  import K = KeyRotation
  import E = ExchangeRuns

  datatype Settings = Settings(keys: K.Config, exchange: E.Settings)

  /** `signedWith`: by token id, the signing that made the token. */
  datatype State = State(keys: K.State, exchange: E.State, signedWith: map<Text, nat>)

  datatype Action =
    | Tick(ms: nat)
    | KeyStep(k: K.Action)
    | Step(a: E.Action)
    | SignWith(op: nat, p: nat, jti: Text)

  /** An exchange signs for the lifetime it resolved, on one clock with the key operations. */
  ghost predicate Enabled(cfg: Settings, s: State, a: Action) {
    match a
    case Tick(_) => true
    case KeyStep(k) => !k.Advance? && K.Enabled(cfg.keys, s.keys, k)
    case Step(a) => !a.Advance? && !a.SignToken? && E.Enabled(cfg.exchange, s.exchange, a)
    case SignWith(op, p, jti) =>
      && K.Enabled(cfg.keys, s.keys, K.Stamp(op)) && E.Enabled(cfg.exchange, s.exchange, E.SignToken(p, jti))
      && s.keys.ops[op].purpose.TargetToken? && K.LifetimeOf(cfg.keys.lifetimes, s.keys.ops[op].purpose) == s.exchange.flights[p].seen.ttl
  }

  ghost function Apply(cfg: Settings, s: State, a: Action): State
    requires Enabled(cfg, s, a)
  {
    match a
    case Tick(ms) => s.(keys := K.Apply(cfg.keys, s.keys, K.Advance(ms)), exchange := E.Apply(cfg.exchange, s.exchange, E.Advance(ms)))
    case KeyStep(k) => s.(keys := K.Apply(cfg.keys, s.keys, k))
    case Step(a) => s.(exchange := E.Apply(cfg.exchange, s.exchange, a))
    case SignWith(op, p, jti) =>
      State(K.Apply(cfg.keys, s.keys, K.Stamp(op)), E.Apply(cfg.exchange, s.exchange, E.SignToken(p, jti)), s.signedWith[jti := |s.keys.signings|])
  }

  ghost function Run(cfg: Settings, s: State, acts: seq<Action>): Option<State>
    decreases |acts|
  {
    if acts == [] then Some(s)
    else if Enabled(cfg, s, acts[0]) then Run(cfg, Apply(cfg, s, acts[0]), acts[1..])
    else None
  }

  /** No keys and an empty cache. */
  ghost predicate Initial(cfg: Settings, s: State) {
    s.keys == K.START && E.Initial(cfg.exchange, s.exchange) && s.exchange.cache == map[] && s.exchange.now == s.keys.now && s.signedWith == map[]
  }

  // ---------- every token has its signing ----------

  /** The token was made by a signing with its `iat` and `exp`. */
  predicate MadeBy(signings: seq<K.Signed>, signedWith: map<Text, nat>, token: B.Token) {
    token.jti in signedWith && signedWith[token.jti] < |signings|
    && signings[signedWith[token.jti]].token.iat == token.iat && signings[signedWith[token.jti]].token.exp == token.exp
  }

  /** The tokens an exchange state holds: under way, returned, or cached. */
  ghost predicate Holds(x: E.State, token: B.Token) {
    || (exists p :: p in x.flights && x.flights[p].token == Some(token))
    || (exists i :: 0 <= i < |x.returned| && x.returned[i].token == token)
    || (exists key :: key in x.cache && CellHolds(x.cache[key].value, token))
  }

  predicate CellHolds(value: Value<B.CacheDoc>, token: B.Token) {
    value.Document? && value.doc.Readable? && value.doc.value.accessToken == token
  }

  ghost predicate AllMade(s: State) {
    forall token :: Holds(s.exchange, token) ==> MadeBy(s.keys.signings, s.signedWith, token)
  }

  lemma FlightToken(cfg: E.Settings, x: E.State, a: E.Action, p: nat, token: B.Token)
    requires E.Enabled(cfg, x, a) && !a.SignToken? && p in E.FlightsAfter(cfg, x, a) && E.FlightsAfter(cfg, x, a)[p].token == Some(token)
    ensures Holds(x, token)
  {
    if E.OfExchange(a) && a.p == p {
      if E.IsRead(a) {
        E.ReadTouches(cfg, E.Present(x), |x.history|, x.flights[p], a);
      } else {
        MovedToken(cfg, x, a, token);
      }
    }
  }

  /** Only a hit gives an exchange a token it did not have, and that one is cached. */
  lemma MovedToken(cfg: E.Settings, x: E.State, a: E.Action, token: B.Token)
    requires E.Enabled(cfg, x, a) && E.OfExchange(a) && !E.IsRead(a) && !a.SignToken?
    requires E.Moved(cfg, x, a).Some? && E.Moved(cfg, x, a).value.token == Some(token)
    ensures Holds(x, token)
  {
  }

  lemma CachedToken(cfg: E.Settings, x: E.State, a: E.Action, key: Key, token: B.Token)
    requires E.Enabled(cfg, x, a) && key in E.CacheAfter(cfg, x, a) && CellHolds(E.CacheAfter(cfg, x, a)[key].value, token)
    ensures Holds(x, token)
  {
  }

  lemma ReturnedToken(cfg: E.Settings, x: E.State, a: E.Action, i: nat)
    requires E.Enabled(cfg, x, a) && i < |E.Apply(cfg, x, a).returned|
    ensures Holds(x, E.Apply(cfg, x, a).returned[i].token)
  {
    if i < |x.returned| {
      assert E.Apply(cfg, x, a).returned[i] == x.returned[i];
    } else {
      assert x.flights[a.p].token == Some(E.Apply(cfg, x, a).returned[i].token);
    }
  }

  /** A step other than signing creates no token. */
  lemma NoNewToken(cfg: E.Settings, x: E.State, a: E.Action, token: B.Token)
    requires E.Enabled(cfg, x, a) && !a.SignToken? && Holds(E.Apply(cfg, x, a), token)
    ensures Holds(x, token)
  {
    var x' := E.Apply(cfg, x, a);
    if p :| p in x'.flights && x'.flights[p].token == Some(token) {
      FlightToken(cfg, x, a, p, token);
    } else if i :| 0 <= i < |x'.returned| && x'.returned[i].token == token {
      ReturnedToken(cfg, x, a, i);
    } else {
      var key :| key in x'.cache && CellHolds(x'.cache[key].value, token);
      CachedToken(cfg, x, a, key, token);
    }
  }

  /** Signing creates one token. */
  lemma OneNewToken(cfg: E.Settings, x: E.State, p: nat, jti: Text, token: B.Token)
    requires E.Enabled(cfg, x, E.SignToken(p, jti)) && Holds(E.Apply(cfg, x, E.SignToken(p, jti)), token)
    ensures Holds(x, token) || Some(token) == E.SignedBy(cfg, x, x.flights[p], jti).token
  {
    var x' := E.Apply(cfg, x, E.SignToken(p, jti));
    assert x'.flights == x.flights[p := E.SignedBy(cfg, x, x.flights[p], jti)];
  }

  // ---------- the invariant ----------

  ghost predicate Sound(cfg: Settings, s: State) {
    && K.Sound(cfg.keys, s.keys) && s.keys.now == s.exchange.now && s.signedWith.Keys == s.exchange.signed && AllMade(s)
  }

  /** The token an exchange signs and the signing agree. */
  lemma SignedAlike(cfg: Settings, s: State, op: nat, p: nat, jti: Text)
    requires s.keys.now == s.exchange.now && Enabled(cfg, s, SignWith(op, p, jti))
    ensures E.SignedBy(cfg.exchange, s.exchange, s.exchange.flights[p], jti).token.Some?
    ensures var s' := Apply(cfg, s, SignWith(op, p, jti));
      MadeBy(s'.keys.signings, s'.signedWith, E.SignedBy(cfg.exchange, s.exchange, s.exchange.flights[p], jti).token.value)
  {
  }

  lemma StillMade(cfg: Settings, s: State, op: nat, p: nat, jti: Text, token: B.Token)
    requires s.signedWith.Keys == s.exchange.signed && MadeBy(s.keys.signings, s.signedWith, token) && Enabled(cfg, s, SignWith(op, p, jti))
    ensures MadeBy(Apply(cfg, s, SignWith(op, p, jti)).keys.signings, Apply(cfg, s, SignWith(op, p, jti)).signedWith, token)
  {
  }

  lemma SignMade(cfg: Settings, s: State, op: nat, p: nat, jti: Text)
    requires AllMade(s) && s.signedWith.Keys == s.exchange.signed && s.keys.now == s.exchange.now && Enabled(cfg, s, SignWith(op, p, jti))
    ensures AllMade(Apply(cfg, s, SignWith(op, p, jti)))
  {
    var s' := Apply(cfg, s, SignWith(op, p, jti));
    SignedAlike(cfg, s, op, p, jti);
    forall token | Holds(s'.exchange, token) ensures MadeBy(s'.keys.signings, s'.signedWith, token) {
      OneNewToken(cfg.exchange, s.exchange, p, jti, token);
      if Holds(s.exchange, token) { StillMade(cfg, s, op, p, jti, token); }
    }
  }

  lemma OtherMade(cfg: Settings, s: State, a: Action)
    requires AllMade(s) && Enabled(cfg, s, a) && !a.SignWith?
    ensures AllMade(Apply(cfg, s, a))
  {
    var s' := Apply(cfg, s, a);
    forall token | Holds(s'.exchange, token) ensures MadeBy(s'.keys.signings, s'.signedWith, token) {
      match a
      case Tick(ms) => NoNewToken(cfg.exchange, s.exchange, E.Advance(ms), token);
      case Step(b) => NoNewToken(cfg.exchange, s.exchange, b, token);
      case KeyStep(_) =>
    }
  }

  lemma SoundStep(cfg: Settings, s: State, a: Action)
    requires Sound(cfg, s) && Enabled(cfg, s, a)
    ensures Sound(cfg, Apply(cfg, s, a))
  {
    match a
    case Tick(ms) =>
      K.SoundStep(cfg.keys, s.keys, K.Advance(ms));
      OtherMade(cfg, s, a);
    case KeyStep(k) =>
      K.SoundStep(cfg.keys, s.keys, k);
      OtherMade(cfg, s, a);
    case Step(_) => OtherMade(cfg, s, a);
    case SignWith(op, p, jti) =>
      K.SoundStep(cfg.keys, s.keys, K.Stamp(op));
      SignMade(cfg, s, op, p, jti);
  }

  lemma {:induction false} RunsAreSound(cfg: Settings, s: State, acts: seq<Action>)
    requires Sound(cfg, s) && Run(cfg, s, acts).Some?
    ensures Sound(cfg, Run(cfg, s, acts).value)
    decreases |acts|
  {
    if acts != [] {
      SoundStep(cfg, s, acts[0]);
      RunsAreSound(cfg, Apply(cfg, s, acts[0]), acts[1..]);
    }
  }

  // ---------- main result ----------

  /** The key and the kid the token was signed with. */
  function SignedToken(s: State, token: B.Token): K.Token
    requires MadeBy(s.keys.signings, s.signedWith, token)
  {
    s.keys.signings[s.signedWith[token.jti]].token
  }

  /** The verifier's lookup finds the key that signed the token and nothing else. */
  ghost predicate Verifies(cfg: Settings, s: State, token: B.Token) {
    MadeBy(s.keys.signings, s.signedWith, token)
    && VerifiesWith(cfg.keys.lifetimes, s.keys.rows, SignedToken(s, token).kid, SignedToken(s, token).key, s.keys.now)
  }

  /** No other record past pending has the kid of the token's key. */
  ghost predicate KidUnshared(s: State, token: B.Token) {
    MadeBy(s.keys.signings, s.signedWith, token)
    && forall id :: Candidate(s.keys.rows, SignedToken(s, token).kid, id) ==> id == SignedToken(s, token).key
  }

  lemma SoundVerifiesIff(cfg: Settings, s: State, token: B.Token)
    requires cfg.keys.signLagMs + cfg.keys.retireLagMs <= 60_001
    requires Sound(cfg, s) && Holds(s.exchange, token) && Unexpired(token.exp, s.exchange.now)
    ensures Verifies(cfg, s, token) <==> KidUnshared(s, token)
    ensures DistinctKids(s.keys.rows) ==> KidUnshared(s, token)
  {
    K.SlackSuffices(cfg.keys, s.keys, s.keys.signings[s.signedWith[token.jti]]);
  }

  /**
   Over every run of exchanges beside rotations and retirements, with lags within the slack: an unexpired token that any
   exchange returned, signed for it or taken from the cache, verifies if and only if its kid is not shared.
   */
  lemma ReturnsVerifyIffKidUnshared(cfg: Settings, s: State, acts: seq<Action>, i: nat)
    requires cfg.keys.signLagMs + cfg.keys.retireLagMs <= 60_001
    requires Initial(cfg, s) && Run(cfg, s, acts).Some? && i < |Run(cfg, s, acts).value.exchange.returned|
    ensures var s' := Run(cfg, s, acts).value;
      var token := s'.exchange.returned[i].token;
      Unexpired(token.exp, s'.exchange.now) ==> (Verifies(cfg, s', token) <==> KidUnshared(s', token))
  {
    RunsAreSound(cfg, s, acts);
    var s' := Run(cfg, s, acts).value;
    if Unexpired(s'.exchange.returned[i].token.exp, s'.exchange.now) { SoundVerifiesIff(cfg, s', s'.exchange.returned[i].token); }
  }

  /** So with distinct kids it verifies until it expires. */
  lemma ReturnsVerifyUntilExpiry(cfg: Settings, s: State, acts: seq<Action>, i: nat)
    requires cfg.keys.signLagMs + cfg.keys.retireLagMs <= 60_001
    requires Initial(cfg, s) && Run(cfg, s, acts).Some? && i < |Run(cfg, s, acts).value.exchange.returned|
    requires DistinctKids(Run(cfg, s, acts).value.keys.rows)
    ensures var s' := Run(cfg, s, acts).value;
      var token := s'.exchange.returned[i].token;
      Unexpired(token.exp, s'.exchange.now) ==> Verifies(cfg, s', token)
  {
    RunsAreSound(cfg, s, acts);
    var s' := Run(cfg, s, acts).value;
    if Unexpired(s'.exchange.returned[i].token.exp, s'.exchange.now) { SoundVerifiesIff(cfg, s', s'.exchange.returned[i].token); }
  }
}
