/**
 Key rotation against signing, step by step: the two writes of an activation, the stamp and the write of a
 retirement, and the key read and `iat` stamp of a signing interleave freely, and the clock runs between any
 two of them. No unexpired token ever loses its key exactly when the two lags stay within the 60 s slack (and
 the millisecond that expiry at whole seconds gives on top).
 */
module KeyRotation {
  import opened Wrappers
  import opened Text
  import opened Keys

  /** The most that passes between a signing's key read and its `iat`, and between a retirement's stamp and its write. */
  datatype Config = Config(lifetimes: Lifetimes, signLagMs: nat, retireLagMs: nat)

  /** The issuing paths; a target token is capped by its connection. */
  datatype Purpose = AccessToken | IdToken | ClientCredentials | TargetToken(maxTokenTtlSeconds: nat) | RequesterAssertion

  function LifetimeOf(cfg: Lifetimes, purpose: Purpose): nat {
    match purpose
    case AccessToken => cfg.accessTokenTtlSeconds
    case IdToken => cfg.accessTokenTtlSeconds
    case ClientCredentials => cfg.accessTokenTtlSeconds
    case TargetToken(cap) => if cap < cfg.targetTokenTtlSeconds then cap else cfg.targetTokenTtlSeconds
    case RequesterAssertion => 300
  }

  /** An operation between two of its steps. */
  datatype Op =
    | Activating(id: Id, stamp: int)
    | Promoting(id: Id, stamp: int)
    | Retiring(id: Id, stamp: int)
    | Signing(id: Id, readAt: int, purpose: Purpose)

  datatype Token = Token(key: Id, kid: Text, iat: int, exp: int)

  /** `signings` remembers, beside each token, when its key was read and its `iat` taken. */
  datatype Signed = Signed(token: Token, readAt: int, stampedAt: int)

  datatype State = State(now: int, rows: map<Id, KeyRow>, ops: map<nat, Op>, signings: seq<Signed>)

  datatype Action =
    | Advance(ms: nat)
    | Create(id: Id, kid: Text)
    | BeginActivate(op: nat, id: Id)
    | Demote(op: nat)
    | Promote(op: nat)
    | BeginRetire(op: nat, id: Id)
    | CommitRetire(op: nat)
    | ReadKey(op: nat, id: Id, purpose: Purpose)
    | Stamp(op: nat)

  const KID: Text := [0x6B]

  const START: State := State(0, map[], map[], [])

  /** An active key may be picked for signing whichever of several is latest, so any run of the signer is a run here. */
  predicate Enabled(cfg: Config, s: State, a: Action) {
    match a
    case Advance(_) => true
    case Create(id, _) => id !in s.rows
    case BeginActivate(op, id) => op !in s.ops && id in s.rows
    case Demote(op) => op in s.ops && s.ops[op].Activating?
    case Promote(op) => op in s.ops && s.ops[op].Promoting? && s.ops[op].id in s.rows
    case BeginRetire(op, id) => op !in s.ops && id in s.rows
    case CommitRetire(op) =>
      op in s.ops && s.ops[op].Retiring? && s.ops[op].id in s.rows && s.now <= s.ops[op].stamp + cfg.retireLagMs
    case ReadKey(op, id, _) => op !in s.ops && id in s.rows && s.rows[id].status == Active
    case Stamp(op) =>
      op in s.ops && s.ops[op].Signing? && s.ops[op].id in s.rows && s.now <= s.ops[op].readAt + cfg.signLagMs
  }

  function Apply(cfg: Config, s: State, a: Action): State
    requires Enabled(cfg, s, a)
  {
    match a
    case Advance(ms) => s.(now := s.now + ms)
    case Create(id, kid) => s.(rows := s.rows[id := KeyRow(kid, Pending, None, None)])
    case BeginActivate(op, id) => s.(ops := s.ops[op := Activating(id, s.now)])
    case Demote(op) => s.(rows := Demoted(s.rows), ops := s.ops[op := Promoting(s.ops[op].id, s.ops[op].stamp)])
    case Promote(op) => s.(rows := Promoted(s.rows, s.ops[op].id, s.ops[op].stamp), ops := s.ops - {op})
    case BeginRetire(op, id) => s.(ops := s.ops[op := Retiring(id, s.now)])
    case CommitRetire(op) => s.(rows := MarkedRetired(s.rows, s.ops[op].id, s.ops[op].stamp), ops := s.ops - {op})
    case ReadKey(op, id, purpose) => s.(ops := s.ops[op := Signing(id, s.now, purpose)])
    case Stamp(op) =>
      var w := s.ops[op];
      var iat := s.now / 1000;
      var token := Token(w.id, s.rows[w.id].kid, iat, iat + LifetimeOf(cfg.lifetimes, w.purpose));
      s.(ops := s.ops - {op}, signings := s.signings + [Signed(token, w.readAt, s.now)])
  }

  /** The state after a list of actions, if each is possible in its turn. */
  function Run(cfg: Config, acts: seq<Action>): Option<State> {
    if acts == [] then Some(START)
    else
      match Run(cfg, acts[..|acts| - 1])
      case None => None
      case Some(s) => if Enabled(cfg, s, acts[|acts| - 1]) then Some(Apply(cfg, s, acts[|acts| - 1])) else None
  }

  /** An unexpired token whose own key record still verifies. */
  predicate KeyKept(cfg: Config, s: State, token: Token) {
    Unexpired(token.exp, s.now) ==> token.key in s.rows && Usable(cfg.lifetimes, s.rows[token.key], s.now)
  }

  ghost predicate NeverStranded(cfg: Config) {
    forall acts, i :: Run(cfg, acts).Some? && 0 <= i < |Run(cfg, acts).value.signings| ==>
      KeyKept(cfg, Run(cfg, acts).value, Run(cfg, acts).value.signings[i].token)
  }

  // ---------- the invariant ----------

  /** The key was active at `readAt`: since then it has verified, or was retired with a stamp not long before. */
  predicate Held(cfg: Config, rows: map<Id, KeyRow>, id: Id, readAt: int) {
    && id in rows && rows[id].status != Pending
    && (rows[id].status == Retired ==> rows[id].retiredAt.Some? && rows[id].retiredAt.value >= readAt - cfg.retireLagMs)
  }

  predicate OpSound(cfg: Config, s: State, op: Op) {
    && op.id in s.rows
    && (op.Signing? ==> op.readAt <= s.now && Held(cfg, s.rows, op.id, op.readAt))
  }

  predicate SigningSound(cfg: Config, s: State, g: Signed) {
    && g.readAt <= g.stampedAt <= s.now && g.stampedAt <= g.readAt + cfg.signLagMs
    && g.token.iat == g.stampedAt / 1000
    && g.token.exp <= g.token.iat + MaxTokenLifetimeSeconds(cfg.lifetimes)
    && Held(cfg, s.rows, g.token.key, g.readAt)
    && s.rows[g.token.key].kid == g.token.kid
  }

  ghost predicate Sound(cfg: Config, s: State) {
    && (forall op :: op in s.ops ==> OpSound(cfg, s, s.ops[op]))
    && (forall i :: 0 <= i < |s.signings| ==> SigningSound(cfg, s, s.signings[i]))
  }

  lemma SoundStep(cfg: Config, s: State, a: Action)
    requires Sound(cfg, s) && Enabled(cfg, s, a)
    ensures Sound(cfg, Apply(cfg, s, a))
  {
  }

  lemma {:induction false} RunsAreSound(cfg: Config, acts: seq<Action>)
    requires Run(cfg, acts).Some?
    ensures Sound(cfg, Run(cfg, acts).value)
  {
    if acts != [] {
      RunsAreSound(cfg, acts[..|acts| - 1]);
      SoundStep(cfg, Run(cfg, acts[..|acts| - 1]).value, acts[|acts| - 1]);
    }
  }

  /** The arithmetic of the slack: expiry is at whole seconds, the grace period in milliseconds. */
  lemma SlackSuffices(cfg: Config, s: State, g: Signed)
    requires cfg.signLagMs + cfg.retireLagMs <= 60_001
    requires SigningSound(cfg, s, g)
    ensures KeyKept(cfg, s, g.token)
  {
  }

  // ---------- the slack is needed ----------

  /** Some issuing path has the longest lifetime. */
  function LongestPurpose(cfg: Lifetimes): (p: Purpose)
    ensures LifetimeOf(cfg, p) == MaxTokenLifetimeSeconds(cfg)
  {
    if MaxTokenLifetimeSeconds(cfg) == cfg.accessTokenTtlSeconds then AccessToken
    else if MaxTokenLifetimeSeconds(cfg) == cfg.targetTokenTtlSeconds then TargetToken(cfg.targetTokenTtlSeconds)
    else RequesterAssertion
  }

  lemma Extend(cfg: Config, acts: seq<Action>, s: State, a: Action) returns (acts': seq<Action>, s': State)
    requires Run(cfg, acts) == Some(s) && Enabled(cfg, s, a)
    ensures s' == Apply(cfg, s, a) && Run(cfg, acts') == Some(s')
  {
    acts', s' := acts + [a], Apply(cfg, s, a);
    assert acts'[..|acts'| - 1] == acts;
  }

  /** One key made active at time 0. */
  lemma FirstKeyActive(cfg: Config) returns (acts: seq<Action>, s: State)
    ensures Run(cfg, acts) == Some(s)
    ensures s == State(0, map[0 := KeyRow(KID, Active, Some(0), None)], map[], [])
  {
    acts, s := Extend(cfg, [], START, Create(0, KID));
    acts, s := Extend(cfg, acts, s, BeginActivate(0, 0));
    acts, s := Extend(cfg, acts, s, Demote(0));
    assert s.ops == map[0 := Promoting(0, 0)] && s.rows == map[0 := KeyRow(KID, Pending, None, None)];
    acts, s := Extend(cfg, acts, s, Promote(0));
    assert s.ops == map[] && s.rows == map[0 := KeyRow(KID, Active, Some(0), None)];
  }

  /** The retirement is stamped at `wait`; the key is read just before the write, at the last moment the lag allows. */
  lemma RetiredAroundRead(cfg: Config, purpose: Purpose, wait: nat) returns (acts: seq<Action>, s: State)
    ensures Run(cfg, acts) == Some(s)
    ensures var read := wait + cfg.retireLagMs;
      s == State(read, map[0 := KeyRow(KID, Retired, Some(0), Some(wait))], map[2 := Signing(0, read, purpose)], [])
  {
    acts, s := FirstKeyActive(cfg);
    acts, s := Extend(cfg, acts, s, Advance(wait));
    acts, s := Extend(cfg, acts, s, BeginRetire(1, 0));
    assert s.ops == map[1 := Retiring(0, wait)];
    acts, s := Extend(cfg, acts, s, Advance(cfg.retireLagMs));
    acts, s := Extend(cfg, acts, s, ReadKey(2, 0, purpose));
    acts, s := Extend(cfg, acts, s, CommitRetire(1));
    assert s.ops == map[2 := Signing(0, wait + cfg.retireLagMs, purpose)];
    assert s.rows == map[0 := KeyRow(KID, Retired, Some(0), Some(wait))];
  }

  /** The `iat` is as late as allowed, and on a whole second. */
  lemma StampedLate(cfg: Config, purpose: Purpose, wait: nat) returns (acts: seq<Action>, s: State)
    requires (wait + cfg.retireLagMs + cfg.signLagMs) % 1000 == 0
    ensures Run(cfg, acts) == Some(s)
    ensures s.now == wait + cfg.retireLagMs + cfg.signLagMs && s.rows == map[0 := KeyRow(KID, Retired, Some(0), Some(wait))]
    ensures |s.signings| == 1 && s.signings[0].token.key == 0
    ensures 1000 * s.signings[0].token.exp == s.now + 1000 * LifetimeOf(cfg.lifetimes, purpose)
  {
    acts, s := RetiredAroundRead(cfg, purpose, wait);
    acts, s := Extend(cfg, acts, s, Advance(cfg.signLagMs));
    acts, s := Extend(cfg, acts, s, Stamp(2));
  }

  /** One millisecond more than the slack covers, and at the last millisecond of the longest-lived token its key is gone. */
  lemma SlackIsNeeded(cfg: Config)
    requires cfg.signLagMs + cfg.retireLagMs > 60_001
    ensures !NeverStranded(cfg)
  {
    var purpose := LongestPurpose(cfg.lifetimes);
    var lag := cfg.signLagMs + cfg.retireLagMs;
    var wait := (1000 - lag % 1000) % 1000;
    assert (wait + lag) % 1000 == 0;
    var acts, s := StampedLate(cfg, purpose, wait);
    acts, s := Extend(cfg, acts, s, Advance(1000 * LifetimeOf(cfg.lifetimes, purpose) - 1));
    LastMillisecond(s.signings[0].token.exp, s.now);
    assert !KeyKept(cfg, s, s.signings[0].token);
  }

  lemma LastMillisecond(exp: int, now: int)
    requires now == 1000 * exp - 1
    ensures now / 1000 < exp
  {
  }

  // ---------- main results ----------

  /** Over every interleaving no unexpired token loses its key, exactly when the lags fit the slack. */
  lemma NeverStrandedIffSlack(cfg: Config)
    ensures NeverStranded(cfg) <==> cfg.signLagMs + cfg.retireLagMs <= 60_001
  {
    if cfg.signLagMs + cfg.retireLagMs <= 60_001 {
      forall acts, i | Run(cfg, acts).Some? && 0 <= i < |Run(cfg, acts).value.signings|
        ensures KeyKept(cfg, Run(cfg, acts).value, Run(cfg, acts).value.signings[i].token)
      {
        RunsAreSound(cfg, acts);
        SlackSuffices(cfg, Run(cfg, acts).value, Run(cfg, acts).value.signings[i]);
      }
    } else {
      SlackIsNeeded(cfg);
    }
  }

  /** The lookup is by kid: an unexpired token verifies exactly when no other usable or retired record shares its kid. */
  lemma VerifiesIffKidUnshared(cfg: Config, acts: seq<Action>, i: nat)
    requires cfg.signLagMs + cfg.retireLagMs <= 60_001
    requires Run(cfg, acts).Some? && i < |Run(cfg, acts).value.signings|
    requires Unexpired(Run(cfg, acts).value.signings[i].token.exp, Run(cfg, acts).value.now)
    ensures var s := Run(cfg, acts).value;
      var token := s.signings[i].token;
      VerifiesWith(cfg.lifetimes, s.rows, token.kid, token.key, s.now) <==>
        forall id :: Candidate(s.rows, token.kid, id) ==> id == token.key
  {
    RunsAreSound(cfg, acts);
    SlackSuffices(cfg, Run(cfg, acts).value, Run(cfg, acts).value.signings[i]);
  }

  /** Every key is created under a kid not in use. */
  ghost predicate FreshKids(cfg: Config, acts: seq<Action>) {
    forall n :: 0 <= n < |acts| && acts[n].Create? && Run(cfg, acts[..n]).Some? ==>
      forall id :: id in Run(cfg, acts[..n]).value.rows ==> Run(cfg, acts[..n]).value.rows[id].kid != acts[n].kid
  }

  lemma {:induction false} FreshKidsStayDistinct(cfg: Config, acts: seq<Action>)
    requires Run(cfg, acts).Some? && FreshKids(cfg, acts)
    ensures DistinctKids(Run(cfg, acts).value.rows)
  {
    if acts != [] {
      var before := acts[..|acts| - 1];
      forall n | 0 <= n < |before| && before[n].Create? && Run(cfg, before[..n]).Some?
        ensures forall id :: id in Run(cfg, before[..n]).value.rows ==> Run(cfg, before[..n]).value.rows[id].kid != before[n].kid
      {
        assert before[..n] == acts[..n] && before[n] == acts[n];
      }
      FreshKidsStayDistinct(cfg, before);
    }
  }

  /** With fresh kids and lags inside the slack, every token verifies until it expires. */
  lemma TokensVerifyUntilExpiry(cfg: Config, acts: seq<Action>, i: nat)
    requires cfg.signLagMs + cfg.retireLagMs <= 60_001
    requires Run(cfg, acts).Some? && FreshKids(cfg, acts) && i < |Run(cfg, acts).value.signings|
    ensures var s := Run(cfg, acts).value;
      var token := s.signings[i].token;
      Unexpired(token.exp, s.now) ==> VerifiesWith(cfg.lifetimes, s.rows, token.kid, token.key, s.now)
  {
    RunsAreSound(cfg, acts);
    FreshKidsStayDistinct(cfg, acts);
    SlackSuffices(cfg, Run(cfg, acts).value, Run(cfg, acts).value.signings[i]);
  }

  // ---------- how many keys are active ----------

  predicate ActiveIn(s: State, id: Id) { id in s.rows && s.rows[id].status == Active }

  /** Step n of the run makes this key active. */
  predicate PromotesAt(cfg: Config, acts: seq<Action>, n: nat, id: Id) {
    n < |acts| && acts[n].Promote? && Run(cfg, acts[..n]).Some?
    && acts[n].op in Run(cfg, acts[..n]).value.ops && Run(cfg, acts[..n]).value.ops[acts[n].op].id == id
  }

  /** Step n of the run takes this key out of use for signing: any demotion, or its own retirement. */
  predicate EndsAt(cfg: Config, acts: seq<Action>, n: nat, id: Id) {
    n < |acts|
    && (acts[n].Demote?
        || (acts[n].CommitRetire? && Run(cfg, acts[..n]).Some?
            && acts[n].op in Run(cfg, acts[..n]).value.ops && Run(cfg, acts[..n]).value.ops[acts[n].op].id == id))
  }

  ghost predicate ActiveSince(cfg: Config, acts: seq<Action>, p: nat, id: Id) {
    PromotesAt(cfg, acts, p, id) && forall n :: p < n < |acts| ==> !EndsAt(cfg, acts, n, id)
  }

  lemma ActiveStep(cfg: Config, s: State, a: Action, id: Id)
    requires Enabled(cfg, s, a)
    ensures ActiveIn(Apply(cfg, s, a), id) <==>
              (a.Promote? && s.ops[a.op].id == id)
              || (ActiveIn(s, id) && !a.Demote? && !(a.CommitRetire? && s.ops[a.op].id == id))
  {
  }

  /** A step of a run is the same step of every longer run. */
  lemma SameStep(cfg: Config, acts: seq<Action>, m: nat, n: nat, id: Id)
    requires n < m <= |acts|
    ensures PromotesAt(cfg, acts[..m], n, id) <==> PromotesAt(cfg, acts, n, id)
    ensures EndsAt(cfg, acts[..m], n, id) <==> EndsAt(cfg, acts, n, id)
  {
    assert acts[..m][..n] == acts[..n];
  }

  lemma {:induction false} PrefixRuns(cfg: Config, acts: seq<Action>, m: nat)
    requires Run(cfg, acts).Some? && m <= |acts|
    ensures Run(cfg, acts[..m]).Some?
    ensures m < |acts| ==> Enabled(cfg, Run(cfg, acts[..m]).value, acts[m]) && Run(cfg, acts[..m + 1]) == Some(Apply(cfg, Run(cfg, acts[..m]).value, acts[m]))
  {
    if m == |acts| {
      assert acts[..m] == acts;
    } else if m + 1 == |acts| {
      assert acts[..m + 1] == acts;
    } else {
      var before := acts[..|acts| - 1];
      PrefixRuns(cfg, before, m);
      assert before[..m] == acts[..m] && before[..m + 1] == acts[..m + 1];
    }
  }

  /** A key is active exactly when some step promoted it and none since has ended it. */
  lemma {:induction false} ActiveIff(cfg: Config, acts: seq<Action>, id: Id)
    requires Run(cfg, acts).Some?
    ensures ActiveIn(Run(cfg, acts).value, id) <==> exists p: nat :: ActiveSince(cfg, acts, p, id)
  {
    if acts != [] {
      var last := |acts| - 1;
      var before := acts[..last];
      ActiveIff(cfg, before, id);
      ActiveStep(cfg, Run(cfg, before).value, acts[last], id);
      forall p: nat | p < last ensures ActiveSince(cfg, acts, p, id) <==> ActiveSince(cfg, before, p, id) && !EndsAt(cfg, acts, last, id) {
        SinceStep(cfg, acts, p, id);
      }
      assert ActiveSince(cfg, acts, last, id) <==> PromotesAt(cfg, acts, last, id);
      if p: nat :| ActiveSince(cfg, before, p, id) { assert p < last; }
    }
  }

  lemma SinceStep(cfg: Config, acts: seq<Action>, p: nat, id: Id)
    requires p < |acts| - 1
    ensures ActiveSince(cfg, acts, p, id) <==> ActiveSince(cfg, acts[..|acts| - 1], p, id) && !EndsAt(cfg, acts, |acts| - 1, id)
  {
    var last := |acts| - 1;
    forall n: nat | n < last
      ensures (PromotesAt(cfg, acts[..last], n, id) <==> PromotesAt(cfg, acts, n, id)) && (EndsAt(cfg, acts[..last], n, id) <==> EndsAt(cfg, acts, n, id))
    {
      SameStep(cfg, acts, last, n, id);
    }
  }

  ghost predicate NeverTwoActive(cfg: Config, acts: seq<Action>) {
    forall m: nat :: m <= |acts| && Run(cfg, acts[..m]).Some? ==> AtMostOneActive(Run(cfg, acts[..m]).value.rows)
  }

  /** Between the promotions of two different keys the first of them is demoted or retired. */
  ghost predicate EndedInBetween(cfg: Config, acts: seq<Action>) {
    forall p: nat, q: nat, i, j :: p < q && i != j && PromotesAt(cfg, acts, p, i) && PromotesAt(cfg, acts, q, j) ==> EndedFrom(cfg, acts, p, q, i)
  }

  ghost predicate EndedFrom(cfg: Config, acts: seq<Action>, p: nat, q: nat, id: Id) {
    exists n: nat :: p < n < q && EndsAt(cfg, acts, n, id)
  }

  lemma StillActive(cfg: Config, acts: seq<Action>, p: nat, m: nat, id: Id)
    requires p < m <= |acts| && Run(cfg, acts[..m]).Some? && PromotesAt(cfg, acts, p, id)
    requires forall n: nat :: p < n < m ==> !EndsAt(cfg, acts, n, id)
    ensures ActiveIn(Run(cfg, acts[..m]).value, id)
  {
    var upTo := acts[..m];
    forall n: nat | p < n < m ensures !EndsAt(cfg, upTo, n, id) { SameStep(cfg, acts, m, n, id); }
    SameStep(cfg, acts, m, p, id);
    assert ActiveSince(cfg, upTo, p, id);
    ActiveIff(cfg, upTo, id);
  }

  /** Two keys active after step q, the later promoted at q. */
  lemma BothActive(cfg: Config, acts: seq<Action>, p: nat, q: nat, i: Id, j: Id)
    requires Run(cfg, acts).Some? && p < q && i != j && PromotesAt(cfg, acts, p, i) && PromotesAt(cfg, acts, q, j) && !EndedFrom(cfg, acts, p, q, i)
    ensures !NeverTwoActive(cfg, acts)
  {
    PrefixRuns(cfg, acts, q + 1);
    StillActive(cfg, acts, p, q + 1, i);
    StillActive(cfg, acts, q, q + 1, j);
  }

  lemma EndedMeansOne(cfg: Config, acts: seq<Action>, m: nat, i: Id, j: Id)
    requires EndedInBetween(cfg, acts) && m <= |acts| && Run(cfg, acts[..m]).Some?
    requires ActiveIn(Run(cfg, acts[..m]).value, i) && ActiveIn(Run(cfg, acts[..m]).value, j)
    ensures i == j
  {
    ActiveIff(cfg, acts[..m], i);
    ActiveIff(cfg, acts[..m], j);
    var p: nat :| ActiveSince(cfg, acts[..m], p, i);
    var q: nat :| ActiveSince(cfg, acts[..m], q, j);
    SameStep(cfg, acts, m, p, i);
    SameStep(cfg, acts, m, q, j);
    if i != j && p < q { NotEnded(cfg, acts, m, p, q, i); }
    if i != j && q < p { NotEnded(cfg, acts, m, q, p, j); }
  }

  lemma EndedKeepsOne(cfg: Config, acts: seq<Action>, m: nat)
    requires EndedInBetween(cfg, acts) && m <= |acts| && Run(cfg, acts[..m]).Some?
    ensures AtMostOneActive(Run(cfg, acts[..m]).value.rows)
  {
    var s := Run(cfg, acts[..m]).value;
    forall i, j | ActiveIn(s, i) && ActiveIn(s, j) ensures i == j {
      EndedMeansOne(cfg, acts, m, i, j);
    }
    OneOfRows(s);
  }

  lemma OneOfRows(s: State)
    requires forall i, j :: ActiveIn(s, i) && ActiveIn(s, j) ==> i == j
    ensures AtMostOneActive(s.rows)
  {
    forall i, j | i in s.rows && j in s.rows && s.rows[i].status == Active && s.rows[j].status == Active ensures i == j {
      assert ActiveIn(s, i) && ActiveIn(s, j);
    }
  }

  lemma NotEnded(cfg: Config, acts: seq<Action>, m: nat, p: nat, q: nat, id: Id)
    requires p < q < m <= |acts| && ActiveSince(cfg, acts[..m], p, id)
    ensures !EndedFrom(cfg, acts, p, q, id)
  {
    forall n: nat | p < n < q ensures !EndsAt(cfg, acts, n, id) { SameStep(cfg, acts, m, n, id); }
  }

  /**
   Over every interleaving: no prefix of a run leaves two active keys if and only if, between the promotions of any two
   different keys, some activation demotes or the first key is retired.
   */
  lemma OneActiveIffEnded(cfg: Config, acts: seq<Action>)
    requires Run(cfg, acts).Some?
    ensures NeverTwoActive(cfg, acts) <==> EndedInBetween(cfg, acts)
  {
    if EndedInBetween(cfg, acts) {
      forall m: nat | m <= |acts| && Run(cfg, acts[..m]).Some? ensures AtMostOneActive(Run(cfg, acts[..m]).value.rows) {
        EndedKeepsOne(cfg, acts, m);
      }
    } else {
      var p: nat, q: nat, i, j :|
        p < q && i != j && PromotesAt(cfg, acts, p, i) && PromotesAt(cfg, acts, q, j) && !EndedFrom(cfg, acts, p, q, i);
      BothActive(cfg, acts, p, q, i, j);
    }
  }

  /** Activations do not overlap: each begins after the last one before it has made its key active. */
  ghost predicate OneAtATime(acts: seq<Action>) {
    forall p: nat, q: nat :: p < q < |acts| && acts[p].Promote? && acts[q].Promote? ==> BegunBetween(acts, p, q)
  }

  ghost predicate BegunBetween(acts: seq<Action>, p: nat, q: nat)
    requires q < |acts| && acts[q].Promote?
  {
    exists d: nat :: p < d < q && acts[d].BeginActivate? && acts[d].op == acts[q].op
  }

  /** An activation begun at step d and ready to promote has demoted in between. */
  lemma {:induction false} ReadyMeansDemoted(cfg: Config, acts: seq<Action>, d: nat, m: nat)
    requires Run(cfg, acts).Some? && d < m <= |acts| && acts[d].BeginActivate? && Run(cfg, acts[..m]).Some?
    requires acts[d].op in Run(cfg, acts[..m]).value.ops && Run(cfg, acts[..m]).value.ops[acts[d].op].Promoting?
    ensures exists n: nat :: d < n < m && acts[n].Demote?
    decreases m
  {
    PrefixRuns(cfg, acts, m - 1);
    if m > d + 1 && !acts[m - 1].Demote? {
      ReadyMeansDemoted(cfg, acts, d, m - 1);
    }
  }

  /** One activation at a time keeps one active key, whatever else interleaves with it. */
  lemma OneAtATimeKeepsOneActive(cfg: Config, acts: seq<Action>)
    requires Run(cfg, acts).Some? && OneAtATime(acts)
    ensures NeverTwoActive(cfg, acts)
  {
    forall p: nat, q: nat, i, j | p < q && i != j && PromotesAt(cfg, acts, p, i) && PromotesAt(cfg, acts, q, j)
      ensures EndedFrom(cfg, acts, p, q, i)
    {
      assert BegunBetween(acts, p, q);
      var d: nat :| p < d < q && acts[d].BeginActivate? && acts[d].op == acts[q].op;
      PrefixRuns(cfg, acts, q);
      ReadyMeansDemoted(cfg, acts, d, q);
      var n: nat :| d < n < q && acts[n].Demote?;
      assert EndsAt(cfg, acts, n, i);
    }
    OneActiveIffEnded(cfg, acts);
  }

  /** Two keys, both being activated, neither yet promoted. */
  lemma TwoBegun(cfg: Config) returns (acts: seq<Action>, s: State)
    ensures Run(cfg, acts) == Some(s) && s.rows.Keys == {0, 1}
    ensures s.ops == map[0 := Activating(0, 0), 1 := Activating(1, 0)]
  {
    acts, s := Extend(cfg, [], START, Create(0, [0]));
    acts, s := Extend(cfg, acts, s, Create(1, [1]));
    acts, s := Extend(cfg, acts, s, BeginActivate(0, 0));
    acts, s := Extend(cfg, acts, s, BeginActivate(1, 1));
  }

  lemma TwoDemoted(cfg: Config) returns (acts: seq<Action>, s: State)
    ensures Run(cfg, acts) == Some(s) && s.rows.Keys == {0, 1}
    ensures s.ops == map[0 := Promoting(0, 0), 1 := Promoting(1, 0)]
  {
    acts, s := TwoBegun(cfg);
    acts, s := Extend(cfg, acts, s, Demote(0));
    acts, s := Extend(cfg, acts, s, Demote(1));
  }

  /** Two activations whose writes interleave leave two active keys: such runs exist. */
  lemma InterleavedActivationsLeaveTwoActive(cfg: Config)
    ensures exists acts :: Run(cfg, acts).Some? && !AtMostOneActive(Run(cfg, acts).value.rows)
  {
    var acts, s := TwoDemoted(cfg);
    acts, s := Extend(cfg, acts, s, Promote(0));
    acts, s := Extend(cfg, acts, s, Promote(1));
    assert s.rows[0].status == Active && s.rows[1].status == Active;
  }
}
