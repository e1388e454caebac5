/**
 Replay guard and exchanges together: an assertion is issued, verified, guarded, and past its guard its exchange begins.
 Over every run one assertion yields at most one token exactly when the guard's TTL covers lifetime and delay.
 */
module GuardedRuns {
  import opened Wrappers
  import opened Text
  import opened Redis
  import opened Broker
  import opened Directory
  import opened Requester
  import opened Exchange
  import R = Replay
  import E = ExchangeRuns
  import A = ExchangeAnswers

  datatype Settings = Settings(guard: R.Config, exchange: E.Settings)

  datatype Presented = Presented(claims: RequesterClaims, code: Text)

  /** `waiting`: what was presented, of the exchanges between their verification and their guard. The guard's keys and the cache's are disjoint. */
  datatype State = State(guard: R.State<CacheDoc>, exchange: E.State, waiting: map<nat, Presented>)

  datatype Action =
    | Tick(ms: nat)
    | Issue(requestId: Text)
    | Verify(e: nat, claims: RequesterClaims, code: Text)
    | Guard(e: nat, p: nat)
    | Step(a: E.Action)

  function RequestOf(claims: RequesterClaims, code: Text): Text {
    if ReadAssertion(Some(claims), code).Some? then ReadAssertion(Some(claims), code).value.1 else []
  }

  function FlightRequest(f: E.Flight): Text { RequestOf(f.claims, f.code) }

  ghost predicate Enabled(cfg: Settings, s: State, a: Action) {
    match a
    case Tick(_) => true
    case Issue(id) => R.Enabled(cfg.guard, s.guard, R.Issue(id))
    case Verify(e, claims, code) => e !in s.waiting && R.Enabled(cfg.guard, s.guard, R.Verify(e, RequestOf(claims, code)))
    case Guard(e, p) =>
      e in s.waiting && R.Enabled(cfg.guard, s.guard, R.Guard(e))
      && E.Enabled(cfg.exchange, s.exchange, E.Begin(p, s.waiting[e].claims, s.waiting[e].code))
    case Step(a) => !a.Advance? && !a.Begin? && E.Enabled(cfg.exchange, s.exchange, a)
  }

  /** No live key holds the request id. */
  predicate Passes(cfg: Settings, s: State, e: nat)
    requires e in s.guard.exchanges
  {
    !Live(s.guard.store, ReplayKey(cfg.guard.tenantId, s.guard.exchanges[e].requestId), s.guard.now)
  }

  ghost function Apply(cfg: Settings, s: State, a: Action): State
    requires Enabled(cfg, s, a)
  {
    match a
    case Tick(ms) => s.(guard := R.Apply(cfg.guard, s.guard, R.Advance(ms)), exchange := E.Apply(cfg.exchange, s.exchange, E.Advance(ms)))
    case Issue(id) => s.(guard := R.Apply(cfg.guard, s.guard, R.Issue(id)))
    case Verify(e, claims, code) =>
      s.(guard := R.Apply(cfg.guard, s.guard, R.Verify(e, RequestOf(claims, code))), waiting := s.waiting[e := Presented(claims, code)])
    case Guard(e, p) =>
      s.(guard := R.Apply(cfg.guard, s.guard, R.Guard(e)),
         exchange := if Passes(cfg, s, e) then E.Apply(cfg.exchange, s.exchange, E.Begin(p, s.waiting[e].claims, s.waiting[e].code)) else s.exchange,
         waiting := s.waiting - {e})
    case Step(a) => s.(exchange := E.Apply(cfg.exchange, s.exchange, a))
  }

  ghost function Run(cfg: Settings, s: State, acts: seq<Action>): Option<State>
    decreases |acts|
  {
    if acts == [] then Some(s)
    else if Enabled(cfg, s, acts[0]) then Run(cfg, Apply(cfg, s, acts[0]), acts[1..])
    else None
  }

  ghost predicate Initial(cfg: Settings, s: State) {
    s.guard == R.Start() && E.Initial(cfg.exchange, s.exchange) && s.exchange.now == s.guard.now && s.waiting == map[]
  }

  predicate Covered(cfg: Settings) { 1000 * cfg.guard.replayTtlSeconds >= 1000 * R.ASSERTION_TTL_SECONDS + cfg.guard.maxDelayMs }

  // ---------- at most once ----------

  /** The guard knows a waiting exchange by the request id it presented. */
  ghost predicate WaitingMatches(s: State) {
    forall e :: e in s.waiting ==> e in s.guard.exchanges && s.guard.exchanges[e].requestId == RequestOf(s.waiting[e].claims, s.waiting[e].code)
  }

  /** The request ids of the exchanges under way. */
  function UnderWay(x: E.State): map<nat, Text> { map p | p in x.flights :: FlightRequest(x.flights[p]) }

  /** The request ids of the answers given, in order. */
  function Answered(x: E.State): (r: seq<Text>)
    ensures |r| == |x.returned|
  {
    seq(|x.returned|, i requires 0 <= i < |x.returned| => FlightRequest(x.returned[i].flight))
  }

  predicate NoDuplicates(ids: seq<Text>) { forall i, j :: 0 <= i < j < |ids| ==> ids[i] != ids[j] }

  /** Every request id belongs to one exchange under way or to one answer. */
  predicate Apart(open: map<nat, Text>, answered: seq<Text>) {
    && (forall p, q :: p in open && q in open && open[p] == open[q] ==> p == q)
    && NoDuplicates(answered)
    && (forall p :: p in open ==> open[p] !in answered)
  }

  predicate AllPassed(open: map<nat, Text>, answered: seq<Text>, passed: multiset<Text>) {
    (forall p :: p in open ==> open[p] in passed) && (forall id :: id in answered ==> id in passed)
  }

  ghost predicate Once(cfg: Settings, s: State) {
    && R.Protected(cfg.guard, s.guard) && WaitingMatches(s)
    && AllPassed(UnderWay(s.exchange), Answered(s.exchange), s.guard.passed) && Apart(UnderWay(s.exchange), Answered(s.exchange))
  }

  lemma ReadKeepsAsked(cfg: E.Settings, x: E.State, a: E.Action)
    requires E.Enabled(cfg, x, a) && E.IsRead(a)
    ensures E.Moved(cfg, x, a).Some? && FlightRequest(E.Moved(cfg, x, a).value) == FlightRequest(x.flights[a.p])
  {
    E.ReadTouches(cfg, E.Present(x), |x.history|, x.flights[a.p], a);
  }

  lemma MoveKeepsAsked(cfg: E.Settings, x: E.State, a: E.Action)
    requires E.Enabled(cfg, x, a) && E.OfExchange(a) && !E.IsRead(a) && !a.Begin? && E.Moved(cfg, x, a).Some?
    ensures FlightRequest(E.Moved(cfg, x, a).value) == FlightRequest(x.flights[a.p])
  {
  }

  /** No step but its beginning changes what an exchange was asked. */
  lemma AskedKept(cfg: E.Settings, x: E.State, a: E.Action, p: nat)
    requires E.Enabled(cfg, x, a) && !a.Begin? && p in E.FlightsAfter(cfg, x, a)
    ensures p in x.flights && FlightRequest(E.FlightsAfter(cfg, x, a)[p]) == FlightRequest(x.flights[p])
  {
    if E.OfExchange(a) && a.p == p {
      if E.IsRead(a) { ReadKeepsAsked(cfg, x, a); } else { MoveKeepsAsked(cfg, x, a); }
    }
  }

  /** Exchanges go on as asked or end; at most one of those that end is answered. */
  ghost predicate GoesOn(open: map<nat, Text>, answered: seq<Text>, open': map<nat, Text>, answered': seq<Text>) {
    && (forall p :: p in open' ==> p in open && open'[p] == open[p])
    && (answered' == answered || exists p :: p in open && p !in open' && answered' == answered + [open[p]])
  }

  lemma StepGoesOn(cfg: E.Settings, x: E.State, a: E.Action)
    requires E.Enabled(cfg, x, a) && !a.Begin?
    ensures GoesOn(UnderWay(x), Answered(x), UnderWay(E.Apply(cfg, x, a)), Answered(E.Apply(cfg, x, a)))
  {
    var x' := E.Apply(cfg, x, a);
    forall p | p in x'.flights ensures p in x.flights && FlightRequest(x'.flights[p]) == FlightRequest(x.flights[p]) {
      AskedKept(cfg, x, a, p);
    }
    if a.Return? { assert a.p in UnderWay(x) && a.p !in UnderWay(x') && Answered(x') == Answered(x) + [UnderWay(x)[a.p]]; }
  }

  lemma GoesOnApart(open: map<nat, Text>, answered: seq<Text>, open': map<nat, Text>, answered': seq<Text>)
    requires Apart(open, answered) && GoesOn(open, answered, open', answered')
    ensures Apart(open', answered')
  {
  }

  lemma GoesOnPassed(open: map<nat, Text>, answered: seq<Text>, open': map<nat, Text>, answered': seq<Text>, passed: multiset<Text>)
    requires AllPassed(open, answered, passed) && GoesOn(open, answered, open', answered')
    ensures AllPassed(open', answered', passed)
  {
  }

  lemma ExchangeStep(cfg: Settings, s: State, a: E.Action)
    requires Once(cfg, s) && Enabled(cfg, s, Step(a))
    ensures Once(cfg, Apply(cfg, s, Step(a)))
  {
    var x, x' := s.exchange, E.Apply(cfg.exchange, s.exchange, a);
    StepGoesOn(cfg.exchange, x, a);
    GoesOnApart(UnderWay(x), Answered(x), UnderWay(x'), Answered(x'));
    GoesOnPassed(UnderWay(x), Answered(x), UnderWay(x'), Answered(x'), s.guard.passed);
  }

  lemma BeginFlight(cfg: E.Settings, x: E.State, p: nat, claims: RequesterClaims, code: Text)
    requires E.Enabled(cfg, x, E.Begin(p, claims, code))
    ensures var x' := E.Apply(cfg, x, E.Begin(p, claims, code));
      && p !in x.flights && p in x'.flights && x'.flights == x.flights[p := x'.flights[p]] && x'.returned == x.returned
      && x'.flights[p].claims == claims && x'.flights[p].code == code
  {
  }

  /** A new exchange joins, and nothing else changes. */
  lemma BeginJoins(cfg: E.Settings, x: E.State, p: nat, claims: RequesterClaims, code: Text)
    requires E.Enabled(cfg, x, E.Begin(p, claims, code))
    ensures var x' := E.Apply(cfg, x, E.Begin(p, claims, code));
      p !in UnderWay(x) && UnderWay(x') == UnderWay(x)[p := RequestOf(claims, code)] && Answered(x') == Answered(x)
  {
    BeginFlight(cfg, x, p, claims, code);
    FlightJoins(x, E.Apply(cfg, x, E.Begin(p, claims, code)), p);
  }

  lemma FlightJoins(x: E.State, x': E.State, p: nat)
    requires p !in x.flights && p in x'.flights && x'.flights == x.flights[p := x'.flights[p]] && x'.returned == x.returned
    ensures p !in UnderWay(x) && UnderWay(x') == UnderWay(x)[p := FlightRequest(x'.flights[p])] && Answered(x') == Answered(x)
  {
    assert forall q :: q in x.flights && q != p ==> x'.flights[q] == x.flights[q];
  }

  lemma JoinsApart(open: map<nat, Text>, answered: seq<Text>, p: nat, id: Text)
    requires Apart(open, answered) && p !in open && id !in answered && forall q :: q in open ==> open[q] != id
    ensures Apart(open[p := id], answered)
  {
  }

  /** A request id that passes had not passed before. */
  lemma PassesNew(cfg: Settings, s: State, e: nat, p: nat)
    requires Covered(cfg) && R.Protected(cfg.guard, s.guard) && Enabled(cfg, s, Guard(e, p)) && Passes(cfg, s, e)
    ensures s.guard.exchanges[e].requestId !in s.guard.passed
    ensures R.Apply(cfg.guard, s.guard, R.Guard(e)).passed == s.guard.passed + multiset{s.guard.exchanges[e].requestId}
  {
    if s.guard.exchanges[e].requestId in s.guard.passed { R.GuardedInTime(cfg.guard, s.guard, e); }
  }

  lemma GuardStep(cfg: Settings, s: State, e: nat, p: nat)
    requires Covered(cfg) && Once(cfg, s) && Enabled(cfg, s, Guard(e, p))
    ensures var s' := Apply(cfg, s, Guard(e, p));
      AllPassed(UnderWay(s'.exchange), Answered(s'.exchange), s'.guard.passed) && Apart(UnderWay(s'.exchange), Answered(s'.exchange))
  {
    if Passes(cfg, s, e) {
      PassesNew(cfg, s, e, p);
      BeginJoins(cfg.exchange, s.exchange, p, s.waiting[e].claims, s.waiting[e].code);
      JoinsApart(UnderWay(s.exchange), Answered(s.exchange), p, s.guard.exchanges[e].requestId);
    }
  }

  lemma WaitingStep(cfg: Settings, s: State, a: Action)
    requires WaitingMatches(s) && Enabled(cfg, s, a)
    ensures WaitingMatches(Apply(cfg, s, a))
  {
  }

  lemma GuardSideStep(cfg: Settings, s: State, a: Action)
    requires Covered(cfg) && R.Protected(cfg.guard, s.guard) && Enabled(cfg, s, a)
    ensures R.Protected(cfg.guard, Apply(cfg, s, a).guard)
  {
    match a
    case Tick(ms) => R.ProtectedStep(cfg.guard, s.guard, R.Advance(ms));
    case Issue(id) => R.ProtectedStep(cfg.guard, s.guard, R.Issue(id));
    case Verify(e, claims, code) => R.ProtectedStep(cfg.guard, s.guard, R.Verify(e, RequestOf(claims, code)));
    case Guard(e, _) => R.ProtectedStep(cfg.guard, s.guard, R.Guard(e));
    case Step(_) =>
  }

  lemma TickKeeps(cfg: E.Settings, x: E.State, ms: nat)
    ensures var x' := E.Apply(cfg, x, E.Advance(ms)); UnderWay(x') == UnderWay(x) && Answered(x') == Answered(x)
  {
  }

  lemma OnceStep(cfg: Settings, s: State, a: Action)
    requires Covered(cfg) && Once(cfg, s) && Enabled(cfg, s, a)
    ensures Once(cfg, Apply(cfg, s, a))
  {
    GuardSideStep(cfg, s, a);
    WaitingStep(cfg, s, a);
    match a
    case Tick(ms) => TickKeeps(cfg.exchange, s.exchange, ms);
    case Guard(e, p) => GuardStep(cfg, s, e, p);
    case Step(b) => ExchangeStep(cfg, s, b);
    case _ =>
  }

  lemma {:induction false} RunsAreOnce(cfg: Settings, s: State, acts: seq<Action>)
    requires Covered(cfg) && Once(cfg, s) && Run(cfg, s, acts).Some?
    ensures Once(cfg, Run(cfg, s, acts).value)
    decreases |acts|
  {
    if acts != [] {
      OnceStep(cfg, s, acts[0]);
      RunsAreOnce(cfg, Apply(cfg, s, acts[0]), acts[1..]);
    }
  }

  /** A guarded run's exchanges are a run of exchanges, so all that holds of those holds of these. */
  lemma {:induction false} ExchangesRun(cfg: Settings, s: State, acts: seq<Action>) returns (exchangeActs: seq<E.Action>)
    requires Run(cfg, s, acts).Some?
    ensures E.Run(cfg.exchange, s.exchange, exchangeActs) == Some(Run(cfg, s, acts).value.exchange)
    decreases |acts|
  {
    if acts == [] { return []; }
    var s' := Apply(cfg, s, acts[0]);
    exchangeActs := ExchangesRun(cfg, s', acts[1..]);
    var first := match acts[0]
      case Tick(ms) => [E.Advance(ms)]
      case Guard(e, p) => if Passes(cfg, s, e) then [E.Begin(p, s.waiting[e].claims, s.waiting[e].code)] else []
      case Step(a) => [a]
      case _ => [];
    assert E.Run(cfg.exchange, s.exchange, first) == Some(s'.exchange);
    A.RunThen(cfg.exchange, s.exchange, first, exchangeActs);
    exchangeActs := first + exchangeActs;
  }

  // ---------- a second token ----------

  lemma {:induction false} RunThen(cfg: Settings, s: State, acts: seq<Action>, more: seq<Action>)
    requires Run(cfg, s, acts).Some?
    ensures Run(cfg, s, acts + more) == Run(cfg, Run(cfg, s, acts).value, more)
    decreases |acts|
  {
    if acts == [] {
      assert [] + more == more;
    } else {
      assert (acts + more)[1..] == acts[1..] + more;
      RunThen(cfg, Apply(cfg, s, acts[0]), acts[1..], more);
    }
  }

  lemma Extend(cfg: Settings, s0: State, acts: seq<Action>, s: State, a: Action) returns (acts': seq<Action>, s': State)
    requires Run(cfg, s0, acts) == Some(s) && Enabled(cfg, s, a)
    ensures s' == Apply(cfg, s, a) && Run(cfg, s0, acts') == Some(s')
  {
    acts', s' := acts + [a], Apply(cfg, s, a);
    assert Run(cfg, s, [a]) == Some(s');
    RunThen(cfg, s0, acts, [a]);
  }

  /** Steps of exchanges run the same beside the guard. */
  lemma {:induction false} Lift(cfg: Settings, s: State, steps: seq<E.Action>) returns (acts: seq<Action>)
    requires A.Plain(steps) && E.Run(cfg.exchange, s.exchange, steps).Some?
    ensures Run(cfg, s, acts) == Some(s.(exchange := E.Run(cfg.exchange, s.exchange, steps).value))
    decreases |steps|
  {
    if steps == [] {
      return [];
    }
    var s' := Apply(cfg, s, Step(steps[0]));
    var rest := Lift(cfg, s', steps[1..]);
    acts := [Step(steps[0])] + rest;
    assert acts[1..] == rest;
  }

  /** A waiting exchange that passes its guard with an authorised request gets its answer. */
  lemma Use(cfg: Settings, s0: State, acts: seq<Action>, s: State, e: nat, p: nat, q: A.Ask, jti: Text)
    returns (acts': seq<Action>, s': State, r: E.Returned)
    requires Run(cfg, s0, acts) == Some(s) && p !in s.exchange.flights && jti !in s.exchange.signed
    requires e in s.waiting && s.waiting[e] == Presented(q.claims, q.code) && R.Enabled(cfg.guard, s.guard, R.Guard(e)) && Passes(cfg, s, e)
    requires A.Asks(cfg.exchange, s.exchange.rows, s.exchange.now, q)
    ensures Run(cfg, s0, acts') == Some(s') && s'.guard == R.Apply(cfg.guard, s.guard, R.Guard(e)) && s'.waiting == s.waiting - {e}
    ensures A.Beside(s.exchange, s'.exchange, p) && p !in s'.exchange.flights && s'.exchange.signed <= s.exchange.signed + {jti}
    ensures s'.exchange.returned == s.exchange.returned + [r] && FlightRequest(r.flight) == RequestOf(q.claims, q.code)
  {
    A.BegunStands(cfg.exchange, s.exchange, p, q);
    var begun;
    acts', begun := Extend(cfg, s0, acts, s, Guard(e, p));
    var steps, x;
    steps, x, r := A.AdmittedIsAnswered(cfg.exchange, begun.exchange, p, q, jti);
    var more := Lift(cfg, begun, steps);
    RunThen(cfg, s0, acts', more);
    acts', s' := acts' + more, begun.(exchange := x);
  }

  /** The rows authorise the request until then. */
  ghost predicate Standing(cfg: Settings, rows: Rows, until: int, q: A.Ask) {
    forall now :: now < until ==> A.Asks(cfg.exchange, rows, now, q)
  }

  function Id(q: A.Ask): Text { RequestOf(q.claims, q.code) }

  function Taken(cfg: Settings, q: A.Ask): Store<CacheDoc> {
    map[ReplayKey(cfg.guard.tenantId, Id(q)) := Cell(Flag, Some(1000 * cfg.guard.replayTtlSeconds))]
  }

  /** Nothing is under way, and these answers have been given. */
  predicate Idle(x: E.State, rows: Rows, now: int, answered: seq<Text>) {
    x.now == now && x.rows == rows && x.flights == map[] && x.signed <= {[1]} && Answered(x) == answered
  }

  /** One assertion, issued at 0 and verified at once. */
  lemma FirstVerified(cfg: Settings, s: State, q: A.Ask) returns (acts: seq<Action>, s': State)
    requires s.guard == R.Start() && s.waiting == map[]
    ensures Run(cfg, s, acts) == Some(s') && s'.exchange == s.exchange && s'.waiting == map[0 := Presented(q.claims, q.code)]
    ensures s'.guard == R.State(0, map[], map[Id(q) := 0], map[0 := R.Verified(Id(q), 0)], multiset{})
  {
    acts, s' := Extend(cfg, s, [], s, Issue(Id(q)));
    acts, s' := Extend(cfg, s, acts, s', Verify(0, q.claims, q.code));
  }

  lemma FirstPasses(cfg: Settings, s: State, q: A.Ask)
    requires s.guard == R.State(0, map[], map[Id(q) := 0], map[0 := R.Verified(Id(q), 0)], multiset{})
    ensures R.Enabled(cfg.guard, s.guard, R.Guard(0)) && Passes(cfg, s, 0)
    ensures R.Apply(cfg.guard, s.guard, R.Guard(0)) == R.State(0, Taken(cfg, q), map[Id(q) := 0], map[], multiset{Id(q)})
  {
    assert map[0 := R.Verified(Id(q), 0)] - {0} == map[];
  }

  lemma AnsweredMore(x: E.State, x': E.State, r: E.Returned)
    requires x'.returned == x.returned + [r]
    ensures Answered(x') == Answered(x) + [FlightRequest(r.flight)]
  {
  }

  /** Answered, it leaves nothing under way. */
  lemma IdleAgain(x: E.State, x': E.State, p: nat, r: E.Returned)
    requires x.flights == map[] && x.signed == {} && Answered(x) == []
    requires A.Beside(x, x', p) && p !in x'.flights && x'.signed <= x.signed + {[1]} && x'.returned == x.returned + [r]
    ensures Idle(x', x.rows, x.now, [FlightRequest(r.flight)])
  {
    AnsweredMore(x, x', r);
    assert x'.flights == x'.flights - {p};
  }

  /** The first token: its request id is taken for the guard's TTL. */
  lemma FirstToken(cfg: Settings, s: State, until: int, q: A.Ask) returns (acts: seq<Action>, s': State)
    requires s.guard == R.Start() && s.waiting == map[] && s.exchange.now == 0 && s.exchange.flights == map[] && s.exchange.signed == {}
    requires Answered(s.exchange) == [] && 0 < until && Standing(cfg, s.exchange.rows, until, q)
    ensures Run(cfg, s, acts) == Some(s') && s'.waiting == map[] && Idle(s'.exchange, s.exchange.rows, 0, [Id(q)])
    ensures s'.guard == R.State(0, Taken(cfg, q), map[Id(q) := 0], map[], multiset{Id(q)})
  {
    var v, r;
    acts, v := FirstVerified(cfg, s, q);
    FirstPasses(cfg, v, q);
    acts, s', r := Use(cfg, s, acts, v, 0, 0, q, [1]);
    IdleAgain(v.exchange, s'.exchange, 0, r);
  }

  lemma TickIdle(cfg: E.Settings, x: E.State, rows: Rows, now: int, answered: seq<Text>, ms: nat)
    requires Idle(x, rows, now, answered)
    ensures Idle(E.Apply(cfg, x, E.Advance(ms)), rows, now + ms, answered)
  {
    TickKeeps(cfg, x, ms);
  }

  /** The same assertion, verified at its last moment and guarded as late as possible. */
  lemma SecondVerified(cfg: Settings, s: State, rows: Rows, q: A.Ask) returns (acts: seq<Action>, s': State)
    requires s.waiting == map[] && Idle(s.exchange, rows, 0, [Id(q)])
    requires s.guard == R.State(0, Taken(cfg, q), map[Id(q) := 0], map[], multiset{Id(q)})
    ensures Run(cfg, s, acts) == Some(s') && s'.waiting == map[1 := Presented(q.claims, q.code)]
    ensures Idle(s'.exchange, rows, 299_999 + cfg.guard.maxDelayMs, [Id(q)])
    ensures s'.guard == R.State(299_999 + cfg.guard.maxDelayMs, Taken(cfg, q), map[Id(q) := 0], map[1 := R.Verified(Id(q), 299_999)], multiset{Id(q)})
  {
    TickIdle(cfg.exchange, s.exchange, rows, 0, [Id(q)], 299_999);
    acts, s' := Extend(cfg, s, [], s, Tick(299_999));
    acts, s' := Extend(cfg, s, acts, s', Verify(1, q.claims, q.code));
    TickIdle(cfg.exchange, s'.exchange, rows, 299_999, [Id(q)], cfg.guard.maxDelayMs);
    acts, s' := Extend(cfg, s, acts, s', Tick(cfg.guard.maxDelayMs));
  }

  lemma SecondPasses(cfg: Settings, s: State, q: A.Ask)
    requires !Covered(cfg)
    requires s.guard == R.State(299_999 + cfg.guard.maxDelayMs, Taken(cfg, q), map[Id(q) := 0], map[1 := R.Verified(Id(q), 299_999)], multiset{Id(q)})
    ensures R.Enabled(cfg.guard, s.guard, R.Guard(1)) && Passes(cfg, s, 1)
  {
  }

  lemma TwoTokens(cfg: Settings, s: State, q: A.Ask) returns (acts: seq<Action>, s': State)
    requires !Covered(cfg) && s.guard == R.Start() && s.waiting == map[] && s.exchange.now == 0 && s.exchange.flights == map[]
    requires s.exchange.signed == {} && Answered(s.exchange) == [] && Standing(cfg, s.exchange.rows, 300_000 + cfg.guard.maxDelayMs, q)
    ensures Run(cfg, s, acts) == Some(s') && !NoDuplicates(Answered(s'.exchange))
  {
    var used, first := FirstToken(cfg, s, 300_000 + cfg.guard.maxDelayMs, q);
    var more, v := SecondVerified(cfg, first, s.exchange.rows, q);
    RunThen(cfg, s, used, more);
    SecondPasses(cfg, v, q);
    var t;
    acts, s', t := Use(cfg, s, used + more, v, 1, 1, q, [2]);
    AnsweredMore(v.exchange, s'.exchange, t);
    assert Answered(s'.exchange)[0] == Answered(s'.exchange)[1];
  }

  // ---------- main result ----------

  ghost predicate OneTokenEach(cfg: Settings) {
    forall s, acts :: Initial(cfg, s) && Run(cfg, s, acts).Some? ==> NoDuplicates(Answered(Run(cfg, s, acts).value.exchange))
  }

  lemma SomeStanding(cfg: Settings, until: int)
    ensures Standing(cfg, A.SomeRows(until), until, A.AnAsk(cfg.exchange, [49]))
  {
    forall now | now < until ensures A.Asks(cfg.exchange, A.SomeRows(until), now, A.AnAsk(cfg.exchange, [49])) {
      A.AskIsAuthorised(cfg.exchange, until, now, [49]);
    }
  }

  lemma TwoTokensSomewhere(cfg: Settings, s: State, q: A.Ask)
    requires !Covered(cfg) && Initial(cfg, s) && s.exchange.now == 0 && Standing(cfg, s.exchange.rows, 300_000 + cfg.guard.maxDelayMs, q)
    ensures !OneTokenEach(cfg)
  {
    var acts, s' := TwoTokens(cfg, s, q);
  }

  /** With a shorter TTL one assertion can yield two tokens. */
  lemma SecondToken(cfg: Settings)
    requires !Covered(cfg)
    ensures !OneTokenEach(cfg)
  {
    var until := 300_000 + cfg.guard.maxDelayMs;
    SomeStanding(cfg, until);
    TwoTokensSomewhere(cfg, State(R.Start(), A.AtStart(until), map[]), A.AnAsk(cfg.exchange, [49]));
  }

  /** Over every run one assertion yields at most one token, if and only if the guard's TTL covers lifetime and delay. */
  lemma OneTokenEachIffCovered(cfg: Settings)
    ensures OneTokenEach(cfg) <==> Covered(cfg)
  {
    if Covered(cfg) {
      forall s, acts | Initial(cfg, s) && Run(cfg, s, acts).Some? ensures NoDuplicates(Answered(Run(cfg, s, acts).value.exchange)) {
        RunsAreOnce(cfg, s, acts);
      }
    } else {
      SecondToken(cfg);
    }
  }
}
