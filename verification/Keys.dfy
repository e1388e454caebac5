/** Signing-key records, the admin operations on them, and the queries the token signer makes. */
module Keys {
  import opened Wrappers
  import opened Text

  type Id = nat

  /** The lifetimes that fix how long a retired key still verifies. */
  datatype Lifetimes = Lifetimes(accessTokenTtlSeconds: nat, targetTokenTtlSeconds: nat)

  datatype KeyStatus = Pending | Active | Verifying | Retired

  /** One RS256 record; the key material is identified with the record's id. */
  datatype KeyRow = KeyRow(kid: Text, status: KeyStatus, activatedAt: Option<int>, retiredAt: Option<int>)

  datatype KeyError = InvalidKeyAlgorithm | KeyNotFound

  // ---------- the writes ----------

  /** The first write of an activation: every active key keeps verifying. */
  function Demoted(rows: map<Id, KeyRow>): (r: map<Id, KeyRow>)
    ensures r.Keys == rows.Keys
  {
    map id | id in rows :: if rows[id].status == Active then rows[id].(status := Verifying, retiredAt := None) else rows[id]
  }

  /** The second write of an activation. */
  function Promoted(rows: map<Id, KeyRow>, id: Id, stamp: int): map<Id, KeyRow>
    requires id in rows
  {
    rows[id := rows[id].(status := Active, activatedAt := Some(stamp), retiredAt := None)]
  }

  function MarkedRetired(rows: map<Id, KeyRow>, id: Id, stamp: int): map<Id, KeyRow>
    requires id in rows
  {
    rows[id := rows[id].(status := Retired, retiredAt := Some(stamp))]
  }

  ghost predicate AtMostOneActive(rows: map<Id, KeyRow>) {
    forall i, j :: i in rows && j in rows && rows[i].status == Active && rows[j].status == Active ==> i == j
  }

  ghost predicate DistinctKids(rows: map<Id, KeyRow>) {
    forall i, j :: i in rows && j in rows && rows[i].kid == rows[j].kid ==> i == j
  }

  class KeysService {
    var rows: map<Id, KeyRow>

    constructor ()
      ensures rows == map[]
    {
      rows := map[];
    }

    /** `id` and `generatedKid` are the fresh identifiers the database and the service draw. */
    method Create(kid: Option<Text>, algorithm: Option<Text>, id: Id, generatedKid: Text) returns (r: Result<KeyRow, KeyError>)
      requires id !in rows
      modifies this`rows
      ensures r.Err? <==> NonBlank(algorithm).Some? && NonBlank(algorithm) != Some(Literal("RS256"))
      ensures r.Err? ==> r == Err(InvalidKeyAlgorithm) && rows == old(rows)
      ensures r.Ok? ==>
        && r.value.status == Pending && r.value.activatedAt == None && r.value.retiredAt == None
        && r.value.kid == (if NonBlank(kid).Some? then NonBlank(kid).value else generatedKid)
        && rows == old(rows)[id := r.value]
      ensures old(AtMostOneActive(rows)) ==> AtMostOneActive(rows)
    {
      var requested := NonBlank(algorithm);
      if requested.Some? && requested.value != Literal("RS256") { return Err(InvalidKeyAlgorithm); }
      var name := NonBlank(kid);
      var row := KeyRow(if name.Some? then name.value else generatedKid, Pending, None, None);
      rows := rows[id := row];
      return Ok(row);
    }

    /** Uninterrupted, an activation leaves exactly one active key: the one asked for. */
    method Activate(id: Id, now: int) returns (r: Result<KeyRow, KeyError>)
      modifies this`rows
      ensures r.Err? <==> id !in old(rows)
      ensures r.Err? ==> r == Err(KeyNotFound) && rows == old(rows)
      ensures r.Ok? ==> rows == Promoted(Demoted(old(rows)), id, now) && r.value == rows[id]
      ensures r.Ok? ==> forall i :: i in rows && rows[i].status == Active <==> i == id
    {
      if id !in rows { return Err(KeyNotFound); }
      rows := Demoted(rows);
      rows := Promoted(rows, id, now);
      return Ok(rows[id]);
    }

    method Retire(id: Id, now: int) returns (r: Result<KeyRow, KeyError>)
      modifies this`rows
      ensures r.Err? <==> id !in old(rows)
      ensures r.Err? ==> r == Err(KeyNotFound) && rows == old(rows)
      ensures r.Ok? ==> rows == MarkedRetired(old(rows), id, now) && r.value == rows[id]
      ensures old(AtMostOneActive(rows)) ==> AtMostOneActive(rows)
    {
      if id !in rows { return Err(KeyNotFound); }
      rows := MarkedRetired(rows, id, now);
      return Ok(rows[id]);
    }
  }

  // ---------- the signer's queries ----------

  function MaxTokenLifetimeSeconds(cfg: Lifetimes): nat {
    Max(cfg.accessTokenTtlSeconds, Max(cfg.targetTokenTtlSeconds, 300))
  }

  /** The record the signer takes; the latest activation among the active ones. */
  predicate SigningKey(rows: map<Id, KeyRow>, id: Id) {
    && id in rows && rows[id].status == Active
    && forall other :: other in rows && rows[other].status == Active ==> NotLater(rows[other].activatedAt, rows[id].activatedAt)
  }

  /** Order of `activatedAt`; where null falls is the database's affair. */
  predicate NotLater(a: Option<int>, b: Option<int>) {
    a.Some? && b.Some? ==> a.value <= b.value
  }

  /** Past the status filter of the query, and, if retired, within the grace period. */
  predicate Usable(cfg: Lifetimes, row: KeyRow, now: int) {
    match row.status
    case Pending => false
    case Retired => row.retiredAt.Some? && now - row.retiredAt.value <= (MaxTokenLifetimeSeconds(cfg) + 60) * 1000
    case _ => true
  }

  /** A record `findFirst` may return for a kid. */
  predicate Candidate(rows: map<Id, KeyRow>, kid: Text, id: Id) {
    id in rows && rows[id].kid == kid && rows[id].status != Pending
  }

  /** Whatever record the query picks, it is the one with the token's key, and usable. */
  ghost predicate VerifiesWith(cfg: Lifetimes, rows: map<Id, KeyRow>, kid: Text, key: Id, now: int) {
    && Candidate(rows, kid, key)
    && forall id :: Candidate(rows, kid, id) ==> id == key && Usable(cfg, rows[id], now)
  }

  /** `getVerificationPublicKey` finds a key for the kid, whatever record it picks. */
  ghost predicate AcceptsKid(cfg: Lifetimes, rows: map<Id, KeyRow>, kid: Text, now: int) {
    && (exists id :: Candidate(rows, kid, id))
    && forall id :: Candidate(rows, kid, id) ==> Usable(cfg, rows[id], now)
  }

  /** The kids in the JWKS document. */
  function PublishedKids(cfg: Lifetimes, rows: map<Id, KeyRow>, now: int): set<Text> {
    set id | id in rows && Usable(cfg, rows[id], now) :: rows[id].kid
  }

  ghost predicate AllUsable(cfg: Lifetimes, rows: map<Id, KeyRow>, kid: Text, now: int) {
    forall id :: Candidate(rows, kid, id) ==> Usable(cfg, rows[id], now)
  }

  ghost predicate NoneUsable(cfg: Lifetimes, rows: map<Id, KeyRow>, kid: Text, now: int) {
    forall id :: Candidate(rows, kid, id) ==> !Usable(cfg, rows[id], now)
  }

  /**
   At every instant, and whatever records share a kid: the JWKS document and verification agree on the kid exactly when
   its records past pending are all usable or all not.
   */
  lemma PublishedIsAcceptedIffAgreed(cfg: Lifetimes, rows: map<Id, KeyRow>, now: int, kid: Text)
    ensures (kid in PublishedKids(cfg, rows, now) <==> AcceptsKid(cfg, rows, kid, now))
            <==> AllUsable(cfg, rows, kid, now) || NoneUsable(cfg, rows, kid, now)
  {
    UsableIsCandidate(cfg, rows, now, kid);
  }

  lemma UsableIsCandidate(cfg: Lifetimes, rows: map<Id, KeyRow>, now: int, kid: Text)
    ensures kid in PublishedKids(cfg, rows, now) <==> !NoneUsable(cfg, rows, kid, now)
  {
    if kid in PublishedKids(cfg, rows, now) {
      var id :| id in rows && Usable(cfg, rows[id], now) && rows[id].kid == kid;
      assert Candidate(rows, kid, id);
    }
  }

  /** So with distinct kids the document lists exactly the kids that verification accepts. */
  lemma PublishedIsAccepted(cfg: Lifetimes, rows: map<Id, KeyRow>, now: int, kid: Text)
    requires DistinctKids(rows)
    ensures kid in PublishedKids(cfg, rows, now) <==> AcceptsKid(cfg, rows, kid, now)
  {
    PublishedIsAcceptedIffAgreed(cfg, rows, now, kid);
  }

  /** A kid shared by a live key and one long retired is published, and yet may be refused. */
  lemma SharedKidMayBeRefused(cfg: Lifetimes, kid: Text)
    ensures var rows := map[0 := KeyRow(kid, Active, Some(0), None), 1 := KeyRow(kid, Retired, Some(0), Some(0))];
      var now := (MaxTokenLifetimeSeconds(cfg) + 60) * 1000 + 1;
      kid in PublishedKids(cfg, rows, now) && !AcceptsKid(cfg, rows, kid, now)
  {
    var rows := map[0 := KeyRow(kid, Active, Some(0), None), 1 := KeyRow(kid, Retired, Some(0), Some(0))];
    assert Usable(cfg, rows[0], (MaxTokenLifetimeSeconds(cfg) + 60) * 1000 + 1);
    assert Candidate(rows, kid, 1);
  }

  // ---------- runs of uninterrupted operations ----------

  datatype AdminCall = CreateKey(id: Id, kid: Text) | ActivateKey(id: Id, at: int) | RetireKey(id: Id, at: int)

  function AfterCall(rows: map<Id, KeyRow>, call: AdminCall): map<Id, KeyRow> {
    match call
    case CreateKey(id, kid) => if id in rows then rows else rows[id := KeyRow(kid, Pending, None, None)]
    case ActivateKey(id, at) => if id in rows then Promoted(Demoted(rows), id, at) else rows
    case RetireKey(id, at) => if id in rows then MarkedRetired(rows, id, at) else rows
  }

  function AfterCalls(rows: map<Id, KeyRow>, calls: seq<AdminCall>): map<Id, KeyRow>
    decreases |calls|
  {
    if calls == [] then rows else AfterCalls(AfterCall(rows, calls[0]), calls[1..])
  }

  /** One operation at a time there is never more than one active key, and the signer picks it. */
  lemma {:induction false} OneActiveKey(rows: map<Id, KeyRow>, calls: seq<AdminCall>)
    requires AtMostOneActive(rows)
    ensures AtMostOneActive(AfterCalls(rows, calls))
    ensures forall id :: SigningKey(AfterCalls(rows, calls), id) <==> id in AfterCalls(rows, calls) && AfterCalls(rows, calls)[id].status == Active
    decreases |calls|
  {
    if calls != [] { OneActiveKey(AfterCall(rows, calls[0]), calls[1..]); }
  }

  /** A key that has left `pending` never returns to it, and none is ever deleted. */
  lemma {:induction false} NeverPendingAgain(rows: map<Id, KeyRow>, calls: seq<AdminCall>, id: Id)
    requires id in rows && rows[id].status != Pending
    ensures id in AfterCalls(rows, calls) && AfterCalls(rows, calls)[id].status != Pending
    decreases |calls|
  {
    if calls != [] { NeverPendingAgain(AfterCall(rows, calls[0]), calls[1..], id); }
  }
}
