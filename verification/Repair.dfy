/**
 The one-off repair of a tenant's data: duplicate audiences, grants without an expiry, and connections that take
 an external context from any provider. Rows by database id; the rows of one tenant.
 */
module Repair {
  import opened Wrappers
  import opened Text

  datatype TargetRow = TargetRow(audience: Text, status: string, createdAt: int)

  datatype GrantRow = GrantRow(status: string, expiresAt: Option<int>)

  datatype ConnectionRow = ConnectionRow(status: string, contextMode: string, allowedProviders: seq<Text>)

  const GRACE_MS := 24 * 60 * 60 * 1000

  // ---------- what is to be repaired ----------

  function ActiveFor(targets: map<Text, TargetRow>, audience: Text): set<Text> {
    set id | id in targets && targets[id].status == "active" && targets[id].audience == audience
  }

  predicate Shares(targets: map<Text, TargetRow>, id: Text, other: Text) {
    && id in targets && other in targets && id != other && targets[id].audience == targets[other].audience
    && targets[id].status == "active" && targets[other].status == "active"
  }

  /** The audiences of more than one active target. */
  function DuplicateAudiences(targets: map<Text, TargetRow>): (r: set<Text>)
    ensures forall id, other :: Shares(targets, id, other) ==> targets[id].audience in r
    ensures forall audience :: audience in r ==> exists id, other :: Shares(targets, id, other) && targets[id].audience == audience
  {
    set id, other | id in targets && other in targets && Shares(targets, id, other) :: targets[id].audience
  }

  predicate Indefinite(grant: GrantRow) { grant.status == "active" && grant.expiresAt.None? }

  predicate Weak(connection: ConnectionRow) {
    connection.status == "active" && (connection.contextMode == "optional" || connection.contextMode == "required") && connection.allowedProviders == []
  }

  function GrantsTightened(grants: map<Text, GrantRow>, now: int): map<Text, GrantRow> {
    map id | id in grants :: if Indefinite(grants[id]) then grants[id].(expiresAt := Some(now + GRACE_MS)) else grants[id]
  }

  function ConnectionsTightened(connections: map<Text, ConnectionRow>): map<Text, ConnectionRow> {
    map id | id in connections :: if Weak(connections[id]) then connections[id].(contextMode := "forbidden", allowedProviders := []) else connections[id]
  }

  // ---------- what the target loop leaves ----------

  function Elements(ids: seq<Text>): set<Text> { set id | id in ids }

  predicate Oldest(targets: map<Text, TargetRow>, ids: set<Text>, oldest: Text) {
    oldest in targets && forall id :: id in ids ==> id in targets && targets[oldest].createdAt <= targets[id].createdAt
  }

  /** Rows keep everything but their status, and a status changes only from active to inactive. */
  ghost predicate OnlyDeactivates(before: map<Text, TargetRow>, after: map<Text, TargetRow>) {
    && before.Keys == after.Keys
    && forall id :: id in before ==> after[id] == before[id] || (before[id].status == "active" && after[id] == before[id].(status := "inactive"))
  }

  /** Of the targets active before for this audience, one of the oldest is the only one active after. */
  ghost predicate OldestKept(before: map<Text, TargetRow>, after: map<Text, TargetRow>, audience: Text) {
    ActiveFor(before, audience) != {} ==>
      exists kept :: kept in ActiveFor(before, audience) && ActiveFor(after, audience) == {kept}
                     && Oldest(before, ActiveFor(before, audience), kept)
  }

  ghost predicate TargetsTightened(before: map<Text, TargetRow>, after: map<Text, TargetRow>) {
    OnlyDeactivates(before, after) && forall audience :: OldestKept(before, after, audience)
  }

  ghost predicate OldestFirst(targets: map<Text, TargetRow>, ids: seq<Text>) {
    && (forall id :: id in ids ==> id in targets)
    && (forall i, j :: 0 <= i < j < |ids| ==> ids[i] != ids[j] && targets[ids[i]].createdAt <= targets[ids[j]].createdAt)
  }

  /** `ids` lists the oldest of the audience's active targets, `rest` are the others. */
  ghost predicate Listing(targets: map<Text, TargetRow>, audience: Text, ids: seq<Text>, rest: set<Text>) {
    && rest !! Elements(ids) && rest + Elements(ids) == ActiveFor(targets, audience) && OldestFirst(targets, ids)
    && forall id :: id in ids ==> Oldest(targets, rest, id)
  }

  lemma ListedNext(targets: map<Text, TargetRow>, audience: Text, ids: seq<Text>, rest: set<Text>, id: Text)
    requires Listing(targets, audience, ids, rest) && id in rest && Oldest(targets, rest, id)
    ensures Listing(targets, audience, ids + [id], rest - {id})
  {
  }

  lemma {:induction false} OldestExists(targets: map<Text, TargetRow>, ids: set<Text>) returns (oldest: Text)
    requires ids != {} && ids <= targets.Keys
    ensures oldest in ids && Oldest(targets, ids, oldest)
    decreases |ids|
  {
    oldest :| oldest in ids;
    if ids != {oldest} {
      var other := OldestExists(targets, ids - {oldest});
      if targets[other].createdAt <= targets[oldest].createdAt { oldest := other; }
    }
  }

  class SecurityTightenData {
    var targets: map<Text, TargetRow>
    var grants: map<Text, GrantRow>
    var connections: map<Text, ConnectionRow>

    constructor (targets: map<Text, TargetRow>, grants: map<Text, GrantRow>, connections: map<Text, ConnectionRow>)
      ensures this.targets == targets && this.grants == grants && this.connections == connections
    {
      this.targets, this.grants, this.connections := targets, grants, connections;
    }

    /** findMany ordered by creation time; rows of one time come in any order. */
    method FindActiveOldestFirst(audience: Text) returns (ids: seq<Text>)
      ensures Elements(ids) == ActiveFor(targets, audience) && OldestFirst(targets, ids)
    {
      ids := [];
      var rest := ActiveFor(targets, audience);
      while rest != {}
        invariant Listing(targets, audience, ids, rest)
        decreases |rest|
      {
        ghost var first := OldestExists(targets, rest);
        assert Oldest(targets, rest, first);
        var id :| id in rest && Oldest(targets, rest, id);
        ListedNext(targets, audience, ids, rest, id);
        ids := ids + [id];
        rest := rest - {id};
      }
    }

    /** Every active target of the audience but the oldest becomes inactive. */
    method KeepOldest(audience: Text)
      modifies this`targets
      ensures OnlyDeactivates(old(targets), targets) && OldestKept(old(targets), targets, audience)
      ensures forall id :: id in old(targets) && old(targets)[id].audience != audience ==> id in targets && targets[id] == old(targets)[id]
    {
      var ids := FindActiveOldestFirst(audience);
      var younger := if |ids| == 0 then [] else ids[1..];
      ghost var before := targets;
      var i := 0;
      while i < |younger|
        invariant i <= |younger| && targets.Keys == before.Keys
        invariant forall id :: id in before ==> targets[id] == Status(before[id], id in younger[..i])
      {
        targets := targets[younger[i] := targets[younger[i]].(status := "inactive")];
        i := i + 1;
      }
      assert younger[..i] == younger;
      OthersDropped(before, targets, audience, ids);
    }

    /** Duplicate audiences are taken in any order, each read once and then repaired. */
    method TightenTargets() returns (count: nat)
      modifies this`targets
      ensures count == |DuplicateAudiences(old(targets))|
      ensures TargetsTightened(old(targets), targets)
    {
      ghost var before := targets;
      var left := DuplicateAudiences(targets);
      count := |left|;
      forall audience | audience !in left ensures OldestKept(before, targets, audience) { AloneIsKept(before, audience); }
      while left != {}
        invariant OnlyDeactivates(before, targets)
        invariant forall audience :: audience !in left ==> OldestKept(before, targets, audience)
        invariant forall id :: id in before && before[id].audience in left ==> targets[id] == before[id]
        decreases |left|
      {
        var audience :| audience in left;
        ghost var mid := targets;
        KeepOldest(audience);
        KeptStays(before, mid, targets, audience, left);
        left := left - {audience};
      }
    }

    method TightenGrants(now: int) returns (count: nat)
      modifies this`grants
      ensures grants == GrantsTightened(old(grants), now)
      ensures count == |set id | id in old(grants) && Indefinite(old(grants)[id])|
    {
      ghost var before := grants;
      var left := set id | id in grants && Indefinite(grants[id]);
      count := |left|;
      while left != {}
        invariant grants.Keys == before.Keys && forall id :: id in left ==> id in before && Indefinite(before[id])
        invariant forall id :: id in before ==>
          grants[id] == if Indefinite(before[id]) && id !in left then before[id].(expiresAt := Some(now + GRACE_MS)) else before[id]
        decreases |left|
      {
        var id :| id in left;
        grants := grants[id := grants[id].(expiresAt := Some(now + GRACE_MS))];
        left := left - {id};
      }
    }

    method TightenConnections() returns (count: nat)
      modifies this`connections
      ensures connections == ConnectionsTightened(old(connections))
      ensures count == |set id | id in old(connections) && Weak(old(connections)[id])|
    {
      ghost var before := connections;
      var left := set id | id in connections && Weak(connections[id]);
      count := |left|;
      while left != {}
        invariant connections.Keys == before.Keys && forall id :: id in left ==> id in before && Weak(before[id])
        invariant forall id :: id in before ==>
          connections[id] == if Weak(before[id]) && id !in left then before[id].(contextMode := "forbidden", allowedProviders := []) else before[id]
        decreases |left|
      {
        var id :| id in left;
        connections := connections[id := connections[id].(contextMode := "forbidden", allowedProviders := [])];
        left := left - {id};
      }
    }

    /** The whole pass, and the three counts it prints. */
    method Tighten(now: int) returns (duplicates: nat, indefinite: nat, weak: nat)
      modifies this
      ensures Tightened(Data(old(targets), old(grants), old(connections)), Data(targets, grants, connections), now)
      ensures duplicates == |DuplicateAudiences(old(targets))|
      ensures indefinite == |set id | id in old(grants) && Indefinite(old(grants)[id])|
      ensures weak == |set id | id in old(connections) && Weak(old(connections)[id])|
    {
      duplicates := TightenTargets();
      indefinite := TightenGrants(now);
      weak := TightenConnections();
    }
  }

  datatype Data = Data(targets: map<Text, TargetRow>, grants: map<Text, GrantRow>, connections: map<Text, ConnectionRow>)

  /** What one pass makes of the data; which of several oldest targets stays is open. */
  ghost predicate Tightened(before: Data, after: Data, now: int) {
    && TargetsTightened(before.targets, after.targets)
    && after.grants == GrantsTightened(before.grants, now)
    && after.connections == ConnectionsTightened(before.connections)
  }

  function Status(row: TargetRow, dropped: bool): TargetRow {
    if dropped then row.(status := "inactive") else row
  }

  // ---------- lemmas ----------

  lemma OthersDropped(before: map<Text, TargetRow>, after: map<Text, TargetRow>, audience: Text, ids: seq<Text>)
    requires Elements(ids) == ActiveFor(before, audience) && OldestFirst(before, ids) && before.Keys == after.Keys
    requires forall id :: id in before ==> after[id] == Status(before[id], id in (if |ids| == 0 then [] else ids[1..]))
    ensures OnlyDeactivates(before, after) && OldestKept(before, after, audience)
    ensures forall id :: id in before && before[id].audience != audience ==> after[id] == before[id]
  {
    var younger := if |ids| == 0 then [] else ids[1..];
    assert forall id :: id in younger ==> id in ids && id in ActiveFor(before, audience);
    if |ids| > 0 {
      var kept := ids[0];
      assert kept in ActiveFor(before, audience);
      forall id | id in ActiveFor(before, audience) ensures before[kept].createdAt <= before[id].createdAt && (id == kept || id in younger) {
        assert id in ids;
        var i :| 0 <= i < |ids| && ids[i] == id;
        if i > 0 { assert younger[i - 1] == id; }
      }
      assert kept !in younger;
      assert ActiveFor(after, audience) == {kept};
    } else {
      assert ActiveFor(before, audience) == {};
    }
  }

  /** An audience that is not duplicated needs no repair. */
  lemma AloneIsKept(targets: map<Text, TargetRow>, audience: Text)
    requires audience !in DuplicateAudiences(targets)
    ensures OldestKept(targets, targets, audience)
  {
  }

  /** Repairing one audience leaves the others as they are, repaired or waiting. */
  lemma KeptStays(before: map<Text, TargetRow>, mid: map<Text, TargetRow>, after: map<Text, TargetRow>, audience: Text, left: set<Text>)
    requires OnlyDeactivates(before, mid) && OnlyDeactivates(mid, after) && OldestKept(mid, after, audience) && audience in left
    requires forall id :: id in mid && mid[id].audience != audience ==> id in after && after[id] == mid[id]
    requires forall other :: other !in left ==> OldestKept(before, mid, other)
    requires forall id :: id in before && before[id].audience in left ==> mid[id] == before[id]
    ensures OnlyDeactivates(before, after)
    ensures forall other :: other !in left - {audience} ==> OldestKept(before, after, other)
    ensures forall id :: id in before && before[id].audience in left - {audience} ==> after[id] == before[id]
  {
  }

  // ---------- main results ----------

  /** After a pass no two active targets share an audience, active grants all expire, and no active connection is weak. */
  lemma NothingLeft(before: Data, after: Data, now: int)
    requires Tightened(before, after, now)
    ensures DuplicateAudiences(after.targets) == {}
    ensures forall id :: id in after.grants ==> !Indefinite(after.grants[id])
    ensures forall id :: id in after.connections ==> !Weak(after.connections[id])
  {
    if audience :| audience in DuplicateAudiences(after.targets) {
      var id, other :| Shares(after.targets, id, other) && after.targets[id].audience == audience;
      SoleActive(before.targets, after.targets, audience, id, other);
    }
  }

  lemma SoleActive(before: map<Text, TargetRow>, after: map<Text, TargetRow>, audience: Text, id: Text, other: Text)
    requires TargetsTightened(before, after) && id in ActiveFor(after, audience) && other in ActiveFor(after, audience)
    ensures id == other
  {
    assert OldestKept(before, after, audience);
    assert id in ActiveFor(before, audience);
  }

  /** An audience that had an active target still has exactly one, and it is one of its oldest. */
  lemma OldestSurvives(before: Data, after: Data, now: int, audience: Text)
    requires Tightened(before, after, now) && ActiveFor(before.targets, audience) != {}
    ensures exists kept :: kept in ActiveFor(before.targets, audience) && ActiveFor(after.targets, audience) == {kept}
                           && Oldest(before.targets, ActiveFor(before.targets, audience), kept)
  {
    assert OldestKept(before.targets, after.targets, audience);
  }

  /** A second pass, whenever it comes, changes nothing. */
  lemma SecondPassIsIdle(first: Data, second: Data, third: Data, now: int, later: int)
    requires Tightened(first, second, now) && Tightened(second, third, later)
    ensures third == second
  {
    NothingLeft(first, second, now);
    forall id | id in second.targets ensures third.targets[id] == second.targets[id] {
      if second.targets[id].status == "active" { SoleStays(second.targets, third.targets, id); }
    }
    assert third.targets == second.targets;
  }

  lemma SoleStays(before: map<Text, TargetRow>, after: map<Text, TargetRow>, id: Text)
    requires TargetsTightened(before, after) && DuplicateAudiences(before) == {} && id in before && before[id].status == "active"
    ensures after[id] == before[id]
  {
    var audience := before[id].audience;
    assert OldestKept(before, after, audience) && id in ActiveFor(before, audience);
    var kept :| kept in ActiveFor(before, audience) && ActiveFor(after, audience) == {kept};
    assert Shares(before, id, kept) <==> kept != id;
    assert id in ActiveFor(after, audience);
  }
}
