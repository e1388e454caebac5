/**
 The rows an exchange is authorised by, the lookups it makes on them, and the admin operations on agents and
 caller credentials. Rows are named by their database id; targets by their code, which is unique in a tenant.
 */
module Directory {
  import opened Wrappers
  import opened Text
  import opened Clients

  datatype Target = Target(id: Text, audience: Text, status: string)

  datatype Agent = Agent(agentId: Text, name: Text, status: string, deleted: bool)

  datatype Runtime = Runtime(runtimeId: Text, agentDbId: Text, status: string)

  /** The salted scrypt hash is modelled by the secret it was made from. */
  datatype Credential = Credential(agentDbId: Text, runtimeDbId: Option<Text>, secret: Text, status: string, expiresAt: Option<int>)

  datatype PrincipalType = AgentType | ApplicationType | RuntimeType

  datatype Connection = Connection(principalType: PrincipalType, principalId: Text, runtimeDbId: Option<Text>, targetResource: Text,
                                   status: string, expiresAt: Option<int>, contextMode: string, allowedProviders: seq<Text>,
                                   maxTokenTtlSeconds: nat)

  datatype Grant = Grant(connectionDbId: Text, effect: string, status: string, expiresAt: int)

  datatype Rows = Rows(targets: map<Text, Target>, agents: map<Text, Agent>, runtimes: map<Text, Runtime>,
                       credentials: map<Text, Credential>, connections: map<Text, Connection>, grants: map<Text, Grant>,
                       clients: Clients)

  // ---------- the lookups ----------

  predicate Open(expiresAt: Option<int>, now: int) { expiresAt.None? || expiresAt.value > now }

  predicate TargetActive(rows: Rows, code: Text) { code in rows.targets && rows.targets[code].status == "active" }

  predicate AgentActive(rows: Rows, dbId: Text, agentId: Text) {
    dbId in rows.agents && rows.agents[dbId].agentId == agentId && !rows.agents[dbId].deleted && rows.agents[dbId].status == "active"
  }

  predicate RuntimeActive(rows: Rows, dbId: Text, runtimeId: Text, agentDbId: Text) {
    dbId in rows.runtimes && rows.runtimes[dbId] == Runtime(runtimeId, agentDbId, "active")
  }

  /** An active, unexpired credential of the agent, bound to exactly this runtime or to none. */
  predicate CredentialFits(rows: Rows, id: Text, agentDbId: Text, runtimeDbId: Option<Text>, now: int) {
    && id in rows.credentials && rows.credentials[id].agentDbId == agentDbId && rows.credentials[id].runtimeDbId == runtimeDbId
    && rows.credentials[id].status == "active" && Open(rows.credentials[id].expiresAt, now)
  }

  /** A requester as the connection lookup sees it; an agent may come with a runtime (database id and public id). */
  datatype Principal = AgentPrincipal(agentId: Text, runtime: Option<(Text, Text)>) | ApplicationPrincipal(clientId: Text)

  predicate ConnectionFits(rows: Rows, id: Text, who: Principal, code: Text, now: int) {
    && id in rows.connections
    && var c := rows.connections[id];
       && c.targetResource == code && c.status == "active" && Open(c.expiresAt, now)
       && match who
          case ApplicationPrincipal(clientId) => c.principalType == ApplicationType && c.principalId == clientId
          case AgentPrincipal(agentId, runtime) =>
            if c.principalType == AgentType then
              c.principalId == agentId && (c.runtimeDbId.None? || (runtime.Some? && c.runtimeDbId.value == runtime.value.0))
            else c.principalType == RuntimeType && runtime.Some? && runtime.value.1 != [] && c.principalId == runtime.value.1
  }

  predicate GrantFits(rows: Rows, id: Text, connectionId: Text, now: int) {
    id in rows.grants && rows.grants[id].connectionDbId == connectionId && rows.grants[id].effect == "allow"
    && rows.grants[id].status == "active" && rows.grants[id].expiresAt > now
  }

  /** Database uniqueness of public agent and runtime ids. */
  ghost predicate UniqueIds(rows: Rows) {
    && (forall x, y :: x in rows.agents && y in rows.agents && rows.agents[x].agentId == rows.agents[y].agentId ==> x == y)
    && (forall x, y :: x in rows.runtimes && y in rows.runtimes && rows.runtimes[x].runtimeId == rows.runtimes[y].runtimeId ==> x == y)
  }

  // ---------- what no operation undoes ----------

  /** An agent row with this public id exists and is deleted. */
  ghost predicate AgentGone(rows: Rows, agentId: Text) {
    exists x :: x in rows.agents && rows.agents[x].agentId == agentId && rows.agents[x].deleted
  }

  predicate CredentialGone(rows: Rows, id: Text) { id in rows.credentials && rows.credentials[id].status != "active" }

  /** A secret of the client has this id, and none with this id is active. */
  ghost predicate SecretGone(clients: Clients, clientId: Text, secretId: Text) {
    && clientId in clients
    && (exists row :: row in clients[clientId].secrets && row.id == secretId)
    && (forall row :: row in clients[clientId].secrets && row.id == secretId ==> !row.active)
  }

  predicate ClientGone(clients: Clients, clientId: Text) { clientId in clients && clients[clientId].deleted }

  ghost predicate ClientsEvolve(before: Clients, after: Clients) {
    && (forall c :: ClientGone(before, c) ==> ClientGone(after, c))
    && (forall c, s :: SecretGone(before, c, s) ==> SecretGone(after, c, s))
  }

  /** Everything the rows may become by any run of admin operations: deletions and revocations are final. */
  ghost predicate Evolves(before: Rows, after: Rows) {
    && UniqueIds(after)
    && (forall a :: AgentGone(before, a) ==> AgentGone(after, a))
    && (forall c :: CredentialGone(before, c) ==> CredentialGone(after, c))
    && ClientsEvolve(before.clients, after.clients)
  }

  // ---------- services ----------

  class Database {
    var rows: Rows

    constructor (rows: Rows)
      ensures this.rows == rows
    {
      this.rows := rows;
    }
  }

  datatype AdminError = AgentNotFound | NameRequired | InvalidAgentStatus | DeleteConfirmationMismatch
                      | AgentNotActive | RuntimeNotActive | CredentialNotFound

  const AGENT_STATUSES := {"active", "inactive", "suspended", "deleted"}

  /** Marks every active credential of the agent revoked. */
  function RevokeCredentials(credentials: map<Text, Credential>, agentDbId: Text): map<Text, Credential> {
    map id | id in credentials ::
      if credentials[id].agentDbId == agentDbId && credentials[id].status == "active" then credentials[id].(status := "revoked")
      else credentials[id]
  }

  function DeleteAgent(rows: Rows, id: Text): Rows
    requires id in rows.agents
  {
    rows.(agents := rows.agents[id := rows.agents[id].(deleted := true, status := "deleted")],
          credentials := RevokeCredentials(rows.credentials, id))
  }

  function RevokeCredential(rows: Rows, id: Text): Rows
    requires id in rows.credentials
  {
    rows.(credentials := rows.credentials[id := rows.credentials[id].(status := "revoked")])
  }

  class AgentsService {
    const db: Database

    constructor (db: Database)
      ensures this.db == db
    {
      this.db := db;
    }

    /** `status` is already trimmed. */
    method Update(id: Text, name: Option<Text>, status: Option<string>) returns (r: Result<Agent, AdminError>)
      requires UniqueIds(db.rows)
      modifies db`rows
      ensures r == Err(AgentNotFound) <==> id !in old(db.rows).agents || old(db.rows).agents[id].deleted
      ensures r.Err? ==> db.rows == old(db.rows)
      ensures r.Ok? <==> id in old(db.rows).agents && !old(db.rows).agents[id].deleted
                         && (name.Some? ==> Trim(name.value) != []) && (status.Some? ==> status.value in AGENT_STATUSES)
      ensures r.Ok? ==>
        && var was := old(db.rows).agents[id];
           && r.value == Agent(was.agentId, if name.Some? then Trim(name.value) else was.name,
                               if status.Some? then status.value else was.status, false)
           && db.rows == old(db.rows).(agents := old(db.rows).agents[id := r.value])
      ensures Evolves(old(db.rows), db.rows)
    {
      if id !in db.rows.agents || db.rows.agents[id].deleted { return Err(AgentNotFound); }
      if name.Some? && Trim(name.value) == [] { return Err(AdminError.NameRequired); }
      if status.Some? && status.value !in AGENT_STATUSES { return Err(InvalidAgentStatus); }
      ghost var before := db.rows;
      var agent := db.rows.agents[id];
      agent := agent.(name := if name.Some? then Trim(name.value) else agent.name,
                      status := if status.Some? then status.value else agent.status);
      db.rows := db.rows.(agents := db.rows.agents[id := agent]);
      AgentsKept(before, db.rows);
      return Ok(agent);
    }

    /** Deletes the agent and revokes its active credentials. */
    method Delete(id: Text, confirmName: Option<Text>) returns (r: Option<AdminError>)
      requires UniqueIds(db.rows)
      modifies db`rows
      ensures r == Some(AgentNotFound) <==> id !in old(db.rows).agents || old(db.rows).agents[id].deleted
      ensures r.None? <==> id in old(db.rows).agents && !old(db.rows).agents[id].deleted
                           && confirmName == Some(old(db.rows).agents[id].name)
      ensures r.Some? ==> db.rows == old(db.rows)
      ensures r.None? ==>
        && db.rows == DeleteAgent(old(db.rows), id)
        && AgentGone(db.rows, old(db.rows).agents[id].agentId)
        && (forall c, runtime, now :: !CredentialFits(db.rows, c, id, runtime, now))
      ensures Evolves(old(db.rows), db.rows)
    {
      if id !in db.rows.agents || db.rows.agents[id].deleted { return Some(AgentNotFound); }
      if confirmName != Some(db.rows.agents[id].name) { return Some(AdminError.DeleteConfirmationMismatch); }
      ghost var before := db.rows;
      db.rows := DeleteAgent(db.rows, id);
      assert db.rows.agents[id].deleted;
      AgentsKept(before, db.rows);
      return None;
    }
  }

  class CallerCredentialsService {
    const db: Database

    constructor (db: Database)
      ensures this.db == db
    {
      this.db := db;
    }

    method FindActiveRuntime(runtimeId: Text, agentDbId: Text) returns (r: Option<Text>)
      ensures r.Some? ==> RuntimeActive(db.rows, r.value, runtimeId, agentDbId)
      ensures r.None? ==> forall x :: !RuntimeActive(db.rows, x, runtimeId, agentDbId)
    {
      if exists x :: x in db.rows.runtimes && RuntimeActive(db.rows, x, runtimeId, agentDbId) {
        var x :| x in db.rows.runtimes && RuntimeActive(db.rows, x, runtimeId, agentDbId);
        return Some(x);
      }
      return None;
    }

    /** `id` and `secret` are the identifier and the secret the service draws. */
    method CreateForAgent(agentDbId: Text, runtimeId: Option<Text>, id: Text, secret: Text) returns (r: Result<Credential, AdminError>)
      requires UniqueIds(db.rows) && id !in db.rows.credentials
      modifies db`rows
      ensures var rows := old(db.rows);
        && (r == Err(AgentNotActive) <==>
            agentDbId !in rows.agents || !AgentActive(rows, agentDbId, rows.agents[agentDbId].agentId))
        && (r == Err(RuntimeNotActive) <==>
            (r != Err(AgentNotActive) && NonBlank(runtimeId).Some?
             && forall x :: !RuntimeActive(rows, x, Trim(runtimeId.value), agentDbId)))
        && (r.Err? ==> r.error in {AgentNotActive, RuntimeNotActive} && db.rows == rows)
        && (r.Ok? ==>
            && db.rows == rows.(credentials := rows.credentials[id := r.value])
            && r.value == Credential(agentDbId, r.value.runtimeDbId, secret, "active", None)
            && (if NonBlank(runtimeId).Some?
                then r.value.runtimeDbId.Some? && RuntimeActive(rows, r.value.runtimeDbId.value, Trim(runtimeId.value), agentDbId)
                else r.value.runtimeDbId.None?))
      ensures Evolves(old(db.rows), db.rows)
    {
      var rows := db.rows;
      if agentDbId !in rows.agents || !AgentActive(rows, agentDbId, rows.agents[agentDbId].agentId) { return Err(AgentNotActive); }
      var runtimeDbId: Option<Text> := None;
      if NonBlank(runtimeId).Some? {
        runtimeDbId := FindActiveRuntime(Trim(runtimeId.value), agentDbId);
        if runtimeDbId.None? { return Err(RuntimeNotActive); }
      }
      var credential := Credential(agentDbId, runtimeDbId, secret, "active", None);
      db.rows := rows.(credentials := rows.credentials[id := credential]);
      NewCredential(rows, id, credential);
      return Ok(credential);
    }

    method Revoke(id: Text) returns (r: Option<AdminError>)
      requires UniqueIds(db.rows)
      modifies db`rows
      ensures r == if id in old(db.rows).credentials then None else Some(CredentialNotFound)
      ensures db.rows == if r.None? then RevokeCredential(old(db.rows), id) else old(db.rows)
      ensures r.None? ==> CredentialGone(db.rows, id)
      ensures Evolves(old(db.rows), db.rows)
    {
      if id !in db.rows.credentials { return Some(CredentialNotFound); }
      db.rows := RevokeCredential(db.rows, id);
      return None;
    }
  }

  // ---------- lemmas ----------

  /** Agent rows that keep their public ids and stay deleted keep every agent gone. */
  lemma AgentsKept(before: Rows, after: Rows)
    requires forall x :: x in before.agents ==>
      x in after.agents && after.agents[x].agentId == before.agents[x].agentId && (before.agents[x].deleted ==> after.agents[x].deleted)
    ensures forall a :: AgentGone(before, a) ==> AgentGone(after, a)
  {
  }

  lemma NewCredential(before: Rows, id: Text, credential: Credential)
    requires UniqueIds(before) && id !in before.credentials
    ensures Evolves(before, before.(credentials := before.credentials[id := credential]))
  {
  }

  /** What an admin call on applications does to its secrets; a new secret's id is its primary key. */
  lemma ClientCallsEvolve(clients: Clients, call: Call)
    requires Possible(clients, call)
    requires call.RotateCall? ==> forall row :: row in clients[call.id].secrets ==> row.id != call.secretId
    ensures ClientsEvolve(clients, AfterCall(clients, call))
  {
  }

  /** A rotation makes every earlier secret of the client unusable for good. */
  lemma RotationEndsSecrets(clients: Clients, call: Call, row: SecretRow)
    requires Possible(clients, call) && call.RotateCall?
    requires forall other :: other in clients[call.id].secrets ==> other.id != call.secretId
    requires row in clients[call.id].secrets
    ensures SecretGone(AfterCall(clients, call), call.id, row.id)
  {
  }
}
