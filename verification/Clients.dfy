/**
 OAuth client records: authentication of a client by its secret, and the admin operations that issue, rotate
 and delete. A row is named by its public client id, which is unique in a tenant.
 */
module Clients {
  import opened Wrappers
  import opened Text

  const PROTECTED_ADMIN_CLIENT_ID := Literal("authany-admin-web")

  /** The salted scrypt hash is modelled by the secret it was made from. */
  datatype SecretRow = SecretRow(id: Text, secret: string, active: bool, expiresAt: Option<int>)

  datatype Client = Client(name: Text, status: string, deleted: bool, redirectUris: seq<Text>,
                           allowedGrantTypes: seq<string>, allowedScopes: seq<string>, secrets: seq<SecretRow>)

  type Clients = map<Text, Client>

  datatype ApplicationError = NotFound | ProtectedAdminApplication | DeleteConfirmationMismatch | NameRequired | RedirectUrisRequired
                            | RedirectUriInvalid

  // ---------- authentication ----------

  predicate LiveSecret(row: SecretRow, now: int) {
    row.active && (row.expiresAt.None? || row.expiresAt.value > now)
  }

  /** The first secret in the rows' order that is active and unexpired: the only one compared. */
  function FirstLive(secrets: seq<SecretRow>, now: int): Option<SecretRow> {
    if secrets == [] then None
    else if LiveSecret(secrets[0], now) then Some(secrets[0])
    else FirstLive(secrets[1..], now)
  }

  predicate UsableClient(clients: Clients, clientId: Text) {
    clientId in clients && clients[clientId].status == "active" && !clients[clientId].deleted
  }

  /** The client, when it is active and the secret is that of its first live secret row. */
  function ValidateClientSecret(clients: Clients, clientId: Text, secret: Option<string>, now: int): Option<Client> {
    if !UsableClient(clients, clientId) then None
    else
      var live := FirstLive(clients[clientId].secrets, now);
      if live.None? || secret.None? || secret.value == "" || secret.value != live.value.secret then None
      else Some(clients[clientId])
  }

  // ---------- the writes ----------

  function RevokeActive(secrets: seq<SecretRow>): (r: seq<SecretRow>)
    ensures |r| == |secrets|
    ensures forall i :: 0 <= i < |r| ==> r[i] == secrets[i].(active := false)
  {
    if secrets == [] then [] else [secrets[0].(active := false)] + RevokeActive(secrets[1..])
  }

  function Created(name: Text, redirectUris: seq<Text>, secret: SecretRow): Client {
    Client(name, "active", false, redirectUris, ["authorization_code", "refresh_token"], ["openid", "profile", "offline_access"], [secret])
  }

  function Rotated(client: Client, secret: SecretRow): Client {
    client.(secrets := RevokeActive(client.secrets) + [secret])
  }

  function Deleted(client: Client): Client {
    client.(deleted := true, status := "deleted", secrets := RevokeActive(client.secrets))
  }

  // ---------- redirect URIs ----------

  /** What `new URL` makes of a text, as far as the checks look. */
  datatype Url = Url(protocol: string, hostname: string)

  /** The URL parser of the platform, and whether this is a production server. */
  datatype UriPolicy = UriPolicy(parse: Text -> Option<Url>, production: bool)

  const ASTERISK: Unit := 0x2A

  /** A URL without wildcards, on HTTPS, or outside production on HTTP to the machine itself. */
  predicate RedirectUriAllowed(policy: UriPolicy, uri: Text) {
    && policy.parse(uri).Some? && ASTERISK !in uri
    && var url := policy.parse(uri).value;
       url.protocol == "https:"
       || (!policy.production && url.protocol == "http:" && url.hostname in ["localhost", "127.0.0.1", "::1"])
  }

  function TrimAll(values: seq<Text>): (r: seq<Text>)
    ensures |r| == |values|
    ensures forall v :: v in values ==> Trim(v) in r
    ensures forall uri :: uri in r ==> TrimmedFrom(values, uri)
  {
    if values == [] then []
    else
      var rest := TrimAll(values[1..]);
      assert forall uri :: TrimmedFrom(values[1..], uri) ==> TrimmedFrom(values, uri);
      [Trim(values[0])] + rest
  }

  predicate TrimmedFrom(values: seq<Text>, uri: Text) { exists v :: v in values && Trim(v) == uri }

  /** `[...new Set(values)]`: each value once, where it first occurs. */
  function Dedupe(values: seq<Text>): (r: seq<Text>)
    ensures forall v :: v in r <==> v in values
    ensures forall i, j :: 0 <= i < j < |r| ==> r[i] != r[j]
    decreases |values|
  {
    if values == [] then []
    else
      var last := values[|values| - 1];
      var before := Dedupe(values[..|values| - 1]);
      assert values == values[..|values| - 1] + [last];
      if last in before then before else before + [last]
  }

  /** Trimmed, none blank, each allowed, each once. */
  function ValidateRedirectUris(policy: UriPolicy, values: seq<Text>): (r: Result<seq<Text>, ApplicationError>)
    ensures r.Ok? <==> values != [] && forall v :: v in values ==> Trim(v) != [] && RedirectUriAllowed(policy, Trim(v))
    ensures r.Ok? ==> forall uri :: uri in r.value <==> TrimmedFrom(values, uri)
    ensures r.Ok? ==> forall i, j :: 0 <= i < j < |r.value| ==> r.value[i] != r.value[j]
    ensures r.Err? ==> r.error == RedirectUrisRequired || r.error == RedirectUriInvalid
  {
    var trimmed := TrimAll(values);
    if values == [] || [] in trimmed then Err(RedirectUrisRequired)
    else if exists uri :: uri in trimmed && !RedirectUriAllowed(policy, uri) then Err(RedirectUriInvalid)
    else Ok(Dedupe(trimmed))
  }

  class ApplicationsService {
    const policy: UriPolicy
    var clients: Clients

    constructor (policy: UriPolicy, clients: Clients)
      ensures this.policy == policy && this.clients == clients
    {
      this.policy, this.clients := policy, clients;
    }

    /** `appId`, `secretId` and `appSecret` are the identifiers and the secret the service draws. */
    method Create(name: Text, redirectUris: seq<Text>, appId: Text, secretId: Text, appSecret: string) returns (r: Result<Client, ApplicationError>)
      requires appId !in clients
      modifies this`clients
      ensures r.Ok? <==> Trim(name) != [] && ValidateRedirectUris(policy, redirectUris).Ok?
      ensures r == Err(NameRequired) <==> Trim(name) == []
      ensures r.Err? ==> clients == old(clients)
      ensures r.Ok? ==>
        && r.value == Created(Trim(name), ValidateRedirectUris(policy, redirectUris).value, SecretRow(secretId, appSecret, true, None))
        && clients == old(clients)[appId := r.value]
    {
      if Trim(name) == [] { return Err(NameRequired); }
      var uris := ValidateRedirectUris(policy, redirectUris);
      if uris.Err? { return Err(uris.error); }
      var app := Created(Trim(name), uris.value, SecretRow(secretId, appSecret, true, None));
      clients := clients[appId := app];
      return Ok(app);
    }

    /** Only the fields given change. */
    method Update(id: Text, name: Option<Text>, status: Option<string>, redirectUris: Option<seq<Text>>) returns (r: Result<Client, ApplicationError>)
      modifies this`clients
      ensures r == Err(NotFound) <==> id !in old(clients) || old(clients)[id].deleted
      ensures r == Err(ProtectedAdminApplication) <==>
              id in old(clients) && !old(clients)[id].deleted && id == PROTECTED_ADMIN_CLIENT_ID
              && ((status.Some? && status.value != "active") || redirectUris.Some?)
      ensures r.Ok? <==>
        && r != Err(NotFound) && r != Err(ProtectedAdminApplication)
        && (redirectUris.Some? ==> ValidateRedirectUris(policy, redirectUris.value).Ok?) && (name.Some? ==> Trim(name.value) != [])
      ensures r.Err? ==> clients == old(clients)
      ensures r.Ok? ==>
        && id in old(clients) && !old(clients)[id].deleted
        && r.value == old(clients)[id].(name := if name.Some? then Trim(name.value) else old(clients)[id].name,
                                        status := if status.Some? then status.value else old(clients)[id].status,
                                        redirectUris := if redirectUris.Some? then ValidateRedirectUris(policy, redirectUris.value).value
                                                        else old(clients)[id].redirectUris)
        && clients == old(clients)[id := r.value]
    {
      if id !in clients || clients[id].deleted { return Err(NotFound); }
      if id == PROTECTED_ADMIN_CLIENT_ID && ((status.Some? && status.value != "active") || redirectUris.Some?) {
        return Err(ProtectedAdminApplication);
      }
      var client := clients[id];
      if redirectUris.Some? {
        var uris := ValidateRedirectUris(policy, redirectUris.value);
        if uris.Err? { return Err(uris.error); }
        client := client.(redirectUris := uris.value);
      }
      if name.Some? && Trim(name.value) == [] { return Err(NameRequired); }
      client := client.(name := if name.Some? then Trim(name.value) else client.name,
                        status := if status.Some? then status.value else client.status);
      clients := clients[id := client];
      return Ok(client);
    }

    method RotateSecret(id: Text, secretId: Text, appSecret: string) returns (r: Result<SecretRow, ApplicationError>)
      modifies this`clients
      ensures r == Err(NotFound) <==> id !in old(clients) || old(clients)[id].deleted
      ensures r == Err(ProtectedAdminApplication) <==> id in old(clients) && !old(clients)[id].deleted && id == PROTECTED_ADMIN_CLIENT_ID
      ensures r.Err? ==> clients == old(clients)
      ensures r.Ok? ==>
        && id in old(clients) && r.value == SecretRow(secretId, appSecret, true, None)
        && clients == old(clients)[id := Rotated(old(clients)[id], r.value)]
    {
      if id !in clients || clients[id].deleted { return Err(NotFound); }
      if id == PROTECTED_ADMIN_CLIENT_ID { return Err(ProtectedAdminApplication); }
      var client := clients[id];
      clients := clients[id := client.(secrets := RevokeActive(client.secrets))];
      var secret := SecretRow(secretId, appSecret, true, None);
      client := clients[id];
      clients := clients[id := client.(secrets := client.secrets + [secret])];
      return Ok(secret);
    }

    method Delete(id: Text, confirmName: Option<Text>) returns (r: Result<Client, ApplicationError>)
      modifies this`clients
      ensures r == Err(NotFound) <==> id !in old(clients) || old(clients)[id].deleted
      ensures r == Err(ProtectedAdminApplication) <==> id in old(clients) && !old(clients)[id].deleted && id == PROTECTED_ADMIN_CLIENT_ID
      ensures r == Err(DeleteConfirmationMismatch) <==>
              id in old(clients) && !old(clients)[id].deleted && id != PROTECTED_ADMIN_CLIENT_ID && confirmName != Some(old(clients)[id].name)
      ensures r.Err? ==> clients == old(clients)
      ensures r.Ok? ==>
        && id in old(clients)
        && r.value == Deleted(old(clients)[id]) && clients == old(clients)[id := r.value]
    {
      if id !in clients || clients[id].deleted { return Err(NotFound); }
      if id == PROTECTED_ADMIN_CLIENT_ID { return Err(ProtectedAdminApplication); }
      if confirmName != Some(clients[id].name) { return Err(DeleteConfirmationMismatch); }
      clients := clients[id := Deleted(clients[id])];
      return Ok(clients[id]);
    }
  }

  // ---------- runs ----------

  /** One admin call that is possible; the service refuses the others without a write. */
  datatype Call =
    | CreateCall(appId: Text, name: Text, redirectUris: seq<Text>, secretId: Text, appSecret: string)
    | UpdateCall(id: Text, newName: Text, status: string, redirectUris: seq<Text>)
    | RotateCall(id: Text, secretId: Text, appSecret: string)
    | DeleteCall(id: Text)

  predicate Possible(clients: Clients, call: Call) {
    match call
    case CreateCall(appId, _, _, _, secret) => appId !in clients && secret != ""
    case UpdateCall(id, _, status, redirectUris) =>
      id in clients && !clients[id].deleted
      && (id == PROTECTED_ADMIN_CLIENT_ID ==> status == "active" && redirectUris == clients[id].redirectUris)
    case RotateCall(id, _, secret) => id in clients && !clients[id].deleted && id != PROTECTED_ADMIN_CLIENT_ID && secret != ""
    case DeleteCall(id) => id in clients && !clients[id].deleted && id != PROTECTED_ADMIN_CLIENT_ID
  }

  function AfterCall(clients: Clients, call: Call): Clients
    requires Possible(clients, call)
  {
    match call
    case CreateCall(appId, name, redirectUris, secretId, secret) => clients[appId := Created(name, redirectUris, SecretRow(secretId, secret, true, None))]
    case UpdateCall(id, name, status, redirectUris) =>
      clients[id := clients[id].(name := name, status := status, redirectUris := redirectUris)]
    case RotateCall(id, secretId, secret) => clients[id := Rotated(clients[id], SecretRow(secretId, secret, true, None))]
    case DeleteCall(id) => clients[id := Deleted(clients[id])]
  }

  /** The clients and, beside them, the secret each was issued last. */
  datatype History = History(clients: Clients, lastIssued: map<Text, string>)

  function Next(h: History, call: Call): History
    requires Possible(h.clients, call)
  {
    History(AfterCall(h.clients, call),
            match call
            case CreateCall(appId, _, _, _, secret) => h.lastIssued[appId := secret]
            case RotateCall(id, _, secret) => h.lastIssued[id := secret]
            case _ => h.lastIssued)
  }

  function AdminRun(h: History, calls: seq<Call>): Option<History>
    decreases |calls|
  {
    if calls == [] then Some(h)
    else if Possible(h.clients, calls[0]) then AdminRun(Next(h, calls[0]), calls[1..])
    else None
  }

  /** Exactly one active secret, without an expiry, and it is the one issued last. */
  ghost predicate OneSecret(client: Client, secret: string) {
    exists i :: 0 <= i < |client.secrets| && client.secrets[i].active && client.secrets[i].expiresAt.None? && client.secrets[i].secret == secret
      && forall j :: 0 <= j < |client.secrets| && client.secrets[j].active ==> j == i
  }

  ghost predicate SecretsSound(h: History) {
    forall id :: id in h.clients ==>
      && id in h.lastIssued && h.lastIssued[id] != ""
      && (if h.clients[id].deleted then forall j :: 0 <= j < |h.clients[id].secrets| ==> !h.clients[id].secrets[j].active
          else OneSecret(h.clients[id], h.lastIssued[id]))
  }

  lemma SoundStep(h: History, call: Call)
    requires SecretsSound(h) && Possible(h.clients, call)
    ensures SecretsSound(Next(h, call))
  {
    var h' := Next(h, call);
    match call
    case CreateCall(appId, _, _, _, _) =>
      assert h'.clients[appId].secrets[0].active;
    case RotateCall(id, _, _) =>
      var secrets := h'.clients[id].secrets;
      assert secrets[|secrets| - 1].active;
    case UpdateCall(id, _, _, _) =>
      var i :| 0 <= i < |h.clients[id].secrets| && h.clients[id].secrets[i].active && h.clients[id].secrets[i].expiresAt.None?
        && h.clients[id].secrets[i].secret == h.lastIssued[id]
        && forall j :: 0 <= j < |h.clients[id].secrets| && h.clients[id].secrets[j].active ==> j == i;
      assert h'.clients[id].secrets[i].active;
    case DeleteCall(id) =>
  }

  lemma {:induction false} FirstLiveIsTheOne(secrets: seq<SecretRow>, i: nat, now: int)
    requires i < |secrets| && secrets[i].active && secrets[i].expiresAt.None?
    requires forall j :: 0 <= j < |secrets| && secrets[j].active ==> j == i
    ensures FirstLive(secrets, now) == Some(secrets[i])
  {
    if i > 0 { FirstLiveIsTheOne(secrets[1..], i - 1, now); }
  }

  lemma {:induction false} NoneLive(secrets: seq<SecretRow>, now: int)
    requires forall j :: 0 <= j < |secrets| ==> !secrets[j].active
    ensures FirstLive(secrets, now) == None
  {
    if secrets != [] { NoneLive(secrets[1..], now); }
  }

  /**
   After any run of admin calls, exactly the secret issued last authenticates a client, while it is active and
   not deleted, at any time.
   */
  lemma {:induction false} LastSecretAuthenticates(h: History, calls: seq<Call>, id: Text, secret: string, now: int)
    requires SecretsSound(h) && AdminRun(h, calls).Some? && id in AdminRun(h, calls).value.clients
    ensures var h' := AdminRun(h, calls).value;
      id in h'.lastIssued
      && (ValidateClientSecret(h'.clients, id, Some(secret), now).Some? <==> UsableClient(h'.clients, id) && secret == h'.lastIssued[id])
    decreases |calls|
  {
    if calls == [] {
      var client := h.clients[id];
      if client.deleted {
        NoneLive(client.secrets, now);
      } else {
        var i :| 0 <= i < |client.secrets| && client.secrets[i].active && client.secrets[i].expiresAt.None?
          && client.secrets[i].secret == h.lastIssued[id]
          && forall j :: 0 <= j < |client.secrets| && client.secrets[j].active ==> j == i;
        FirstLiveIsTheOne(client.secrets, i, now);
      }
    } else {
      SoundStep(h, calls[0]);
      LastSecretAuthenticates(Next(h, calls[0]), calls[1..], id, secret, now);
    }
  }

  /** A deleted client never authenticates again, with whatever secret. */
  lemma {:induction false} DeletedForGood(h: History, calls: seq<Call>, id: Text, secret: Option<string>, now: int)
    requires id in h.clients && h.clients[id].deleted && AdminRun(h, calls).Some?
    ensures ValidateClientSecret(AdminRun(h, calls).value.clients, id, secret, now).None?
    ensures id in AdminRun(h, calls).value.clients && AdminRun(h, calls).value.clients[id].deleted
    decreases |calls|
  {
    if calls != [] { DeletedForGood(Next(h, calls[0]), calls[1..], id, secret, now); }
  }

  /** The admin console's own client keeps its secrets, stays active and is never deleted. */
  lemma {:induction false} AdminClientProtected(h: History, calls: seq<Call>)
    requires UsableClient(h.clients, PROTECTED_ADMIN_CLIENT_ID) && AdminRun(h, calls).Some?
    ensures UsableClient(AdminRun(h, calls).value.clients, PROTECTED_ADMIN_CLIENT_ID)
    ensures AdminRun(h, calls).value.clients[PROTECTED_ADMIN_CLIENT_ID].secrets == h.clients[PROTECTED_ADMIN_CLIENT_ID].secrets
    decreases |calls|
  {
    if calls != [] { AdminClientProtected(Next(h, calls[0]), calls[1..]); }
  }
}
