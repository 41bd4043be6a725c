// What the requests of the endpoint and endpoint group handlers ask for, record by record.
module EndpointRequests {
  import opened Collections
  import opened Portainer

  const UNASSIGNED := 1

  // ----- Creation (api/http/handler/endpoints/endpoint_create.go) -----

  datatype CreatePayload = CreatePayload(
    name: string, kind: int, url: string, publicUrl: string, groupId: int, tags: seq<string>,
    tls: bool, skipVerify: bool, skipClientVerify: bool,
    caUploaded: bool, certUploaded: bool, keyUploaded: bool,
    azure: AzureCredentials)

  // What the world answers while an endpoint is created: the default socket of the platform,
  // whether the environment answers a ping and is an agent, whether Azure authenticates,
  // whether the TLS material can be read, where the file service stores each file, and the
  // first snapshot.
  datatype World = World(
    socket: string, ping: Option<bool>, azureAuthenticates: bool, tlsReadable: bool,
    caPath: Option<string>, certPath: Option<string>, keyPath: Option<string>,
    answer: SnapshotAnswer)

  datatype SnapshotAnswer = SnapshotAnswer(snapshot: Option<Snapshot>, failed: bool)

  const AZURE_URL := "https://management.azure.com"

  // The payload has what its kind of endpoint needs.
  predicate ValidCreate(p: CreatePayload) {
    && p.name != "" && p.kind != 0
    && (p.tls && !p.skipVerify ==> p.caUploaded)
    && (p.tls && !p.skipClientVerify ==> p.certUploaded && p.keyUploaded)
    && (p.kind == AZURE_ENVIRONMENT ==>
          p.azure.applicationId != "" && p.azure.tenantId != "" && p.azure.authenticationKey != "")
  }

  // The environment cannot be reached, so nothing is created.
  predicate Unreachable(p: CreatePayload, w: World) {
    if p.kind == AZURE_ENVIRONMENT then !w.azureAuthenticates
    else if p.tls then !w.tlsReadable || w.ping.None?
    else p.url != "" && w.ping.None?
  }

  // The URL of a new endpoint: fixed for Azure, the local socket when a plain Docker
  // environment names none.
  function CreatedUrl(p: CreatePayload, w: World): string {
    if p.kind == AZURE_ENVIRONMENT then AZURE_URL
    else if p.url == "" && !p.tls then w.socket
    else p.url
  }

  // Only a ping tells an agent from a Docker environment.
  function CreatedKind(p: CreatePayload, w: World): int {
    if p.kind == AZURE_ENVIRONMENT then AZURE_ENVIRONMENT
    else if (p.tls || p.url != "") && w.ping == Some(true) then AGENT_ON_DOCKER_ENVIRONMENT
    else DOCKER_ENVIRONMENT
  }

  // Files are stored one after the other, and the first failure ends it; the endpoint is
  // created with the paths there are.
  function CreatedTLS(p: CreatePayload, w: World): TLSConfiguration {
    if p.kind == AZURE_ENVIRONMENT || !p.tls then NO_TLS
    else
      var caOk := p.skipVerify || w.caPath.Some?;
      var certOk := caOk && !p.skipClientVerify && w.certPath.Some?;
      TLSConfiguration(
        true, p.skipVerify,
        if p.skipVerify then "" else w.caPath.GetOr(""),
        if certOk then w.certPath.value else "",
        if certOk then w.keyPath.GetOr("") else "")
  }

  // The record of a new endpoint, before its identifier.
  function Drafted(p: CreatePayload, w: World): Endpoint {
    var azure := p.kind == AZURE_ENVIRONMENT;
    ZERO_ENDPOINT.(
    name := p.name,
    kind := CreatedKind(p, w),
    url := CreatedUrl(p, w),
    groupId := if p.groupId == 0 then UNASSIGNED else p.groupId,
    publicUrl := if azure then "" else p.publicUrl,
    tlsConfig := CreatedTLS(p, w),
    azure := if azure then p.azure else ZERO_ENDPOINT.azure,
    tags := p.tags,
    status := if !azure && w.answer.failed then STATUS_DOWN else STATUS_UP,
    snapshots := if !azure && w.answer.snapshot.Some? then [w.answer.snapshot.value] else [])
  }

  // What a creation comes to, field by field. An Azure endpoint has the address of Azure, its
  // credentials and no TLS. Any other has the address it was given or the local socket, is an
  // agent if a ping says so, and is down if its first snapshot failed.
  predicate CreatedAs(p: CreatePayload, w: World, e: Endpoint) {
    var t := e.tlsConfig;
    && e == ZERO_ENDPOINT.(
         id := e.id, name := p.name, kind := e.kind, url := e.url, groupId := e.groupId, publicUrl := e.publicUrl,
         tlsConfig := t, azure := e.azure, tags := p.tags, status := e.status, snapshots := e.snapshots)
    && (p.groupId == 0 ==> e.groupId == 1) && (p.groupId != 0 ==> e.groupId == p.groupId)
    && (p.kind == 3 ==>
          && e.kind == 3 && e.url == "https://management.azure.com" && e.publicUrl == "" && e.azure == p.azure
          && t == TLSConfiguration(false, false, "", "", "") && e.status == 1 && e.snapshots == [])
    && (p.kind != 3 ==>
          && e.publicUrl == p.publicUrl && e.azure == AzureCredentials("", "", "")
          && (p.url != "" ==> e.url == p.url)
          && (p.url == "" && p.tls ==> e.url == "")
          && (p.url == "" && !p.tls ==> e.url == w.socket && e.kind == 1)
          && (p.url != "" || p.tls ==> w.ping.Some? && e.kind == if w.ping.value then 2 else 1)
          && e.status == (if w.answer.failed then 2 else 1)
          && (w.answer.snapshot.Some? ==> e.snapshots == [w.answer.snapshot.value])
          && (w.answer.snapshot.None? ==> e.snapshots == [])
          && FilesStored(p, w, t))
  }

  // TLS is as asked for. The authority's file comes first, then the certificate, then the key;
  // the paths are there up to the first file that could not be stored.
  predicate FilesStored(p: CreatePayload, w: World, t: TLSConfiguration) {
    && t.tls == p.tls
    && (!p.tls ==> t == TLSConfiguration(false, false, "", "", ""))
    && (p.tls ==>
          && t.skipVerify == p.skipVerify
          && (p.skipVerify ==> t.caCertPath == "")
          && (!p.skipVerify && w.caPath.Some? ==> t.caCertPath == w.caPath.value)
          && (!p.skipVerify && w.caPath.None? ==> t.caCertPath == t.certPath == t.keyPath == "")
          && (p.skipClientVerify ==> t.certPath == t.keyPath == "")
          && (!p.skipClientVerify && w.certPath.None? ==> t.certPath == t.keyPath == "")
          && (!p.skipClientVerify && (p.skipVerify || w.caPath.Some?) && w.certPath.Some? ==>
                t.certPath == w.certPath.value && t.keyPath == w.keyPath.GetOr("")))
  }

  // When a creation is answered with an error: a payload without a name or a kind, without a file
  // it has to bring, or without credentials for Azure; Azure that does not authenticate, TLS
  // material that cannot be read, and an environment that has to be pinged and does not answer.
  lemma CreateErrorsMeaning(p: CreatePayload, w: World)
    ensures !ValidCreate(p) <==>
            || p.name == "" || p.kind == 0
            || (p.tls && !p.skipVerify && !p.caUploaded)
            || (p.tls && !p.skipClientVerify && !(p.certUploaded && p.keyUploaded))
            || (p.kind == 3 && "" in {p.azure.applicationId, p.azure.tenantId, p.azure.authenticationKey})
    ensures Unreachable(p, w) <==>
            || (p.kind == 3 && !w.azureAuthenticates)
            || (p.kind != 3 && p.tls && !w.tlsReadable)
            || (p.kind != 3 && (p.tls || p.url != "") && w.ping == None)
  {
  }

  lemma DraftMeaning(p: CreatePayload, w: World, id: int)
    requires !Unreachable(p, w)
    ensures CreatedAs(p, w, Drafted(p, w).(id := id))
  {
  }

  // ----- The endpoint of the command line (api/cmd/portainer/main.go) -----

  datatype Flags = Flags(url: string, tls: bool, skipVerify: bool, caCert: string, cert: string, key: string)

  predicate PrimaryUnreachable(f: Flags, w: World) {
    HasPrefix(f.url, "tcp://") && (w.ping.None? || ((f.tls || f.skipVerify) && !w.tlsReadable))
  }

  // Skipping verification alone turns TLS on. An agent is only looked for over TLS.
  function Primary(f: Flags, w: World): Endpoint {
    ZERO_ENDPOINT.(
    name := "primary",
    url := f.url,
    kind :=
      if (f.tls || f.skipVerify) && HasPrefix(f.url, "tcp://") && w.ping == Some(true)
      then AGENT_ON_DOCKER_ENVIRONMENT else DOCKER_ENVIRONMENT,
    groupId := UNASSIGNED,
    tlsConfig :=
      if f.tls then TLSConfiguration(true, f.skipVerify, f.caCert, f.cert, f.key)
      else if f.skipVerify then TLSConfiguration(true, true, "", "", "")
      else NO_TLS,
    status := STATUS_UP,
    snapshots := if w.answer.snapshot.Some? then [w.answer.snapshot.value] else [])
  }

  // What it is, field by field.
  predicate PrimaryAs(f: Flags, w: World, e: Endpoint) {
    var t := e.tlsConfig;
    && e == ZERO_ENDPOINT.(
         id := e.id, name := "primary", kind := e.kind, url := f.url, groupId := 1, tlsConfig := t, status := 1,
         snapshots := e.snapshots)
    && t.tls == (f.tls || f.skipVerify) && t.skipVerify == f.skipVerify
    && (f.tls ==> t.caCertPath == f.caCert && t.certPath == f.cert && t.keyPath == f.key)
    && (!f.tls ==> t.caCertPath == t.certPath == t.keyPath == "")
    && (e.kind == 2 <==> t.tls && HasPrefix(f.url, "tcp://") && w.ping == Some(true))
    && (e.kind == 1 || e.kind == 2)
    && (w.answer.snapshot.Some? ==> e.snapshots == [w.answer.snapshot.value])
    && (w.answer.snapshot.None? ==> e.snapshots == [])
  }

  // Only an address of a TCP port is pinged, and TLS material is read only to do so.
  lemma PrimaryMeaning(f: Flags, w: World, id: int)
    ensures PrimaryAs(f, w, Primary(f, w).(id := id))
    ensures PrimaryUnreachable(f, w) <==>
            || (HasPrefix(f.url, "tcp://") && w.ping == None)
            || (HasPrefix(f.url, "tcp://") && (f.tls || f.skipVerify) && !w.tlsReadable)
  {
  }

  // ----- Update (api/http/handler/endpoints/endpoint_update.go) -----

  datatype UpdatePayload = UpdatePayload(
    name: Option<string>, url: Option<string>, publicUrl: Option<string>, groupId: Option<int>,
    tls: Option<bool>, skipVerify: Option<bool>, skipClientVerify: Option<bool>, status: Option<int>,
    azureApplicationId: Option<string>, azureTenantId: Option<string>, azureAuthenticationKey: Option<string>,
    tags: Option<seq<string>>)

  // A payload that changes nothing.
  const NO_CHANGE := UpdatePayload(None, None, None, None, None, None, None, None, None, None, None, None)

  // What the file service and Azure answer during an update or a deletion.
  datatype Environment = Environment(
    azureAuthenticates: bool, tlsFilesDeleted: bool, caPath: string, certPath: string, keyPath: string)

  const WILLING := Environment(true, true, "", "", "")

  function UpdatedTLS(t: TLSConfiguration, p: UpdatePayload, env: Environment): TLSConfiguration {
    if p.tls.None? then t
    else if !p.tls.value then NO_TLS
    else
      TLSConfiguration(
        true,
        p.skipVerify.GetOr(t.skipVerify),
        if p.skipVerify.None? then t.caCertPath else if p.skipVerify.value then "" else env.caPath,
        if p.skipClientVerify.None? then t.certPath else if p.skipClientVerify.value then "" else env.certPath,
        if p.skipClientVerify.None? then t.keyPath else if p.skipClientVerify.value then "" else env.keyPath)
  }

  // Only the two known statuses can be set.
  function UpdatedStatus(status: int, wanted: Option<int>): int {
    if wanted == Some(1) then STATUS_UP else if wanted == Some(2) then STATUS_DOWN else status
  }

  function UpdatedCredentials(c: AzureCredentials, p: UpdatePayload): AzureCredentials {
    AzureCredentials(
      p.azureApplicationId.GetOr(c.applicationId),
      p.azureTenantId.GetOr(c.tenantId),
      p.azureAuthenticationKey.GetOr(c.authenticationKey))
  }

  // An endpoint with a payload applied; absent fields stay.
  function UpdatedEndpoint(e: Endpoint, p: UpdatePayload, env: Environment): Endpoint {
    e.(
    name := p.name.GetOr(e.name),
    url := p.url.GetOr(e.url),
    publicUrl := p.publicUrl.GetOr(e.publicUrl),
    groupId := p.groupId.GetOr(e.groupId),
    tags := p.tags.GetOr(e.tags),
    status := UpdatedStatus(e.status, p.status),
    azure := if e.kind == AZURE_ENVIRONMENT then UpdatedCredentials(e.azure, p) else e.azure,
    tlsConfig := UpdatedTLS(e.tlsConfig, p, env))
  }

  predicate Replaced<T(==)>(before: T, now: T, wanted: Option<T>) {
    (wanted.Some? ==> now == wanted.value) && (wanted.None? ==> now == before)
  }

  // What an update comes to, field by field: what the payload gives replaces what was there,
  // credentials for Azure endpoints only; only the statuses 1 and 2 can be set.
  predicate UpdatedAs(e: Endpoint, r: Endpoint, p: UpdatePayload, env: Environment) {
    && r == e.(
         name := r.name, url := r.url, publicUrl := r.publicUrl, groupId := r.groupId, tags := r.tags,
         status := r.status, azure := r.azure, tlsConfig := r.tlsConfig)
    && Replaced(e.name, r.name, p.name) && Replaced(e.url, r.url, p.url)
    && Replaced(e.publicUrl, r.publicUrl, p.publicUrl) && Replaced(e.groupId, r.groupId, p.groupId)
    && Replaced(e.tags, r.tags, p.tags)
    && (p.status in {Some(1), Some(2)} ==> Some(r.status) == p.status)
    && (p.status !in {Some(1), Some(2)} ==> r.status == e.status)
    && (e.kind != 3 ==> r.azure == e.azure)
    && (e.kind == 3 ==>
          && Replaced(e.azure.applicationId, r.azure.applicationId, p.azureApplicationId)
          && Replaced(e.azure.tenantId, r.azure.tenantId, p.azureTenantId)
          && Replaced(e.azure.authenticationKey, r.azure.authenticationKey, p.azureAuthenticationKey))
    && TLSUpdatedAs(e.tlsConfig, r.tlsConfig, p, env)
  }

  // TLS off means no settings. With TLS on, skipping a verification drops its files, asking for
  // it takes their paths from the file service, and saying nothing leaves them alone.
  predicate TLSUpdatedAs(t: TLSConfiguration, u: TLSConfiguration, p: UpdatePayload, env: Environment) {
    && (p.tls == None ==> u == t)
    && (p.tls == Some(false) ==> u == TLSConfiguration(false, false, "", "", ""))
    && (p.tls == Some(true) ==>
          && u.tls && Replaced(t.skipVerify, u.skipVerify, p.skipVerify)
          && (p.skipVerify == None ==> u.caCertPath == t.caCertPath)
          && (p.skipVerify == Some(true) ==> u.caCertPath == "")
          && (p.skipVerify == Some(false) ==> u.caCertPath == env.caPath)
          && (p.skipClientVerify == None ==> u.certPath == t.certPath && u.keyPath == t.keyPath)
          && (p.skipClientVerify == Some(true) ==> u.certPath == u.keyPath == "")
          && (p.skipClientVerify == Some(false) ==> u.certPath == env.certPath && u.keyPath == env.keyPath))
  }

  lemma UpdateMeaning(e: Endpoint, p: UpdatePayload, env: Environment)
    ensures UpdatedAs(e, UpdatedEndpoint(e, p, env), p, env)
    ensures Refused(e, p, env) <==>
            (e.kind == 3 && !env.azureAuthenticates) || (p.tls == Some(false) && !env.tlsFilesDeleted)
    ensures Reregisters(e, p) <==> p.url != None || p.tls != None || e.kind == 3
  {
  }

  // Azure or the file service refuses the update.
  predicate Refused(e: Endpoint, p: UpdatePayload, env: Environment) {
    (e.kind == AZURE_ENVIRONMENT && !env.azureAuthenticates) || (p.tls == Some(false) && !env.tlsFilesDeleted)
  }

  // The update builds and caches a new proxy.
  predicate Reregisters(e: Endpoint, p: UpdatePayload) {
    p.url.Some? || p.tls.Some? || e.kind == AZURE_ENVIRONMENT
  }

  // ----- Snapshots (api/http/handler/endpoints/endpoint_snapshot.go, endpoint_snapshots.go) -----

  function Snapshotted(e: Endpoint, answer: SnapshotAnswer): Endpoint {
    e.(
    status := if answer.failed then STATUS_DOWN else STATUS_UP,
    snapshots := if answer.snapshot.Some? then [answer.snapshot.value] else e.snapshots)
  }

  // A round over all endpoints passes the Azure ones by.
  function SnapshottedInRound(e: Endpoint, answer: SnapshotAnswer): Endpoint {
    if e.kind == AZURE_ENVIRONMENT then e else Snapshotted(e, answer)
  }

  // A snapshot says whether the endpoint is up, and replaces the one before if it was taken.
  predicate SnapshottedAs(e: Endpoint, r: Endpoint, answer: SnapshotAnswer) {
    && r == e.(status := r.status, snapshots := r.snapshots)
    && r.status == (if answer.failed then 2 else 1)
    && (answer.snapshot.Some? ==> r.snapshots == [answer.snapshot.value])
    && (answer.snapshot.None? ==> r.snapshots == e.snapshots)
  }

  lemma SnapshotMeaning(e: Endpoint, answer: SnapshotAnswer)
    ensures SnapshottedAs(e, Snapshotted(e, answer), answer)
    ensures e.kind == 3 ==> SnapshottedInRound(e, answer) == e
    ensures e.kind != 3 ==> SnapshottedAs(e, SnapshottedInRound(e, answer), answer)
  {
  }

  // ----- Groups (api/http/handler/endpointgroups) -----

  // Where a group update, a creation and a deletion put an endpoint.
  function Regrouped(e: Endpoint, groupId: int, associated: seq<int>): Endpoint {
    if e.groupId == groupId then
      if e.id in associated then e else e.(groupId := UNASSIGNED)
    else if e.groupId == UNASSIGNED && e.id in associated then e.(groupId := groupId)
    else e
  }

  function Taken(e: Endpoint, groupId: int, associated: seq<int>): Endpoint {
    if e.groupId == UNASSIGNED && e.id in associated then e.(groupId := groupId) else e
  }

  function Orphaned(e: Endpoint, groupId: int): Endpoint {
    if e.groupId == groupId then e.(groupId := UNASSIGNED) else e
  }

  // What regrouping means: only groups change, only of members of the group and of unassigned
  // endpoints, of which exactly the listed ones end up in the group. Regrouping for the
  // unassigned group changes nothing.
  lemma RegroupingMeaning(before: map<int, Endpoint>, now: map<int, Endpoint>, id: int, associated: seq<int>)
    requires now.Keys == before.Keys
    requires forall k :: k in before ==> before[k].id == k && now[k] == Regrouped(before[k], id, associated)
    ensures forall k :: k in now ==> now[k] == before[k].(groupId := now[k].groupId)
    ensures forall k :: k in now && before[k].groupId != id && before[k].groupId != UNASSIGNED ==> now[k] == before[k]
    ensures id != UNASSIGNED ==>
              forall k :: k in now && (before[k].groupId == id || before[k].groupId == UNASSIGNED) ==>
                now[k].groupId == if k in associated then id else UNASSIGNED
    ensures id == UNASSIGNED ==> now == before
  {
    if id == UNASSIGNED {
      RegroupingUnassigned(before, now, associated);
    }
  }

  // A new group has exactly the listed endpoints that were unassigned, on top of those that
  // named it already; a deleted one has none, and its endpoints are unassigned.
  lemma TakingMeaning(before: map<int, Endpoint>, now: map<int, Endpoint>, id: int, associated: seq<int>)
    requires now.Keys == before.Keys
    requires forall k :: k in before ==> before[k].id == k && now[k] == Taken(before[k], id, associated)
    ensures forall k :: k in now ==> now[k] == before[k].(groupId := now[k].groupId)
    ensures forall k :: k in now ==>
              now[k].groupId == if before[k].groupId == 1 && k in associated then id else before[k].groupId
  {
  }

  lemma OrphaningMeaning(before: map<int, Endpoint>, now: map<int, Endpoint>, id: int)
    requires now.Keys == before.Keys
    requires forall k :: k in before ==> now[k] == Orphaned(before[k], id)
    ensures forall k :: k in now ==> now[k] == before[k].(groupId := now[k].groupId)
    ensures forall k :: k in now ==> now[k].groupId == if before[k].groupId == id then 1 else before[k].groupId
  {
  }

  // Updating the unassigned group moves nobody.
  lemma RegroupingUnassigned(before: map<int, Endpoint>, now: map<int, Endpoint>, associated: seq<int>)
    requires now.Keys == before.Keys
    requires forall k :: k in before ==> now[k] == Regrouped(before[k], UNASSIGNED, associated)
    ensures now == before
  {
    forall k | k in before
      ensures now[k] == before[k]
    {
    }
  }

  // ----- Requests -----

  datatype Route = Docker | Azure

  datatype Request =
    | CreateEndpoint(creation: CreatePayload, world: World)
    | UpdateEndpoint(id: int, payload: UpdatePayload, env: Environment)
    | DeleteEndpoint(id: int, env: Environment)
    | TakeSnapshot(id: int, answer: SnapshotAnswer)
    | TakeSnapshots(answers: int -> SnapshotAnswer)
    | UpdateAccess(id: int, users: Option<seq<int>>, teams: Option<seq<int>>)
    | Proxy(route: Route, id: int, context: SecurityContext)
    | CreateGroup(group: EndpointGroup, associated: seq<int>)
    | UpdateGroup(id: int, name: string, description: string, tags: Option<seq<string>>, associated: seq<int>)
    | DeleteGroup(id: int)
    | Restart(flags: Flags, startWorld: World)

  datatype Response<+P> =
    | BadRequest
    | NotFound
    | Forbidden
    | Unavailable
    | ServerError
    | Done
    | Saved(endpoint: Endpoint)
    | Served(proxy: P)
}
